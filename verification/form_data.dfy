/**
 * The form-encoded body of a provider webhook, as the list of its fields in
 * the order they arrived, and the two ways the handlers read it: copying
 * every field into a plain object (a later field overwrites an earlier one
 * with the same name) and `formData.get`, which returns the FIRST value of a
 * name.
 */
module FormData {
  import opened Wrappers

  type Field = (string, string)

  /** The object a `forEach` over `fields` builds by `params[k] = v`. */
  function ParamsOf(fields: seq<Field>): map<string, string>
    decreases |fields|
  {
    if fields == [] then map[]
    else
      var last := fields[|fields| - 1];
      ParamsOf(fields[..|fields| - 1])[last.0 := last.1]
  }

  /** Every field name becomes a key, and nothing else does. */
  lemma {:induction false} ParamsOfKeys(fields: seq<Field>)
    ensures forall k :: k in ParamsOf(fields) <==> exists i :: 0 <= i < |fields| && fields[i].0 == k
    decreases |fields|
  {
    if fields != [] {
      var init := fields[..|fields| - 1];
      ParamsOfKeys(init);
      forall k | k in ParamsOf(fields)
        ensures exists i :: 0 <= i < |fields| && fields[i].0 == k
      {
        if k != fields[|fields| - 1].0 {
          assert k in ParamsOf(init);
          var i :| 0 <= i < |init| && init[i].0 == k;
          assert fields[i] == init[i];
        }
      }
      forall k | exists i :: 0 <= i < |fields| && fields[i].0 == k
        ensures k in ParamsOf(fields)
      {
        var i :| 0 <= i < |fields| && fields[i].0 == k;
        if i < |init| {
          assert init[i] == fields[i];
        }
      }
    }
  }

  /** The value kept for a name is the one of its LAST field. */
  lemma {:induction false} ParamsOfLastWins(fields: seq<Field>, i: nat)
    requires i < |fields|
    requires forall j :: i < j < |fields| ==> fields[j].0 != fields[i].0
    ensures fields[i].0 in ParamsOf(fields) && ParamsOf(fields)[fields[i].0] == fields[i].1
    decreases |fields|
  {
    if i < |fields| - 1 {
      var init := fields[..|fields| - 1];
      assert forall j :: i < j < |init| ==> init[j] == fields[j];
      ParamsOfLastWins(init, i);
    }
  }

  /** The `forEach` loop that copies the fields into the parameter object. */
  method CollectParams(fields: seq<Field>) returns (params: map<string, string>)
    ensures params == ParamsOf(fields)
  {
    params := map[];
    var i := 0;
    while i < |fields|
      invariant 0 <= i <= |fields|
      invariant params == ParamsOf(fields[..i])
    {
      assert fields[..i + 1][..i] == fields[..i];
      params := params[fields[i].0 := fields[i].1];
      i := i + 1;
    }
    assert fields[..i] == fields;
  }

  /** `formData.get(name)`: the value of the first field with that name. */
  function FirstValue(fields: seq<Field>, name: string): Option<string>
    decreases |fields|
  {
    if fields == [] then None
    else if fields[0].0 == name then Some(fields[0].1)
    else FirstValue(fields[1..], name)
  }

  /** `FirstValue` finds the first field of that name, or reports that there is none. */
  lemma {:induction false} FirstValueFirst(fields: seq<Field>, name: string)
    ensures FirstValue(fields, name).None? <==> forall i :: 0 <= i < |fields| ==> fields[i].0 != name
    ensures FirstValue(fields, name).Some? ==>
      (exists i :: 0 <= i < |fields| && fields[i] == (name, FirstValue(fields, name).value)
         && forall j :: 0 <= j < i ==> fields[j].0 != name)
    decreases |fields|
  {
    if fields != [] && fields[0].0 != name {
      var rest := fields[1..];
      FirstValueFirst(rest, name);
      assert forall j :: 0 <= j < |rest| ==> rest[j] == fields[j + 1];
      if FirstValue(rest, name).Some? {
        var i :| 0 <= i < |rest| && rest[i] == (name, FirstValue(rest, name).value)
          && forall j :: 0 <= j < i ==> rest[j].0 != name;
        assert fields[i + 1] == rest[i];
        assert forall j :: 0 <= j < i + 1 ==> fields[j].0 != name by {
          forall j | 0 <= j < i + 1 ensures fields[j].0 != name {
            if j > 0 { assert fields[j] == rest[j - 1]; }
          }
        }
      } else {
        forall i | 0 <= i < |fields| ensures fields[i].0 != name {
          if i > 0 { assert fields[i] == rest[i - 1]; }
        }
      }
    }
  }
}
