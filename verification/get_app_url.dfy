/**
 * The public base URL of the app (src/lib/getAppUrl.ts), chosen from two
 * environment values passed in as parameters: the explicit app URL and the
 * host name the hosting platform injects.
 */
module AppUrl {
  import opened Wrappers
  import opened JsStrings

  const LocalFallback: string := "http://localhost:3000"

  /** `s.replace(/\/$/, "")`: drop one trailing slash, if there is one. */
  function StripTrailingSlash(s: string): (r: string)
    ensures EndsWith(s, "/") ==> r + "/" == s
    ensures !EndsWith(s, "/") ==> r == s
  {
    if |s| > 0 && s[|s| - 1] == '/' then s[..|s| - 1] else s
  }

  /**
   * `getAppUrl()`. `explicitEnv` is the explicit app URL, `vercelEnv` the
   * platform host name; `None` is an unset variable.
   */
  function GetAppUrl(explicitEnv: Option<string>, vercelEnv: Option<string>): string {
    var explicit := explicitEnv.GetOr("");
    if explicit != "" && !Includes(explicit, "localhost") then StripTrailingSlash(explicit)
    else if Truthy(vercelEnv) then "https://" + vercelEnv.value
    else if explicit != "" then explicit
    else LocalFallback
  }

  /** A non-empty explicit URL without "localhost" wins, minus at most one trailing slash. */
  lemma ExplicitWins(explicit: string, vercelEnv: Option<string>)
    requires explicit != "" && !Includes(explicit, "localhost")
    ensures var r := GetAppUrl(Some(explicit), vercelEnv);
      (r == explicit || r + "/" == explicit) && (EndsWith(explicit, "/") <==> r != explicit)
  {
  }

  /** Only one slash goes: "x//" comes back as "x/". */
  lemma OnlyOneSlashStripped(host: string, vercelEnv: Option<string>)
    requires host != "" && !Includes(host + "//", "localhost")
    ensures GetAppUrl(Some(host + "//"), vercelEnv) == host + "/"
  {
    assert (host + "//")[..|host + "//"| - 1] == host + "/";
  }

  /** Otherwise a set platform host name gives the https URL of that host. */
  lemma PlatformHostNext(explicitEnv: Option<string>, vercel: string)
    requires vercel != ""
    requires explicitEnv.GetOr("") == "" || Includes(explicitEnv.value, "localhost")
    ensures GetAppUrl(explicitEnv, Some(vercel)) == "https://" + vercel
  {
  }

  /** With neither, the explicit value is used unstripped, else the local address. */
  lemma LocalFallbackLast(explicitEnv: Option<string>, vercelEnv: Option<string>)
    requires !Truthy(vercelEnv)
    requires explicitEnv.GetOr("") == "" || Includes(explicitEnv.value, "localhost")
    ensures GetAppUrl(explicitEnv, vercelEnv) == if explicitEnv.GetOr("") == "" then LocalFallback else explicitEnv.value
  {
  }

  /**
   * A localhost explicit URL is never used while the platform host is set:
   * the result is then the https URL of that host.
   */
  lemma LocalhostNeverWithPlatform(explicit: string, vercel: string)
    requires Includes(explicit, "localhost") && vercel != ""
    ensures GetAppUrl(Some(explicit), Some(vercel)) == "https://" + vercel
  {
  }

  /** The result is empty exactly when the explicit URL is the single character "/". */
  lemma EmptyOnlyForLoneSlash(explicitEnv: Option<string>, vercelEnv: Option<string>)
    ensures GetAppUrl(explicitEnv, vercelEnv) == "" <==> explicitEnv == Some("/")
  {
    if explicitEnv == Some("/") {
      assert !Includes("/", "localhost");
    }
  }
}
