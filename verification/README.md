# Call-center dialer: a Dafny model of its call-handling core

The system is a browser dialer for a call center. Agents place calls to
leads and take inbound calls through a telephony provider's Voice SDK.
Next.js route handlers answer the provider's webhooks and the agents' requests.
This project models the parts of it that decide who gets which call and what
the agent sees:

- **In-memory server state.** `InboundCallQueue` is the queue of waiting
  inbound calls and the set of claimed call SIDs. `InboundCallTracker` records
  which agent claimed each conference. `AgentAvailability` is the registry of
  agents who are available. Each is a pure state with step functions plus a
  class that performs the same steps on its fields.
- **Route handlers.** `InboundRoute` is the inbound webhook: it checks the
  signature, queues the call and answers with hold TwiML. `InboundStatusRoute`
  is the conference-end webhook. `ClaimInboundRoute` claims a waiting call and
  dials the agent into its conference. `InitiateCallRoute` is the outbound
  two-leg call. `AvailabilityRoute` is the availability GET and POST.
  `LeadsUpload` is the spreadsheet import of leads, row by row. `AppUrl` is
  `getAppUrl`. `FormData` turns a form body into a parameter map.
  `Telephony` holds the TwiML documents and the log of calls requested from
  the provider.
- **Browser components.** `TwilioProvider` is the call state machine of the
  provider component: outbound dialing, polling of the customer leg, inbound
  offers and claims, and the call events. `TwilioDialer` is the lead-page
  dialer with its call timer. `InboundCallPopup` is the incoming-call popup.

Shared helpers live in `Wrappers` (optional values), `Seqs` (insertion-ordered
keys of a JavaScript `Map`) and `JsStrings`. `JsStrings` covers `indexOf`,
`replace` of the first match, `trim`, ASCII `toLowerCase`, decimal printing
and parsing, `padStart`, and template-literal printing of a possibly
undefined value.

Each handler is one atomic step. A state-changing method ensures that its
new state is the step function applied to its old state. The properties are
lemmas about those step functions:

- Round trips, such as enqueue followed by dequeue, or a duration text read back.
- At most one claim of a call succeeds between dequeues.
- The provider's invariant holds over every event sequence.
- Concrete runs that reproduce the behaviours listed below.

Some behaviours of the code differ from what its design intends. The model
follows the code and states each behaviour as a lemma:

- `incoming` overwrites an outbound call's status
  (`TwilioProvider.OutboundShownAsInbound`).
- A poll answer that arrives after hang-up reconnects an idle provider
  (`TwilioProvider.StalePollResurrects`).
- A reassigned duration interval keeps ticking
  (`TwilioProvider.LeakedIntervalTicksWhileIdle`, and the dialer's
  `TwilioDialer.SecondConnectLeaksInterval`).
- A call status that is not idle can still have no direction. The stale poll
  answer above shows a connected call with no direction.
- When the platform host is set, an explicit `localhost` URL gives way to
  `https://` plus that host (`AppUrl.LocalhostNeverWithPlatform`). The result
  contains `localhost` only when the host itself does.

## Model

| member | source | states |
|---|---|---|
| Seqs.Remove | src/lib/inboundCallQueue.ts:48 | deleting a key takes it out of the key order, keeps every other key and changes nothing when the key is absent |
| Seqs.RemoveKeepsNoDup | src/lib/agentAvailability.ts:17 | deleting a key keeps the key order free of duplicates |
| Seqs.AppendFreshKeepsNoDup | src/lib/agentAvailability.ts:13 | setting a new key appends it without creating a duplicate |
| InboundCallQueue.Waiting | src/lib/inboundCallQueue.ts:33 | definition: the unclaimed entries in insertion order; soundness and completeness are `GetWaitingSound` and `GetWaitingComplete` |
| InboundCallQueue.ClaimStep | src/lib/inboundCallQueue.ts:40-44 | definition of `claimCall` on the queue value; its properties are `ClaimFailsWhenTakenOrGone`, `ClaimSucceedsOnce` and `AtMostOneClaimWins` |
| InboundCallQueue.ConferenceNameFor | src/lib/inboundCallQueue.ts:22 | the conference name is `inbound-` followed by exactly the call SID |
| InboundCallQueue.EnqueueStep | src/lib/inboundCallQueue.ts:21-25 | the SID's entry becomes (SID, caller, `inbound-`SID, now), other entries and the claimed set are unchanged, a re-enqueued SID keeps its place, and well-formedness is kept |
| InboundCallQueue.KeepFreshMembers | src/lib/inboundCallQueue.ts:30-32 | the purged key order holds exactly the keys whose entries are not older than the cutoff, each once |
| InboundCallQueue.PurgeStep | src/lib/inboundCallQueue.ts:29-32 | the purge deletes exactly the entries received before the cutoff, keeps the others unchanged and never touches the claimed set |
| InboundCallQueue.Unclaimed | src/lib/inboundCallQueue.ts:33 | the listed calls are queued under their own SID and unclaimed, and every unclaimed queued call is listed |
| InboundCallQueue.DequeueStep | src/lib/inboundCallQueue.ts:47-50 | the SID leaves both the queue and the claimed set, every other SID is untouched, and well-formedness is kept |
| InboundCallQueue.GetWaitingSound | src/lib/inboundCallQueue.ts:28-34 | every call `getWaiting` returns is in the purged queue, at most ten minutes old and not claimed |
| InboundCallQueue.GetWaitingComplete | src/lib/inboundCallQueue.ts:28-34 | every queued, unexpired, unclaimed call is returned |
| InboundCallQueue.PurgeBoundary | src/lib/inboundCallQueue.ts:29-31 | an entry exactly ten minutes old survives the purge and one a millisecond older is deleted |
| InboundCallQueue.ClaimedNeverWaiting | src/lib/inboundCallQueue.ts:23 | re-enqueueing a claimed SID leaves it claimed, so it never shows up as waiting |
| InboundCallQueue.ClaimFailsWhenTakenOrGone | src/lib/inboundCallQueue.ts:41 | a claim of a claimed or absent SID returns null and changes nothing |
| InboundCallQueue.ClaimSucceedsOnce | src/lib/inboundCallQueue.ts:40-44 | a successful claim returns the queued entry, adds only that SID to the claimed set, and a second claim then fails |
| InboundCallQueue.DequeueIdempotent | src/lib/inboundCallQueue.ts:47-50 | dequeueing twice is the same as dequeueing once |
| InboundCallQueue.EnqueueDequeueRemoves | src/lib/inboundCallQueue.ts:21-25 | after enqueue and then dequeue the SID is in neither structure |
| InboundCallQueue.EnqueueDequeueRoundTrip | src/lib/inboundCallQueue.ts:21-25 | for a SID neither queued nor claimed, enqueue followed by dequeue restores the whole state, key order included |
| InboundCallQueue.RemoveAppend | src/lib/inboundCallQueue.ts:48 | deleting a key from a concatenated order deletes it from both parts |
| InboundCallQueue.Apply | src/lib/inboundCallQueue.ts:21-50 | every exported operation keeps the queue well formed |
| InboundCallQueue.AtMostOneClaimWins | src/lib/inboundCallQueue.ts:40-44 | between dequeues of a SID, at most one claim of it succeeds (none if it is already claimed), whatever else is enqueued, read or claimed |
| InboundCallQueue.KeepFreshSnoc | src/lib/inboundCallQueue.ts:30-31 | visiting one more key extends the kept order by that key exactly when it is fresh |
| InboundCallQueue.RemoveBetween | src/lib/inboundCallQueue.ts:31 | deleting a key that occurs once leaves the keys before and after it in order |
| InboundCallQueue.PurgeQueueEntries | src/lib/inboundCallQueue.ts:30-32 | after the loop has visited some keys, an entry remains exactly when it was not visited or is fresh, with its value unchanged |
| InboundCallQueue.PurgeQueueSnoc | src/lib/inboundCallQueue.ts:31 | one more loop turn deletes the visited entry exactly when it is stale |
| InboundCallQueue.PurgeTurnFresh | src/lib/inboundCallQueue.ts:31 | a fresh key keeps its place in the order |
| InboundCallQueue.PurgeTurnStale | src/lib/inboundCallQueue.ts:31 | a stale key is removed from the order and the rest keep their order |
| InboundCallQueue.PurgeLoop | src/lib/inboundCallQueue.ts:30-32 | the in-place loop leaves exactly the fresh entries, in insertion order |
| InboundCallQueue.CallQueue.constructor | src/lib/inboundCallQueue.ts:17-18 | the queue and the claimed set start empty |
| InboundCallQueue.CallQueue.Enqueue | src/lib/inboundCallQueue.ts:21-25 | returns `inbound-`SID, performs `EnqueueStep` in place and leaves the claimed set alone |
| InboundCallQueue.CallQueue.GetWaiting | src/lib/inboundCallQueue.ts:28-34 | purges in place, returns the unclaimed calls in insertion order and leaves the claimed set alone |
| InboundCallQueue.CallQueue.Purge | src/lib/inboundCallQueue.ts:29-32 | the in-place purge performs `PurgeStep` |
| InboundCallQueue.CallQueue.ClaimCall | src/lib/inboundCallQueue.ts:40-44 | returns the entry exactly when the SID was queued and unclaimed, and performs `ClaimStep` |
| InboundCallQueue.CallQueue.Dequeue | src/lib/inboundCallQueue.ts:47-50 | performs `DequeueStep` in place |
| InboundCallTracker.ClaimStep | src/lib/inboundCallTracker.ts:11-15 | definition of `claimConference` on the map; its properties are `ClaimUnclaimed`, `ClaimTaken`, `AtMostOneClaimWins` and `ClaimSticks` |
| InboundCallTracker.ReleaseStep | src/lib/inboundCallTracker.ts:17-19 | definition of `releaseConference`; its properties are `ReleaseOnlyItsOwn` and `ClaimSticks` |
| InboundCallTracker.ClaimUnclaimed | src/lib/inboundCallTracker.ts:11-15 | claiming an unclaimed conference returns true, records exactly that agent and leaves the other conferences as they were |
| InboundCallTracker.ClaimTaken | src/lib/inboundCallTracker.ts:12 | claiming a claimed conference returns false and changes nothing |
| InboundCallTracker.ReleaseOnlyItsOwn | src/lib/inboundCallTracker.ts:17-19 | releasing forgets the conference, is idempotent and leaves every other conference and its agent as they were |
| InboundCallTracker.AtMostOneClaimWins | src/lib/inboundCallTracker.ts:11-15 | between releases of a conference, at most one claim of it returns true (none if it is already claimed) |
| InboundCallTracker.ClaimSticks | src/lib/inboundCallTracker.ts:17-23 | a claimed conference stays claimed by the same agent through any operations that do not release it |
| InboundCallTracker.ConferenceTracker.constructor | src/lib/inboundCallTracker.ts:9 | the map starts empty |
| InboundCallTracker.ConferenceTracker.ClaimConference | src/lib/inboundCallTracker.ts:11-15 | returns true exactly when the conference was unclaimed, and the conference is claimed afterwards |
| InboundCallTracker.ConferenceTracker.ReleaseConference | src/lib/inboundCallTracker.ts:17-19 | the conference is no longer claimed |
| InboundCallTracker.ConferenceTracker.IsClaimed | src/lib/inboundCallTracker.ts:21-23 | returns whether the conference is claimed |
| AgentAvailability.SetAvailableStep | src/lib/agentAvailability.ts:12-14 | the identity is recorded at `now`, every other identity keeps its membership and timestamp, and a known identity keeps its place in the listing |
| AgentAvailability.SetUnavailableStep | src/lib/agentAvailability.ts:16-18 | the identity is gone and every other identity keeps its membership and timestamp |
| AgentAvailability.AvailableAgents | src/lib/agentAvailability.ts:20-22 | lists exactly the identities `isAvailable` accepts, each once |
| AgentAvailability.SetAvailableTwice | src/lib/agentAvailability.ts:13 | registering again only refreshes the timestamp: the listing is unchanged |
| AgentAvailability.SetUnavailableIdempotent | src/lib/agentAvailability.ts:16-18 | unregistering twice is the same as unregistering once |
| AgentAvailability.AvailabilityRegistry.constructor | src/lib/agentAvailability.ts:10 | the registry starts empty |
| AgentAvailability.AvailabilityRegistry.SetAvailable | src/lib/agentAvailability.ts:12-14 | performs `SetAvailableStep` in place |
| AgentAvailability.AvailabilityRegistry.SetUnavailable | src/lib/agentAvailability.ts:16-18 | performs `SetUnavailableStep` in place |
| AgentAvailability.AvailabilityRegistry.CheckAvailable | src/lib/agentAvailability.ts:24-26 | returns whether the identity is registered |
| AgentAvailability.AvailabilityRegistry.GetAvailableAgents | src/lib/agentAvailability.ts:20-22 | returns each registered identity once and nothing else, in insertion order |
| AppUrl.GetAppUrl | src/lib/getAppUrl.ts:9-24 | definition: a non-empty explicit URL without "localhost" minus one trailing slash, else `https://` plus a set platform host, else the explicit value or the localhost default; its properties are in the lemmas below |
| AppUrl.StripTrailingSlash | src/lib/getAppUrl.ts:13 | removes one trailing slash when there is one and otherwise returns the text unchanged |
| AppUrl.ExplicitWins | src/lib/getAppUrl.ts:12-14 | a non-empty explicit URL without "localhost" is returned, minus a trailing slash exactly when it ends in one |
| AppUrl.OnlyOneSlashStripped | src/lib/getAppUrl.ts:13 | only one slash is stripped: "x//" gives "x/" |
| AppUrl.PlatformHostNext | src/lib/getAppUrl.ts:17-20 | otherwise a set platform host name gives "https://" + that host |
| AppUrl.LocalFallbackLast | src/lib/getAppUrl.ts:23 | otherwise the explicit value is returned unstripped, or "http://localhost:3000" when it is empty |
| AppUrl.LocalhostNeverWithPlatform | src/lib/getAppUrl.ts:12-20 | a localhost explicit URL is never returned while the platform host is set |
| AppUrl.EmptyOnlyForLoneSlash | src/lib/getAppUrl.ts:9-24 | the result is empty exactly when the explicit URL is "/" |
| Telephony.AgentIdentity | src/app/api/agents/availability/route.ts:11-13 | definition of `email || "user-" + id`; its properties are `IdentityNonEmpty` and `IdentityCollision` |
| Telephony.Twiml | src/app/api/twilio/inbound/route.ts:40 | definition of the conference TwiML text; `ParseTwimlRoundTrip` shows it carries exactly its room, flags and callback |
| Telephony.IdentityNonEmpty | src/app/api/agents/availability/route.ts:11-13 | the identity `email || "user-" + id` is never empty |
| Telephony.IdentityCollision | src/app/api/agents/availability/route.ts:11-13 | a user whose email is "user-7" and a user with id 7 and no email get the same identity |
| Telephony.ParseTwimlRoundTrip | src/app/api/twilio/inbound/route.ts:40 | the conference TwiML a handler writes reads back as exactly its room, both flags and its callback URL |
| Telephony.ParseBoolText | src/app/api/twilio/inbound/route.ts:40 | a flag written as "true" or "false" reads back as that flag |
| Telephony.UpToQuoteSplit | src/app/api/twilio/inbound/route.ts:40 | a quoted attribute value without quotes reads back up to its closing quote |
| Telephony.RoomBeforeCloseConcat | src/app/api/twilio/inbound/route.ts:40 | the room is the text before the closing tags |
| Telephony.ParseCallbackText | src/app/api/twilio/inbound/route.ts:40 | the status-callback attributes, present or absent, read back as the URL or none |
| Telephony.ParseCallbackSteps | src/app/api/twilio/inbound/route.ts:40 | the callback reader returns the URL found between its attribute literals |
| Telephony.ParseCallbackSome | src/app/api/twilio/inbound/route.ts:40 | a written status-callback URL reads back unchanged |
| Telephony.ParseAfterFlagsText | src/app/api/twilio/inbound/route.ts:40 | the text after the flags reads back as the callback and the room |
| Telephony.ParseAfterStartText | src/app/api/twilio/inbound/route.ts:40 | the text after the first flag reads back as the second flag, the callback and the room |
| Telephony.CallLog.constructor | src/app/api/twilio/initiate-call/route.ts:28 | no request has been sent yet |
| Telephony.CallLog.Record | src/app/api/twilio/initiate-call/route.ts:33-46 | a sent request is appended to the log |
| FormData.ParamsOf | src/app/api/twilio/inbound/route.ts:24-25 | definition of the parameter object; its properties are `ParamsOfKeys` and `ParamsOfLastWins`, and `CollectParams` computes it |
| FormData.FirstValue | src/app/api/twilio/inbound-status/route.ts:11 | definition of `formData.get`; its property is `FirstValueFirst` |
| FormData.ParamsOfKeys | src/app/api/twilio/inbound/route.ts:24-25 | the parameter object has a key for every field name and no other |
| FormData.ParamsOfLastWins | src/app/api/twilio/inbound/route.ts:25 | a name's value is that of its last field |
| FormData.CollectParams | src/app/api/twilio/inbound/route.ts:24-25 | the `forEach` loop builds exactly `ParamsOf(fields)` |
| FormData.FirstValueFirst | src/app/api/twilio/inbound-status/route.ts:11 | `formData.get` returns the value of the first field with that name, and nothing exactly when there is none |
| ClaimInboundRoute.ClaimInbound | src/app/api/twilio/claim-inbound/route.ts:12-48 | definition of the handler on values (reply, queue, requests); its properties are the lemmas below |
| ClaimInboundRoute.AgentLegShape | src/app/api/twilio/claim-inbound/route.ts:35-39 | the agent leg goes to "client:" + identity from the configured number, into the call's conference, with both flags true |
| ClaimInboundRoute.NoSessionNoChange | src/app/api/twilio/claim-inbound/route.ts:13-14 | without a session: 401, the queue unchanged and no call made |
| ClaimInboundRoute.MissingCallSidNoChange | src/app/api/twilio/claim-inbound/route.ts:16-17 | a missing or falsy `callSid`: 400, the queue unchanged and no call made |
| ClaimInboundRoute.ConflictNoChange | src/app/api/twilio/claim-inbound/route.ts:19-25 | a claimed or unqueued call: 409, the queue unchanged and no call made |
| ClaimInboundRoute.ClaimDialsAgent | src/app/api/twilio/claim-inbound/route.ts:27-39 | a successful claim issues exactly one request, the agent leg into `inbound-`SID |
| ClaimInboundRoute.DialOutcome | src/app/api/twilio/claim-inbound/route.ts:35-47 | after a good dial the call stays queued and claimed and is never listed as waiting; after a failed dial it is gone from queue and claimed set, with 500, and nothing else changes |
| ClaimInboundRoute.SecondClaimConflicts | src/app/api/twilio/claim-inbound/route.ts:19-25 | once a request has joined a call, any later claim of it gets 409 and changes nothing |
| ClaimInboundRoute.Post | src/app/api/twilio/claim-inbound/route.ts:12-48 | the handler on the shared queue replies, updates the queue and logs the requests as `ClaimInbound` says |
| InboundRoute.Inbound | src/app/api/twilio/inbound/route.ts:16-45 | definition of the handler on values (reply, queue); its properties are `SignatureGate`, `AcceptedCallQueued` and `HoldTwimlDescribesQueuedCall` |
| InboundRoute.CallSidOf | src/app/api/twilio/inbound/route.ts:31 | definition of `params["CallSid"]` as template text; used by `AcceptedCallQueued` |
| InboundRoute.CallerOf | src/app/api/twilio/inbound/route.ts:32 | definition of `params["From"] ?? "Unknown"`; used by `AcceptedCallQueued` |
| InboundRoute.SignatureGate | src/app/api/twilio/inbound/route.ts:21-29 | the call is queued exactly when the signature check accepts `appUrl + "/api/twilio/inbound"` and the whole parameter map; otherwise 403 and no change |
| InboundRoute.AcceptedCallQueued | src/app/api/twilio/inbound/route.ts:31-35 | an accepted request enqueues its `CallSid` once, with `From` or "Unknown", and leaves the claimed set alone |
| InboundRoute.HoldTwimlDescribesQueuedCall | src/app/api/twilio/inbound/route.ts:40 | the hold TwiML names the queued call's conference, does not start on entry, ends on exit and reports its end to `appUrl + "/api/twilio/inbound-status"` |
| InboundRoute.Post | src/app/api/twilio/inbound/route.ts:16-45 | the handler on the shared queue replies and updates the queue as `Inbound` says |
| InboundStatusRoute.RecoverCallSid | src/app/api/twilio/inbound-status/route.ts:11-12 | definition of the SID taken from the conference name; its properties are `RecoverRoundTrip`, `NameWithoutPrefixUnchanged` and `PrefixRemovedAnywhere` |
| InboundStatusRoute.InboundStatus | src/app/api/twilio/inbound-status/route.ts:8-15 | definition of the handler on values (reply, queue); its properties are `ConferenceEndDequeuesItsCall` and `EmptySidNoChange` |
| InboundStatusRoute.RecoverRoundTrip | src/app/api/twilio/inbound-status/route.ts:12 | the conference name `enqueue` made gives its SID back |
| InboundStatusRoute.ConferenceEndDequeuesItsCall | src/app/api/twilio/inbound-status/route.ts:8-15 | the end of a call's hold conference dequeues exactly that call and replies "OK" |
| InboundStatusRoute.NameWithoutPrefixUnchanged | src/app/api/twilio/inbound-status/route.ts:12 | a name without "inbound-" is used unchanged as the SID |
| InboundStatusRoute.PrefixRemovedAnywhere | src/app/api/twilio/inbound-status/route.ts:12 | the first "inbound-" is removed wherever it occurs: "xinbound-y" gives "xy" |
| InboundStatusRoute.EmptySidNoChange | src/app/api/twilio/inbound-status/route.ts:11-14 | the reply is always "OK", and an absent name or empty SID dequeues nothing |
| InboundStatusRoute.Post | src/app/api/twilio/inbound-status/route.ts:8-15 | the handler on the shared queue replies and updates the queue as `InboundStatus` says |
| InitiateCallRoute.ErrorText | src/app/api/twilio/initiate-call/route.ts:56 | definition of `error.message || "Failed to initiate call"`; used by `Outcome` |
| InitiateCallRoute.RoomName | src/app/api/twilio/initiate-call/route.ts:27 | definition of `room-${Date.now()}`; its property is `RoomNamesDistinct` |
| InitiateCallRoute.InitiateCall | src/app/api/twilio/initiate-call/route.ts:6-60 | definition of the handler on values (reply, requests in order); its properties are the lemmas below |
| InitiateCallRoute.CustomerLegShape | src/app/api/twilio/initiate-call/route.ts:33-37 | the customer leg goes to `to` from the configured number, into the room, not starting the conference but ending it on exit |
| InitiateCallRoute.AgentLegShape | src/app/api/twilio/initiate-call/route.ts:42-46 | the agent leg goes to "client:" + identity from the configured number, into the room, starting the conference and ending it on exit |
| InitiateCallRoute.GuardsRequestNothing | src/app/api/twilio/initiate-call/route.ts:8-24 | no session gives 401, no `to` gives 400, missing configuration gives 500, and none of them requests a call |
| InitiateCallRoute.CustomerLegFirst | src/app/api/twilio/initiate-call/route.ts:27-37 | past the guards the customer leg into `room-<now>` is requested first, and a second request follows exactly when it was created |
| InitiateCallRoute.AgentLegSecond | src/app/api/twilio/initiate-call/route.ts:39-46 | once the customer leg exists, the agent leg is requested second, into the same room |
| InitiateCallRoute.Outcome | src/app/api/twilio/initiate-call/route.ts:48-58 | the reply carries the room and both SIDs exactly when both legs were created; otherwise 500 with the error's message or "Failed to initiate call" |
| InitiateCallRoute.RoomNamesDistinct | src/app/api/twilio/initiate-call/route.ts:27 | requests at different milliseconds get different room names |
| InitiateCallRoute.Post | src/app/api/twilio/initiate-call/route.ts:6-60 | the handler replies and logs its requests, in order, as `InitiateCall` says |
| AvailabilityRoute.PostStep | src/app/api/agents/availability/route.ts:29-43 | definition of the POST handler on the registry value; its properties are `PostNoSessionNoChange`, `PostTouchesOnlyCaller` and `PostKeepsWellFormed` |
| AvailabilityRoute.PostNoSessionNoChange | src/app/api/agents/availability/route.ts:30-31 | POST without a session: 401 and the registry unchanged |
| AvailabilityRoute.PostTouchesOnlyCaller | src/app/api/agents/availability/route.ts:33-42 | a truthy `available` registers the caller's identity at `now`, anything else unregisters it, the reply echoes the value, and no other identity changes |
| AvailabilityRoute.PostKeepsWellFormed | src/app/api/agents/availability/route.ts:36-40 | POST keeps the registry well formed |
| AvailabilityRoute.Get | src/app/api/agents/availability/route.ts:16-26 | 401 exactly without a session; otherwise the caller's identity, whether it is registered, and every registered identity once |
| AvailabilityRoute.Post | src/app/api/agents/availability/route.ts:29-43 | the handler on the shared registry replies and updates it as `PostStep` says |
| JsStrings.IndexOfFrom | src/lib/getAppUrl.ts:12 | the index found is the first occurrence at or after the start, and none is reported only when there is no occurrence |
| JsStrings.ReplaceFirst | src/app/api/twilio/inbound-status/route.ts:12 | text in which the pattern occurs nowhere is returned unchanged; otherwise the replacement takes the place of the first occurrence and the text before and after it is kept |
| JsStrings.TrimStartRemovesSpaces | src/app/api/leads/upload/route.ts:65 | everything the start trim removes is ECMAScript white space |
| JsStrings.TrimEndRemovesSpaces | src/app/api/leads/upload/route.ts:65 | everything the end trim removes is ECMAScript white space |
| JsStrings.TrimIdempotent | src/app/api/leads/upload/route.ts:65 | trimming twice is trimming once |
| JsStrings.LowerAscii | src/app/api/leads/upload/route.ts:65 | lower-casing keeps the length and maps each character on its own |
| JsStrings.NatToString | src/app/api/twilio/initiate-call/route.ts:27 | the decimal text is non-empty digits without a leading zero, and one digit exactly below ten |
| JsStrings.ParseNatToString | src/app/api/twilio/initiate-call/route.ts:27 | the decimal text reads back as the number |
| JsStrings.NatToStringInjective | src/app/api/twilio/initiate-call/route.ts:27 | different numbers print differently |
| JsStrings.PaddedNatValue | src/components/agent/TwilioDialer.tsx:160-161 | a zero-padded number is all digits and reads back as the number |
| JsStrings.PadStart | src/components/agent/TwilioDialer.tsx:160-161 | `padStart` never shortens, keeps the text at its end and fills only the front |
| JsStrings.IntToString | src/app/api/twilio/initiate-call/route.ts:27 | the text is non-empty, starts with "-" exactly for a negative number, and is decimal digits apart from that sign |
| JsStrings.ParseIntToString | src/app/api/twilio/initiate-call/route.ts:27 | reading the text of an integer back gives the integer, negatives included |
| JsStrings.IntToStringInjective | src/app/api/twilio/initiate-call/route.ts:27 | different integers print differently |
| LeadsUpload.CellText | src/app/api/leads/upload/route.ts:71 | definition of how a present cell prints (`toString()` and template literals); used by `UnknownAssigneeFails` and `CreatedLeadShape` |
| LeadsUpload.CheckRow | src/app/api/leads/upload/route.ts:55-103 | definition of one row's checks and its lead; its properties are `MissingFieldsFail`, `UnknownAssigneeFails`, `NonTextAssigneeFails`, `StoredPhoneFails` and `CreatedLeadShape` |
| LeadsUpload.ImportPrefix | src/app/api/leads/upload/route.ts:50-110 | definition of the results after the first n rows; its properties are `CountsAddUp`, `StoredPhones`, `PhonesGrow` and `DuplicateWithinUpload`, and `ImportRows` computes it |
| LeadsUpload.ImportRows | src/app/api/leads/upload/route.ts:43-110 | the loop's counters, errors and created leads are those of `ImportPrefix` over all rows, successes and failures add up to the total, and there is one error per failure |
| LeadsUpload.Post | src/app/api/leads/upload/route.ts:9-118 | a non-admin gets 401, no file 400 and an empty sheet 400 "Excel file is empty", none of them storing anything; an admin's non-empty upload always completes, with the counts, messages, stored phones and leads of importing every row |
| LeadsUpload.CountsAddUp | src/app/api/leads/upload/route.ts:50-110 | after any number of rows, successes plus failures is that number, with one message per failure and one lead per success |
| LeadsUpload.StoredPhones | src/app/api/leads/upload/route.ts:77-103 | the stored phones are the existing ones plus those of the leads created |
| LeadsUpload.ApplyEffect | src/app/api/leads/upload/route.ts:55-109 | a failed row adds one failure and one message and nothing else; a created row adds one success, its lead and its phone |
| LeadsUpload.ErrorNamesRow | src/app/api/leads/upload/route.ts:57-108 | every error message of row i starts with "Row " + (i+2) + ": " |
| LeadsUpload.MissingFieldsFail | src/app/api/leads/upload/route.ts:55-61 | a row without name, phone or assignee fails with the missing-fields message, whatever the users, stored leads and database do |
| LeadsUpload.UnknownAssigneeFails | src/app/api/leads/upload/route.ts:63-74 | an assignee whose lowercased, trimmed email is not a user fails the row with the "not found" message quoting the cell |
| LeadsUpload.CreatedLeadAssignee | src/app/api/leads/upload/route.ts:64-99 | a created lead is assigned to the user found under the lowercased, trimmed email |
| LeadsUpload.NonTextAssigneeFails | src/app/api/leads/upload/route.ts:64-65 | a truthy number or boolean in the assignee column fails the row with the runtime's `TypeError` message |
| LeadsUpload.CreatedLeadShape | src/app/api/leads/upload/route.ts:90-103 | a created lead has status new, score 0, empty notes, trimmed cell texts, nothing for falsy optional cells, and a phone not stored before |
| LeadsUpload.PhonesGrow | src/app/api/leads/upload/route.ts:90-103 | the stored phones only grow from row to row |
| LeadsUpload.CreatedPhoneStored | src/app/api/leads/upload/route.ts:90-103 | the phone of a lead created at one row is stored for every later row |
| LeadsUpload.StoredPhoneFails | src/app/api/leads/upload/route.ts:76-87 | a row whose trimmed phone is already stored fails with the "already exists" message |
| LeadsUpload.DuplicateWithinUpload | src/app/api/leads/upload/route.ts:77-87 | a phone created earlier in the same upload makes a later row with that phone fail as a duplicate |
| TwilioDialer.FormatDuration | src/components/agent/TwilioDialer.tsx:158-162 | definition of `formatDuration`; its properties are `DurationFields`, `LongCallMinutes` and the round trip `ParseFormatDuration` |
| TwilioDialer.Step | src/components/agent/TwilioDialer.tsx:77-156 | definition of every handler on the component's state; its properties are `StepKeepsInv`, `ConnectStartsTimer`, `DisconnectStopsTimer`, `NoConnectionNoop`, `MuteFlips` and `TicksCount` |
| TwilioDialer.TwoDigitsAtMost | src/components/agent/TwilioDialer.tsx:160-161 | a number below 100 prints in at most two digits |
| TwilioDialer.SecondsFieldText | src/components/agent/TwilioDialer.tsx:160-161 | the seconds field is two characters from "00" to "59" and reads back as the seconds |
| TwilioDialer.ParseAroundColon | src/components/agent/TwilioDialer.tsx:161 | the fields on either side of the colon read back as minutes and seconds |
| TwilioDialer.DurationFields | src/components/agent/TwilioDialer.tsx:158-162 | the display is a padded minutes field, a colon and a seconds field "00".."59", and the minutes field ends with the full minute count |
| TwilioDialer.ParseFormatDuration | src/components/agent/TwilioDialer.tsx:158-162 | reading the display back gives the duration, so different durations show differently |
| TwilioDialer.LongCallMinutes | src/components/agent/TwilioDialer.tsx:161 | from 100 minutes on, the minutes field is the whole count, never cut to two digits |
| TwilioDialer.StepKeepsInv | src/components/agent/TwilioDialer.tsx:77-156 | every handler keeps "calling exactly while the timer is referenced, and calling implies a connection" |
| TwilioDialer.RunKeepsInv | src/components/agent/TwilioDialer.tsx:77-156 | the invariant holds after any sequence of events |
| TwilioDialer.ConnectStartsTimer | src/components/agent/TwilioDialer.tsx:77-83 | `connect` sets the connection and calling, restarts the display at "00:00" and adds a running interval |
| TwilioDialer.DisconnectStopsTimer | src/components/agent/TwilioDialer.tsx:85-91 | `disconnect` clears connection and calling and the referenced interval, keeps the mute flag, and with no lost interval the display stops |
| TwilioDialer.NoConnectionNoop | src/components/agent/TwilioDialer.tsx:144-156 | without a connection hang-up and mute change nothing |
| TwilioDialer.MuteFlips | src/components/agent/TwilioDialer.tsx:150-156 | with a connection mute flips only `isMuted`, and twice restores the state |
| TwilioDialer.TicksCount | src/components/agent/TwilioDialer.tsx:102-104 | n firings of a running interval add n seconds and change nothing else |
| TwilioDialer.SecondConnectLeaksInterval | src/components/agent/TwilioDialer.tsx:100-105 | a second `connect` before `disconnect` leaves one interval that no one can clear, counting while no call is shown and doubling the next call's rate |
| TwilioDialer.Dialer.constructor | src/components/agent/TwilioDialer.tsx:29-34 | no device, no connection, not calling, not muted, duration 0, no timer |
| TwilioDialer.Dialer.StartTimer | src/components/agent/TwilioDialer.tsx:100-105 | performs `StartTimerStep`: duration 0, a new interval referenced, an old one lost |
| TwilioDialer.Dialer.StopTimer | src/components/agent/TwilioDialer.tsx:107-112 | performs `StopTimerStep`: the referenced interval is cleared |
| TwilioDialer.Dialer.DeviceCreated | src/components/agent/TwilioDialer.tsx:54-93 | the device is ready and the invariant is kept |
| TwilioDialer.Dialer.HandleCall | src/components/agent/TwilioDialer.tsx:114-142 | without a device nothing changes; otherwise a resolved `connect` sets the connection |
| TwilioDialer.Dialer.OnConnect | src/components/agent/TwilioDialer.tsx:77-83 | performs the `connect` step and keeps the invariant |
| TwilioDialer.Dialer.OnDisconnect | src/components/agent/TwilioDialer.tsx:85-91 | performs the `disconnect` step and keeps the invariant |
| TwilioDialer.Dialer.HandleHangup | src/components/agent/TwilioDialer.tsx:144-148 | asks for a disconnect exactly when there is a connection |
| TwilioDialer.Dialer.HandleMute | src/components/agent/TwilioDialer.tsx:150-156 | with a connection sends `!isMuted` to it and flips the flag; otherwise sends nothing |
| TwilioDialer.Dialer.Tick | src/components/agent/TwilioDialer.tsx:102-104 | one firing of a running interval adds a second |
| InboundCallPopup.Show | src/components/agent/InboundCallPopup.tsx:14-15 | definition of `show`; its properties are `AcceptHidesPopup` and `DeclineHidesPopup` |
| InboundCallPopup.Elapsed | src/components/agent/InboundCallPopup.tsx:18-28 | definition of the counter the effect keeps; its properties are `ElapsedMonotone` and `ElapsedExact`, and `Popup.PendingChanged` sets it |
| InboundCallPopup.FormatElapsed | src/components/agent/InboundCallPopup.tsx:41-44 | definition of `formatElapsed`; its properties are `FormatElapsedUnderMinute`, `FormatElapsedMinutes` and the round trip `ParseFormatElapsed` |
| InboundCallPopup.ElapsedSince | src/components/agent/InboundCallPopup.tsx:24 | the shown count is the whole seconds since arrival: count*1000 <= elapsed ms < count*1000 + 1000 |
| InboundCallPopup.ElapsedMonotone | src/components/agent/InboundCallPopup.tsx:24 | the count never goes backwards while the same call waits |
| InboundCallPopup.ElapsedExact | src/components/agent/InboundCallPopup.tsx:24 | k whole seconds plus less than one after arrival show k |
| InboundCallPopup.FormatElapsedUnderMinute | src/components/agent/InboundCallPopup.tsx:42 | under a minute the text is the count and "s", at most three characters |
| InboundCallPopup.FormatElapsedMinutes | src/components/agent/InboundCallPopup.tsx:43 | from a minute on the text is whole minutes, "m ", the remaining seconds below 60 and "s" |
| InboundCallPopup.MarkerAfterMinutes | src/components/agent/InboundCallPopup.tsx:43 | the first "m " of the text is the one after the minutes |
| InboundCallPopup.ParseAroundDigits | src/components/agent/InboundCallPopup.tsx:43 | the digits on either side of "m " read back as minutes and seconds |
| InboundCallPopup.ParseMinutesSplit | src/components/agent/InboundCallPopup.tsx:43 | "<minutes>m <seconds>" reads back as the total |
| InboundCallPopup.ParseMinutesText | src/components/agent/InboundCallPopup.tsx:43 | "<minutes>m <seconds>s" reads back as the total |
| InboundCallPopup.ParseUnderMinute | src/components/agent/InboundCallPopup.tsx:42 | the under-a-minute text reads back as the count |
| InboundCallPopup.ParseFormatElapsed | src/components/agent/InboundCallPopup.tsx:41-44 | reading the text back gives the count |
| InboundCallPopup.FormatElapsedInjective | src/components/agent/InboundCallPopup.tsx:41-44 | different counts never show the same text |
| InboundCallPopup.AcceptHidesPopup | src/components/agent/InboundCallPopup.tsx:32-35 | while the popup shows, Accept is enabled, starts one claim and takes the waiting call away, so the popup hides |
| InboundCallPopup.DeclineHidesPopup | src/components/agent/InboundCallPopup.tsx:14-15 | while the popup shows, Decline drops the waiting call, so the popup hides, and starts no claim |
| InboundCallPopup.Popup.constructor | src/components/agent/InboundCallPopup.tsx:11-12 | not accepting, elapsed 0, no interval |
| InboundCallPopup.Popup.PendingChanged | src/components/agent/InboundCallPopup.tsx:18-28 | without a waiting call the count is 0 and no interval runs; with one the count is the seconds since its arrival and the interval counts from it |
| InboundCallPopup.Popup.Tick | src/components/agent/InboundCallPopup.tsx:24-26 | a firing recomputes the count from the clock and changes nothing else |
| InboundCallPopup.Popup.Accept | src/components/agent/InboundCallPopup.tsx:32-38 | the provider takes the accept-inbound step and returns the SID it claims; `accepting` stays set exactly while a claim is under way, and is cleared at once when there was no call to claim |
| InboundCallPopup.Popup.AcceptSettled | src/components/agent/InboundCallPopup.tsx:36-38 | whatever the claim's outcome, `accepting` is cleared and the provider takes the claim-response step |
| TwilioProvider.EndReason | src/components/providers/TwilioProvider.tsx:51-57 | definition of the `END_REASON` table; its property is `TerminalIffLabelled` |
| TwilioProvider.EndsCustomerLeg | src/components/providers/TwilioProvider.tsx:59 | definition of `TERMINAL_STATUSES`; its property is `TerminalIffLabelled` |
| TwilioProvider.ResetToIdleStep | src/components/providers/TwilioProvider.tsx:108-116 | definition of `resetToIdle`; its property is `ResetToIdleClears` |
| TwilioProvider.ShowEndReasonStep | src/components/providers/TwilioProvider.tsx:120-124 | definition of `showEndReason`; used by `PollTerminal` |
| TwilioProvider.StopCustomerPollStep | src/components/providers/TwilioProvider.tsx:128-135 | definition of `stopCustomerPoll`; used by `PollResultEffect`, `CallEndEvents` and `EndCallKeepsStatus` |
| TwilioProvider.StartDurationTimerStep | src/components/providers/TwilioProvider.tsx:158-160 | definition of assigning a new duration interval to the ref; its property is `LeakedIntervalTicksWhileIdle` |
| TwilioProvider.PollReadStep | src/components/providers/TwilioProvider.tsx:145-150 | definition of the poll up to its fetch; its properties are `PollWithoutSidDoesNothing` and `TwoPollsInFlight` |
| TwilioProvider.StartCustomerPollStep | src/components/providers/TwilioProvider.tsx:139-181 | definition of `startCustomerPoll`; used by `InitiateResponseOutcome` |
| TwilioProvider.InboundEffectStep | src/components/providers/TwilioProvider.tsx:309-325 | definition of one run of the inbound-poll effect; its property is `PendingOffers` |
| TwilioProvider.Settle | src/components/providers/TwilioProvider.tsx:309-325 | definition of re-running the effect when `available` or the call state changed; its property is `SettleKeepsInv` |
| TwilioProvider.InitiateCallStep | src/components/providers/TwilioProvider.tsx:329-336 | definition of `initiateCall` up to its request; its property is `InitiateCallGuards` |
| TwilioProvider.InitiateResponseStep | src/components/providers/TwilioProvider.tsx:343-363 | definition of the rest of `initiateCall`; its property is `InitiateResponseOutcome` |
| TwilioProvider.PollResultStep | src/components/providers/TwilioProvider.tsx:150-173 | definition of the poll's answer; its properties are `PollResultEffect`, `PollTerminal`, `OnlyAnswerConnectsOutbound` and `StalePollResurrects` |
| TwilioProvider.PollResultDisconnects | src/components/providers/TwilioProvider.tsx:167 | definition of when the answer hangs up the agent leg; its property is `PollTerminal` |
| TwilioProvider.OnAcceptStep | src/components/providers/TwilioProvider.tsx:204-214 | definition of the call's `accept` listener; its property is `AcceptEffect` |
| TwilioProvider.OnCallEndStep | src/components/providers/TwilioProvider.tsx:216-224 | definition of the `disconnect` and `cancel` listeners; its property is `CallEndEvents` |
| TwilioProvider.OnCallErrorStep | src/components/providers/TwilioProvider.tsx:226-230 | definition of the `error` listener; its property is `CallEndEvents` |
| TwilioProvider.OnIncomingStep | src/components/providers/TwilioProvider.tsx:278-283 | definition of the device's `incoming` handler; its properties are `IncomingOverwrites` and `OutboundShownAsInbound` |
| TwilioProvider.EndCallStep | src/components/providers/TwilioProvider.tsx:387-390 | definition of `endCall`; its property is `EndCallKeepsStatus` |
| TwilioProvider.ToggleMicStep | src/components/providers/TwilioProvider.tsx:392-397 | definition of `toggleMic`; its property is `ToggleMicFlips` |
| TwilioProvider.TickStep | src/components/providers/TwilioProvider.tsx:158-160 | definition of one second of the duration intervals; its property is `LeakedIntervalTicksWhileIdle` |
| TwilioProvider.EndReasonExpiredStep | src/components/providers/TwilioProvider.tsx:123 | definition of the end-reason timeout firing; kept by `HandleKeepsHandlerInv` |
| TwilioProvider.InboundPollReadStep | src/components/providers/TwilioProvider.tsx:314-323 | definition of the inbound poll's fetch; kept by `HandleKeepsHandlerInv` |
| TwilioProvider.InboundPollResultStep | src/components/providers/TwilioProvider.tsx:317-320 | definition of the inbound poll's answer; its property is `PendingOffers` |
| TwilioProvider.AcceptInboundStep | src/components/providers/TwilioProvider.tsx:368-377 | definition of `acceptInbound` up to its request; its properties are `AcceptInboundClears` and `InboundCallPopup.AcceptHidesPopup` |
| TwilioProvider.ClaimResponseStep | src/components/providers/TwilioProvider.tsx:378-382 | definition of the claim's answer; its property is `AcceptInboundClears` |
| TwilioProvider.Handle | src/components/providers/TwilioProvider.tsx:108-397 | definition of dispatching an event to its handler; its property is `HandleKeepsHandlerInv` |
| TwilioProvider.Step | src/components/providers/TwilioProvider.tsx:108-397 | definition of a handler followed by the effect re-run it causes; its properties are `StepKeepsInv` and `RunKeepsInv` |
| TwilioProvider.TerminalIffLabelled | src/components/providers/TwilioProvider.tsx:51-59 | a status is terminal exactly when `END_REASON` labels it, so the "Call ended" default is never needed |
| TwilioProvider.ResetToIdleClears | src/components/providers/TwilioProvider.tsx:108-116 | `resetToIdle` shows {idle, null, 0, null}, clears the poll, its SID, the pending flag, the call handle and the referenced duration timer, leaving only leaked intervals ticking |
| TwilioProvider.InitiateCallGuards | src/components/providers/TwilioProvider.tsx:329-336 | not ready only sets "Device not ready. Please wait."; a call in progress is left alone; otherwise the error clears, the call shows dialing outbound and a request is sent |
| TwilioProvider.InitiateResponseOutcome | src/components/providers/TwilioProvider.tsx:343-363 | a non-ok reply shows its error or "Failed to initiate call" and an idle call; a thrown error shows "Failed to start call: "; an ok reply shows ringing with the customer SID and starts polling it at once |
| TwilioProvider.PollWithoutSidDoesNothing | src/components/providers/TwilioProvider.tsx:146-147 | with no truthy SID tracked a poll sends nothing |
| TwilioProvider.PollResultEffect | src/components/providers/TwilioProvider.tsx:150-173 | "in-progress" stops polling, changes only the shown state to connected and starts a duration interval; any other non-terminal status or failed fetch changes nothing |
| TwilioProvider.PollTerminal | src/components/providers/TwilioProvider.tsx:162-169 | a terminal status shows its `END_REASON` label, hangs up the agent leg exactly when there is one, and returns to idle |
| TwilioProvider.AcceptEffect | src/components/providers/TwilioProvider.tsx:204-214 | `accept` is ignored while an outbound leg is pending, and otherwise shows connected inbound and starts a duration interval |
| TwilioProvider.CallEndEvents | src/components/providers/TwilioProvider.tsx:216-230 | `disconnect`, `cancel` and `error` stop the poll and return to idle; `error` also shows "Call error: " + message and differs in nothing else |
| TwilioProvider.IncomingOverwrites | src/components/providers/TwilioProvider.tsx:278-283 | `incoming` shows {ringing, inbound, 0, null} whatever was shown before and keeps the outbound-poll refs as they were |
| TwilioProvider.EndCallKeepsStatus | src/components/providers/TwilioProvider.tsx:387-390 | `endCall` stops polling but leaves the shown call; only the call's `disconnect` event then returns to idle |
| TwilioProvider.ToggleMicFlips | src/components/providers/TwilioProvider.tsx:392-397 | without a call nothing happens; with one the microphone flag flips, and twice restores the state |
| TwilioProvider.PendingOffers | src/components/providers/TwilioProvider.tsx:309-325 | the effect withdraws the offer and stops polling when unavailable or busy, and otherwise polls; a poll result offers the first waiting call or none, and a failed fetch keeps the offer |
| TwilioProvider.AcceptInboundClears | src/components/providers/TwilioProvider.tsx:368-383 | `acceptInbound` withdraws the offer before claiming; a non-ok claim shows the reply's error, or "Failed to claim call" only when there is none |
| TwilioProvider.InitialInv | src/components/providers/TwilioProvider.tsx:74-102 | the freshly mounted provider satisfies the invariant |
| TwilioProvider.SettleKeepsInv | src/components/providers/TwilioProvider.tsx:309-325 | re-running the inbound-poll effect restores "the inbound poll runs only for an available idle agent" |
| TwilioProvider.HandleKeepsHandlerInv | src/components/providers/TwilioProvider.tsx:108-397 | no handler breaks the invariant (poll refs move together, a pending outbound leg is never connected, idle has no direction or SID, connected has a ticking timer, a call handle has listeners) |
| TwilioProvider.ResponsesKeepHandlerInv | src/components/providers/TwilioProvider.tsx:343-363 | the initiate response keeps the invariant |
| TwilioProvider.PollResultKeepsHandlerInv | src/components/providers/TwilioProvider.tsx:150-173 | the poll result keeps the invariant |
| TwilioProvider.CallEventsKeepHandlerInv | src/components/providers/TwilioProvider.tsx:204-230 | the call's `accept`, `disconnect`, `cancel` and `error` events keep the invariant |
| TwilioProvider.StepKeepsInv | src/components/providers/TwilioProvider.tsx:108-397 | every event, with the effect re-run it causes, keeps the invariant |
| TwilioProvider.RunKeepsInv | src/components/providers/TwilioProvider.tsx:108-397 | every run from a reachable state keeps the invariant |
| TwilioProvider.OnlyAnswerConnectsOutbound | src/components/providers/TwilioProvider.tsx:204-214 | while an outbound leg is pending, only an "in-progress" poll result shows the call connected |
| TwilioProvider.OutboundShownAsInbound | src/components/providers/TwilioProvider.tsx:278-283 | an ordinary outbound call ends up shown connected as an inbound call with no SID, because `incoming` overwrites it |
| TwilioProvider.StalePollResurrects | src/components/providers/TwilioProvider.tsx:150-160 | a poll sent before the agent hangs up, answered "in-progress" afterwards, shows the idle provider connected again with no call and a ticking timer |
| TwilioProvider.TwoPollsInFlight | src/components/providers/TwilioProvider.tsx:176-178 | the poll interval can fire before the first fetch is answered, leaving two fetches in flight |
| TwilioProvider.LeakedIntervalTicksWhileIdle | src/components/providers/TwilioProvider.tsx:158-160 | two "in-progress" results start two duration intervals and the ref keeps only one; after the call ends the other goes on counting the idle call |
| TwilioProvider.Provider.constructor | src/components/providers/TwilioProvider.tsx:74-102 | the provider starts in the initial state and satisfies the invariant |
| TwilioProvider.Provider.ResetToIdle | src/components/providers/TwilioProvider.tsx:108-116 | performs `ResetToIdleStep` on the fields |
| TwilioProvider.Provider.ShowEndReason | src/components/providers/TwilioProvider.tsx:120-124 | shows the reason and starts the timeout |
| TwilioProvider.Provider.StopCustomerPoll | src/components/providers/TwilioProvider.tsx:128-135 | clears the poll interval, the SID and the pending flag |
| TwilioProvider.Provider.StartDurationTimer | src/components/providers/TwilioProvider.tsx:158-160 | references a new duration interval, counting a still-referenced one as leaked |
| TwilioProvider.Provider.PollRead | src/components/providers/TwilioProvider.tsx:145-150 | sends a fetch exactly when a truthy SID is tracked |
| TwilioProvider.Provider.StartCustomerPoll | src/components/providers/TwilioProvider.tsx:139-181 | tracks the SID, marks the leg pending, polls at once and starts the interval |
| TwilioProvider.Provider.RerunEffect | src/components/providers/TwilioProvider.tsx:309-325 | re-runs the inbound-poll effect exactly when `available` or the call state changed |
| TwilioProvider.Provider.InitiateCall | src/components/providers/TwilioProvider.tsx:329-336 | performs the initiate step and keeps the invariant |
| TwilioProvider.Provider.InitiateResponse | src/components/providers/TwilioProvider.tsx:343-363 | performs the initiate-response step and keeps the invariant |
| TwilioProvider.Provider.PollResult | src/components/providers/TwilioProvider.tsx:150-173 | performs the poll-result step, keeps the invariant and reports whether it hangs up the agent leg |
| TwilioProvider.Provider.OnAccept | src/components/providers/TwilioProvider.tsx:204-214 | performs the `accept` step and keeps the invariant |
| TwilioProvider.Provider.OnDisconnect | src/components/providers/TwilioProvider.tsx:216-224 | performs the `disconnect` (and `cancel`) step and keeps the invariant |
| TwilioProvider.Provider.OnCallError | src/components/providers/TwilioProvider.tsx:226-230 | performs the `error` step and keeps the invariant |
| TwilioProvider.Provider.OnIncoming | src/components/providers/TwilioProvider.tsx:278-283 | performs the `incoming` step and keeps the invariant |
| TwilioProvider.Provider.EndCall | src/components/providers/TwilioProvider.tsx:387-390 | stops polling, keeps the invariant and asks the call, if any, to disconnect |
| TwilioProvider.Provider.ToggleMic | src/components/providers/TwilioProvider.tsx:392-397 | with a call passes the current microphone flag to `mute` and flips it; without one does nothing |
| TwilioProvider.Provider.Tick | src/components/providers/TwilioProvider.tsx:158-160 | one second adds the number of ticking intervals to the duration |
| TwilioProvider.Provider.EndReasonExpired | src/components/providers/TwilioProvider.tsx:123 | the end-reason timeout clears the shown reason |
| TwilioProvider.Provider.InboundPollRead | src/components/providers/TwilioProvider.tsx:314-323 | the inbound poll's interval sends another fetch |
| TwilioProvider.Provider.InboundPollResult | src/components/providers/TwilioProvider.tsx:317-320 | a poll result offers the first waiting call or none; a failed fetch changes nothing |
| TwilioProvider.Provider.AcceptInbound | src/components/providers/TwilioProvider.tsx:368-377 | withdraws the offer and returns the SID it claims, or does nothing without an offer |
| TwilioProvider.Provider.ClaimResponse | src/components/providers/TwilioProvider.tsx:378-382 | a non-ok or thrown claim shows its error; an ok claim changes nothing |
| TwilioProvider.Provider.DismissInbound | src/components/providers/TwilioProvider.tsx:385 | withdraws the offer |
| TwilioProvider.Provider.DeviceRegistered | src/components/providers/TwilioProvider.tsx:266-269 | the device is ready and the agent available |
| TwilioProvider.Provider.SetAvailability | src/components/providers/TwilioProvider.tsx:185-194 | `available` becomes the requested value, re-running the inbound-poll effect |
| TwilioProvider.Provider.DeviceError | src/components/providers/TwilioProvider.tsx:271-274 | shows "Device error: " + message |
| TwilioProvider.Provider.ClearError | src/components/providers/TwilioProvider.tsx:104 | clears the error |

## Left out

- Spreadsheet parsing (`XLSX.read`, `sheet_to_json`) is left out. The parsed rows are an input whose cells are blank, text, integers or booleans.
- LeadsUpload.CellText: prints a number cell as its exact decimal integer. Non-integer numbers, integers beyond 2^53 (which JavaScript rounds) and numbers JavaScript prints in exponent form (from 1e21 on) are not modelled, nor are date cells.
- The upload's outer catch (the 500 "Failed to process upload" reply) is left out. It catches every throw outside the row loop: `getServerSession`, `req.formData()`, `file.arrayBuffer()` (also when the "file" field is plain text rather than a file), the spreadsheet parser (including a workbook without sheets) and `dbConnect()`. None of these failures is modelled.
- Database access is left out. User lookups are a map, existing phones are a set, and whether `Lead.create` throws is a function of the lead. Errors thrown by `findOne` are not modelled.
- `toLowerCase` maps only ASCII letters (no Unicode case folding). `trim` removes the full set of JavaScript white space and line terminators.
- The provider's request-signature check and its `calls.create` are function inputs, because their code is outside the repository.
- `Date.now()` is the parameter `now`. Intervals and timeouts are flags and counters, and one `Tick` is one firing.
- The `fetch` calls are events with their answers as inputs. This covers `setAvailability`'s request, the availability request made in the device's `registered` handler, and the request bodies.
- The inbound-poll route (`/api/twilio/inbound-poll`) is not part of this model. Only its answer is modelled, as the waiting calls a poll reports. A failed or 401 poll changes nothing.
- A webhook without `CallSid` is queued under the text "undefined", where the code's `Map` key is the value `undefined`. The conference name "inbound-undefined" is the same in both, but what happens next differs. In the code the entry can never be claimed: the poll's JSON drops an undefined `callSid`, so claim-inbound answers 400. Nor does the conference's end remove it: inbound-status dequeues the text "undefined", which misses the key, so only the ten-minute purge does. The model lets that entry be claimed and dequeued like any other.
- Provider: creating the Voice SDK device, asking for microphone permission, fetching the token and running setup (`runSetup`) are left out. The device appears only through its `registered`, `error` and `incoming` events.
- Provider: the unmount cleanup effect (TwilioProvider.tsx lines 294-304) is left out, because unmounting ends the state machine.
- Dialer: the unmount cleanup is left out. It closes over the `device` of the first render, which is null, so it never destroys the device.
- Dialer: the `onCallStart` and `onCallEnd` callbacks, the device's `ready` and `error` events (they only show toasts), and all toasts and rendering are left out.
- TwilioDialer.FormatDuration: takes a `nat`, because the duration it is given only counts up from 0.
- InboundCallPopup: `receivedAt` is taken as milliseconds. The model does not convert it from the date string the poll's JSON carries.
- Concurrency: every handler, webhook and React callback runs as one atomic step. A handler is split around an `await` only for the customer poll, as its read and its answer, and for the requests whose answers are events (initiate, claim, inbound poll). The poll's two awaits, `fetch` and `res.json()`, are one answer. The device's `registered` handler sets `deviceReady` before awaiting the availability request and `available` after it, but `DeviceRegisteredEv` sets both in one step. `setAvailability` likewise sets `available` only after its request.
- The rest of the repository is not part of this model: the token, call, voice, TwiML, setup, status, conference-status and call-end routes, the data models, the pages and the authentication setup.
- A request body that `req.json()` cannot parse is not modelled. In initiate-call it is caught and becomes a 500 with the parser's message. In claim-inbound and the availability POST it escapes the handler.
- The initiate-call request's `to` is modelled as a string or absent. The code passes any truthy JSON value, such as a number, on to `calls.create`.

