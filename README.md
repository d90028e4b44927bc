# Ovinet billing core in Dafny

A Dafny model of the core of Ovinet, a multi-tenant billing system for
hotspot and ISP operators. Each vendor (a tenant) sells data packages to end
users; a purchase becomes a subscription, and using it opens a metered
session on a Mikrotik access router. The model covers the following.

- **Session lifecycle across device and store** (`session_manager.dfy`,
  `router.dfy`, `store.dfy`, `tenants.dfy`). `MikrotikSessionManager`
  creates, updates, terminates, pauses and resumes a session. It keeps the
  router's login users and simple queues in step with the session, its
  subscription and its pause history in the database.
  - The router is a class holding users and queues, plus the tables the
    manager only reads: leases, ARP, wireless registrations and the hotspot.
  - The database is a class holding sessions and subscriptions by id, and
    the pause records in insertion order.
  - The Django model instances the manager loads and saves are classes too.
  - A `Fault` parameter says which device call raises, if any, or whether
    the final close does.
  - Every method states the new router and database state exactly. The
    lemmas then say what that comes to: which rows were removed, disabled or
    created; the asymmetric usage update; the early refusals that leave
    everything untouched; the substring match on queue names.
- **Connected-device report** (`devices.dfy`). The merge of DHCP leases with
  the first matching ARP entry and the first matching wireless
  registration, followed by the hotspot users. Also the lookup by MAC
  (ignoring case) and the selection by interface.
- **M-Pesa client** (`mpesa_utils.dfy`, `mpesa.dfy`, `base64.dfy`):
  - configuration lookup, the environment's base URL and certificate name;
  - `format_phone`;
  - the stored access token, with its freshness rule and its two-attempt
    regeneration;
  - the flattening of the STK push callback;
  - the STK push payload, with a password that is the base64
    (section 4 of RFC 4648) of the UTF-8 shortcode, passkey and timestamp;
  - the B2C parameter checks and payload, and the three command-id wrappers.
- **Accounts** (`accounts.dfy`). Phone-number normalisation, the guards and
  defaults of `create_user` and `create_superuser`, and the fields `save`
  clears for end users. Also `clean`, `formatted_phone` and the user-type
  tests `is_end_user` (`UserRow.IsEndUser`) and `is_vendor_staff`
  (`UserRow.IsVendorStaff`, admin or staff).
- **Vendors** (`vendors.dfy`, `vendor_admin.dfy`). The trial and licence
  dates `Vendor.save` fills in, and the licence and trial tests. Also the
  three bulk admin actions, as loops over the selected rows.
- **Core helpers** (`core_utils.dfy`, `soft_delete.dfy`):
  `human_readable_timedelta`, the `PHONE_RE` validator, and the
  `SoftDeleteModel` mixin with its `delete`, `restore` and `hard_delete`.

Times are integers: seconds for sessions, subscriptions and tokens, whole
days for vendors. The current time is always a parameter. Several
`UserSubscription` properties are plain predicates of its row:
- `is_active` is `SubscriptionRow.IsActive`;
- `is_paused` is `SubscriptionRow.IsPaused`;
- `has_reached_connection_limit` is `SubscriptionRow.HasReachedConnectionLimit`,
  which holds iff current connections are at least the simultaneous limit.

The same goes for `ActiveSession.duration` (`SessionRow.Duration`),
`PausedSession.is_active_pause` (`PauseRow.IsActivePause`) and
`pause_duration` (`PauseRow.PauseDuration`). The lemmas in the table below
use them.

The session status has five values: active, paused, terminated, expired and
cancelled. `tenants/models.py:315` assigns `SessionStatus.TERMINATED`, but
the status choices in `core/constants.py:21-25` list only active, paused,
expired and cancelled. `tenants/models.py:7` imports that class, so as
written, evaluating `SessionStatus.TERMINATED` raises `AttributeError`, and
`terminate_session` raises before it changes the row. The model follows the
evident intent of the assignment: a `Terminated` status. The manager imports
its models from `networking/models`, which is not part of this model; the
tenant models are taken in its place.

## Model

| member | source | states |
|---|---|---|
| Tenants.StatusAfterPause | tenants/models.py:197-201 | only an active subscription becomes paused; every other status is kept |
| Tenants.StatusAfterUnpause | tenants/models.py:203-207 | only a paused subscription becomes active; every other status is kept |
| Tenants.PauseUnpauseIdempotent | tenants/models.py:197-207 | pausing twice is pausing once; unpausing twice is unpausing once |
| Tenants.UnpauseUndoesPause | tenants/models.py:197-207 | unpause after pause restores the status exactly when it was not already paused |
| Tenants.FormatRemaining | tenants/models.py:183-188 | the text ends in "s" (the "{m}m {s}s" shape) exactly when there are no days and no hours, otherwise in "m" |
| Tenants.RemainingIsJoin | tenants/models.py:183-188 | the text is the words "{d}d", "{h}h", "{m}m" (with days), "{h}h", "{m}m" (with hours) or "{m}m", "{s}s" joined by single spaces |
| Tenants.RemainingWordsReadBack | tenants/models.py:183-188 | those words carry the units d, h, m / h, m / m, s in that order, hold no space, and each reads back to the count of its unit |
| Tenants.FormatRemainingReadsBack | tenants/models.py:183-188 | split at its spaces, the text gives words with units "dhm" when there are days, "hm" when there are hours but no days, "ms" otherwise, each word's number being that unit's count |
| Tenants.FormatRemainingUnits | tenants/models.py:183-188 | the text contains "d" iff there are days, and "h" iff there are days or hours |
| Tenants.SaveKeepsExpiry | tenants/models.py:146-152 | save always leaves an expiry; a later save keeps it; an existing expiry is never replaced |
| Tenants.SubscriptionActivity | tenants/models.py:154-161 | `is_active` and `is_paused` never hold together; a subscription active later is active now; an active one has status active and has not passed its expiry |
| Tenants.ConnectionLimitMeaning | tenants/models.py:163-166 | the limit is reached iff one more connection would exceed the allowance; a zero allowance is always reached; more connections stay at the limit |
| Tenants.FreshlySavedIsActive | tenants/models.py:146-157 | right after the first save (expiry = now + duration), the subscription is active iff its status is active |
| Tenants.TimeRemainingCases | tenants/models.py:168-188 | "Not active" iff not active; "Expired" iff active with expiry exactly now; otherwise the formatted split of the remaining seconds |
| Tenants.UserSubscription.Save | tenants/models.py:146-152 | the new row is the old one with the expiry set from the package duration only when it was unset |
| Tenants.UserSubscription.Pause | tenants/models.py:197-201 | only the status changes, as StatusAfterPause says |
| Tenants.UserSubscription.Unpause | tenants/models.py:203-207 | only the status changes, as StatusAfterUnpause says |
| Tenants.UserSubscription.AddUsage | networking/mikrotik.py:162-164 | the usage grows by the given amount and nothing else changes |
| Tenants.SessionRow.AfterPause | tenants/models.py:301-305 | paused afterwards iff active or paused before; a session that was not active is unchanged; only the status can differ |
| Tenants.SessionRow.AfterResume | tenants/models.py:307-311 | active afterwards iff active or paused before; a session that was not paused is unchanged; only the status can differ |
| Tenants.SessionRow.AfterTerminate | tenants/models.py:313-317 | terminated with end time now, from any status; start, usage and subscription kept |
| Tenants.PauseResumeRoundTrip | tenants/models.py:301-311 | pause then resume gives an active session back unchanged; resume then pause does the same for a paused one |
| Tenants.TerminationFreezesDuration | tenants/models.py:290-317 | before termination the duration runs to now; after it, the duration stays at the termination time |
| Tenants.DurationRunsWithClock | tenants/models.py:290-294 | an open session's duration grows one-for-one with the clock; one with an end time has a fixed duration; pause and resume leave it unchanged |
| Tenants.TerminatedIsAbsorbing | tenants/models.py:301-317 | neither pause nor resume changes a terminated session |
| Tenants.ActiveSession.PauseSession | tenants/models.py:301-305 | the instance's row becomes AfterPause of the old row |
| Tenants.ActiveSession.ResumeSession | tenants/models.py:307-311 | the instance's row becomes AfterResume of the old row |
| Tenants.ActiveSession.TerminateSession | tenants/models.py:313-317 | the instance's row becomes AfterTerminate(now) of the old row |
| Tenants.ActiveSession.SetUsage | networking/mikrotik.py:157-159 | the session's usage is assigned, not added to, and nothing else changes |
| Tenants.PauseRow.Closed | tenants/models.py:391-395 | afterwards the pause is closed; an open pause gets resume time now; a closed one is unchanged; only the resume time can differ |
| Tenants.ClosingIsIdempotent | tenants/models.py:379-395 | closing twice is closing once, and closing freezes the pause duration at the closing time |
| Tenants.PauseDurationRunsWithClock | tenants/models.py:379-389 | an open pause's duration grows one-for-one with the clock; a resumed one stays at resume time minus pause time |
| Tenants.PausedSession.Resume | tenants/models.py:391-397 | the record is closed; its session is resumed only when the record was open |
| SessionStore.LatestOpenPause | tenants/models.py:371-372 | the index found is an open pause of the session, paused no earlier than any other open pause of it; None iff the session has no open pause |
| SessionStore.LatestOpenPauseAppend | networking/mikrotik.py:341-344 | a new open pause, paused no earlier than the session's others, is the one the query picks |
| SessionStore.Database.GetSession | networking/mikrotik.py:250-254 | None iff the id is missing; otherwise a fresh instance loaded from the row |
| SessionStore.Database.CreatePause | networking/mikrotik.py:280-285 | exactly one pause record is appended and nothing else changes |
| SessionStore.Database.FirstOpenPause | networking/mikrotik.py:341-344 | the position is LatestOpenPause's, and the instance is loaded from that record |
| Router.UserIdsNamed | networking/mikrotik.py:193-197 | an id is returned iff some user with that id has exactly that name |
| Router.QueueIdsContaining | networking/mikrotik.py:206-210 | an id is returned iff some queue with that id has a name containing the pattern |
| Router.ApplyKeepsWellFormed | networking/mikrotik.py:104-130 | every device command keeps user and queue ids distinct and below the next id to be handed out |
| Router.Router.UserAdd | networking/mikrotik.py:104-109 | a user with the given name, password and group is appended under the next id |
| Router.Router.QueueAdd | networking/mikrotik.py:112-130 | an enabled queue with the given name, target and limit is appended under the next id |
| Router.Router.UserRemove | networking/mikrotik.py:199-200 | the user with that id leaves the table; the others stay in order |
| Router.Router.QueueRemove | networking/mikrotik.py:212-213 | the queue with that id leaves the table; the others stay in order |
| Router.Router.QueueSet | networking/mikrotik.py:267-271 | the queue with that id gets the disabled flag; nothing else changes |
| ConnectedDevices.FirstArp | networking/mikrotik.py:480-484 | the index of the first ARP entry with the MAC; None iff there is none |
| ConnectedDevices.FirstClient | networking/mikrotik.py:487-498 | the index of the first wireless registration with the MAC; None iff there is none |
| ConnectedDevices.FindArp | networking/mikrotik.py:480-484 | the search loop finds FirstArp's index |
| ConnectedDevices.FindClient | networking/mikrotik.py:487-498 | the search loop finds FirstClient's index |
| ConnectedDevices.ReportShape | networking/mikrotik.py:463-518 | one lease entry per lease, in lease order and with its MAC, then one hotspot entry per hotspot user |
| ConnectedDevices.LeaseEntryMatches | networking/mikrotik.py:466-500 | a lease entry is typed wireless iff some registration has its MAC, and carries the first such registration; it has ARP information iff some ARP entry has its MAC, from the first one |
| ConnectedDevices.BuildReport | networking/mikrotik.py:463-518 | the merge loops build exactly Report(leases, arp, wireless, hotspot) |
| ConnectedDevices.FirstWithMac | networking/mikrotik.py:547-552 | the first device whose MAC equals the given one ignoring case; None iff there is none |
| ConnectedDevices.FindByMac | networking/mikrotik.py:547-552 | the loop returns FirstWithMac's device |
| ConnectedDevices.DevicesOn | networking/mikrotik.py:570-577 | a device is kept iff it is in the report and its ARP or wireless interface is the name; never more devices than in the report |
| ConnectedDevices.SelectByInterface | networking/mikrotik.py:570-577 | the loop keeps exactly DevicesOn, in report order |
| ConnectedDevices.DevicesOnFacts | networking/mikrotik.py:570-577 | hotspot entries are never selected, and selecting twice is selecting once |
| Networking.Speed | networking/mikrotik.py:114-118 | a missing or zero speed takes the default; any other is kept |
| Networking.RemoveUsersEffect | networking/mikrotik.py:199-200 | removing the queried ids one by one removes exactly the users with those ids |
| Networking.RemoveQueuesEffect | networking/mikrotik.py:212-213 | removing the queried ids one by one removes exactly the queues with those ids |
| Networking.ToggleQueuesEffect | networking/mikrotik.py:267-271 | setting the flag on the queried ids one by one sets it on exactly those queues |
| Networking.NamedIdsExact | networking/mikrotik.py:194 | with distinct ids, the queried ids pick out exactly the users with that name |
| Networking.ContainingIdsExact | networking/mikrotik.py:207 | with distinct ids, the queried ids pick out exactly the queues whose name contains the pattern |
| Networking.TerminatePlanEffect | networking/mikrotik.py:190-216 | a completed terminate plan removes every user with that name and every queue whose name contains "session-{id}"; all other rows stay, in order |
| Networking.TogglePlanEffect | networking/mikrotik.py:260-274 | a completed toggle plan sets the flag on exactly the queues whose name contains "session-{id}" |
| Networking.CreatePlanEffect | networking/mikrotik.py:101-139 | user first (group billing-users), then queue "session-{id}-{user}" targeting the user with limit "{down}M/{up}M" and defaults 50 and 10; after one call only the user exists, and it stays |
| Networking.TagMatchesLongerSessionId | networking/mikrotik.py:207 | the queue of session 12 contains the tag of session 1, though it is a different queue |
| Networking.TerminateRemovesOtherSessionsQueue | networking/mikrotik.py:206-213 | terminating session 1 removes the queue of session 12 |
| Networking.NewPause | networking/mikrotik.py:280-285 | an open record of the session paused now; the reason is user request iff no reason was given (description "Session paused"), otherwise admin action with the reason as description |
| Networking.DatabaseStepsKeepLinked | networking/mikrotik.py:155-164 | the usage, terminate, pause and resume steps keep every session's subscription reference resolvable |
| Networking.UsageAsymmetry | networking/mikrotik.py:156-164 | after two usage reports of mb, the session holds mb and the subscription has gained 2·mb, with an expiry set |
| Networking.PauseRecordedWithoutStatusChange | networking/mikrotik.py:256-285 | a terminated session passes the pause guard; its row is unchanged, yet one pause record is added |
| Networking.PauseThenResume | networking/mikrotik.py:276-347 | pausing an active session and then resuming it restores its row, and closes exactly the record the pause created |
| Networking.ResumeClosesLatest | networking/mikrotik.py:340-347 | resume changes at most one record, the latest open pause of the session, by closing it; with no open pause nothing changes |
| Networking.MikrotikSessionManager.Run | networking/mikrotik.py:36-50 | the calls run in order until the faulty one; raised iff the fault falls inside the plan; the commands before it stay applied |
| Networking.MikrotikSessionManager.CreateSession | networking/mikrotik.py:85-139 | the device holds the created prefix up to the fault; true iff no call raised and the close did not; no database write |
| Networking.MikrotikSessionManager.UpdateSessionData | networking/mikrotik.py:141-177 | a missing session gives false with nothing changed; otherwise the session's usage is assigned and the subscription's usage is added to and saved |
| Networking.MikrotikSessionManager.TerminateSession | networking/mikrotik.py:179-232 | device commands up to the fault; a raise returns false before any database step; otherwise the row, if any, is terminated now; true also without a row |
| Networking.MikrotikSessionManager.PauseSession | networking/mikrotik.py:234-295 | a missing or paused session gives false with device and database untouched; otherwise queues are disabled up to the fault, then the status step and one new pause record |
| Networking.MikrotikSessionManager.ResumeSession | networking/mikrotik.py:297-357 | a missing or unpaused session gives false with nothing touched; otherwise queues are enabled up to the fault, then the session is set active and its latest open pause is closed |
| Networking.MikrotikSessionManager.ResumeRecords | networking/mikrotik.py:337-347 | the database becomes ResumeStore: the status step, then the latest open pause closed |
| Networking.MikrotikSessionManager.GetConnectedDevices | networking/mikrotik.py:436-532 | empty when the lease or ARP query or the close raises; a failing wireless or hotspot query contributes nothing; otherwise the merged report |
| Networking.MikrotikSessionManager.GetDeviceByMac | networking/mikrotik.py:534-555 | the first reported device with that MAC, ignoring case |
| Networking.MikrotikSessionManager.GetDevicesByInterface | networking/mikrotik.py:557-580 | the reported devices on that interface, in order |
| MpesaUtils.Lookup | billing/mpesa/utils.py:74-82 | settings first, then the environment; an error naming the key iff it is in neither |
| MpesaUtils.ApiBaseUrl | billing/mpesa/utils.py:96-105 | development gives the development URL, sandbox the sandbox URL and production the production URL; a URL iff the environment is one of these three; a missing key and an unknown value give their own errors |
| MpesaUtils.ApiBaseUrlInjective | billing/mpesa/utils.py:98-103 | equal base URLs come from equal environment settings |
| MpesaUtils.CertificateName | billing/mpesa/utils.py:210-215 | the certificate file is "<environment>.cer" |
| MpesaUtils.CertificateAgreesWithUrl | billing/mpesa/utils.py:210-215 | a certificate is chosen exactly for the environments that have a base URL, and both fail with the same error |
| MpesaUtils.KeepPhoneChars | billing/mpesa/utils.py:188 | the result holds only digits and plus signs and is no longer than the input; a single character is kept iff it is a digit or a plus sign |
| MpesaUtils.KeepPhoneCharsAppend | billing/mpesa/utils.py:188 | cleaning a concatenation cleans each half, so the kept characters stay in their order |
| MpesaUtils.StripPlus | billing/mpesa/utils.py:191-192 | exactly one leading plus sign is removed when present |
| MpesaUtils.FormatPhone | billing/mpesa/utils.py:182-200 | None and "" are returned unchanged; a value stays a value |
| MpesaUtils.FormatPhoneCases | billing/mpesa/utils.py:193-200 | a cleaned value starting with 0 becomes 254 plus the rest (two longer); a 9-character digit value, or one starting with 7, gets 254 in front; anything else is kept |
| MpesaUtils.FormatPhoneChars | billing/mpesa/utils.py:188-200 | the output holds only digits and plus signs |
| MpesaUtils.SevenRuleNeedsEmbeddedPlus | billing/mpesa/utils.py:195-198 | the starts-with-7 rule fires iff the value has 9 characters, starts with 7 and has a plus sign inside |
| MpesaUtils.LeadingPlusSurvives | billing/mpesa/utils.py:188-192 | the output starts with a plus sign iff the cleaned input started with two |
| MpesaUtils.RequestConfig | billing/mpesa/utils.py:122-124 | a token request gets past its configuration iff the base URL, the consumer key and the consumer secret are all found; the first missing one, in that order, is the error |
| MpesaUtils.Generate | billing/mpesa/utils.py:107-153 | no request on a configuration error, which is reported; at most two requests, two iff the first reply is a non-200 response; the deciding 200 reply gives its `access_token`, or the missing-field error; a connection failure and any other request exception give their own errors; failure after two non-200 replies |
| MpesaUtils.GenerateOutcome | billing/mpesa/utils.py:146-153 | a token comes back iff the configuration is complete and the deciding reply is a 200 with the field; the second reply matters only after a non-200 first response |
| MpesaUtils.NeedsRefreshThreshold | billing/mpesa/utils.py:174-176 | "more than 50 whole minutes" is "at least 3060 seconds" |
| MpesaUtils.FreshTokenIsReused | billing/mpesa/utils.py:169-180 | a stored token is reused for exactly 3060 seconds after its creation |
| MpesaUtils.Fetch | billing/mpesa/utils.py:169-180 | a fresh stored token is returned with no request and no change; otherwise the generation's outcome, with the table replaced by the new token on success |
| MpesaUtils.FetchLeavesOneRow | billing/mpesa/utils.py:155-158 | after a fetch the table is as before or holds exactly the new token, which is then fresh |
| MpesaUtils.TokenStore.GenerateAccessToken | billing/mpesa/utils.py:146-158 | on success every old row is deleted and the new token is the only row; on failure the table is unchanged |
| MpesaUtils.TokenStore.MpesaAccessToken | billing/mpesa/utils.py:169-180 | the token, the request count and the new table are those of Fetch |
| MpesaClient.FixedFields | billing/mpesa/mpesa.py:32-37 | exactly the four keys ResultCode, ResultDesc, MerchantRequestID and CheckoutRequestID |
| MpesaClient.LastNamed | billing/mpesa/mpesa.py:41-42 | the position of the last item with the name; None iff no item has it |
| MpesaClient.FlattenLastWins | billing/mpesa/mpesa.py:40-42 | after the loop a key is present iff it was before or an item has that name; it holds the last such item's value, or its old value |
| MpesaClient.StkResultWithoutMetadata | billing/mpesa/mpesa.py:33-39 | with no metadata the result has exactly the four copied keys |
| MpesaClient.StkResultWithItems | billing/mpesa/mpesa.py:38-42 | each item name maps to its last item's value, even over the four copied keys; nothing else appears |
| MpesaClient.MpesaApi.ParseStkResult | billing/mpesa/mpesa.py:28-43 | the key-by-key filling and the item loop produce StkResult |
| MpesaClient.StkPasswordDecodes | billing/mpesa/mpesa.py:75-76 | the password decodes to the UTF-8 of shortcode, passkey and the 14-digit timestamp |
| MpesaClient.StkOutcome | billing/mpesa/mpesa.py:73-94 | a token failure first, then a base URL failure; otherwise PartyA = PhoneNumber = the formatted phone, PartyB = BusinessShortCode = the shortcode, Amount, CallBackURL, AccountReference, TransactionDesc and TransactionType as given, with the password and the bearer token |
| MpesaClient.MpesaApi.StkPush | billing/mpesa/mpesa.py:70-94 | the token table, the request count and the result are those of the fetch followed by StkOutcome |
| MpesaClient.StripEmpty | billing/mpesa/mpesa.py:130 | stripping gives "" exactly when every character is whitespace |
| MpesaClient.B2cCheck | billing/mpesa/mpesa.py:130-133 | passes iff the description is not blank and the amount is an int (bool included); a blank description is refused as such, and a non-blank one with a non-int amount as a non-integer amount |
| MpesaClient.ReadB2cSettings | billing/mpesa/mpesa.py:135-140 | succeeds iff the base URL, shortcode, initiator name and security credential are all found; the first missing one, in that order, is the error; the initiator is the configured name and the credential is encrypted with the environment's certificate |
| MpesaClient.B2cOutcomeCases | billing/mpesa/mpesa.py:130-156 | parameter errors before anything else and without a request; then settings errors; then the token; a payload goes to the settings' URL with the fetched bearer token, InitiatorName and SecurityCredential from the settings, QueueTimeOutURL = ResultURL = the callback, PartyA = shortcode, PartyB = formatted phone, and the occasion as given |
| MpesaClient.MpesaApi.B2cPayment | billing/mpesa/mpesa.py:114-156 | the result, the request count and the token table are B2cOutcome's |
| MpesaClient.MpesaApi.SendB2c | billing/mpesa/mpesa.py:141-156 | once the settings are read, the token fetch and the payload are B2cSend's |
| MpesaClient.MpesaApi.BusinessPayment | billing/mpesa/mpesa.py:174-176 | b2c_payment with command id BusinessPayment |
| MpesaClient.MpesaApi.CustomerRefund | billing/mpesa/mpesa.py:178-180 | b2c_payment with command id CustomerRefund |
| MpesaClient.MpesaApi.PromotionPayment | billing/mpesa/mpesa.py:182-184 | b2c_payment with command id PromotionPayment |
| Base64.Utf8Append | billing/mpesa/mpesa.py:76 | encoding to UTF-8 distributes over concatenation |
| Base64.Utf8OfAscii | billing/mpesa/mpesa.py:76 | an ASCII string encodes to its own codes, one byte each |
| Base64.Encode | billing/mpesa/mpesa.py:76 | four characters for every started group of three bytes |
| Base64.EncodeAlphabet | billing/mpesa/mpesa.py:76 | the characters are from the base64 alphabet, except up to two final pads |
| Base64.DecodeEncode | billing/mpesa/mpesa.py:76 | decoding an encoding gives the bytes back |
| Base64.EncodeInjective | billing/mpesa/mpesa.py:76 | distinct byte strings have distinct encodings |
| Base64.Rfc4648Vectors | billing/mpesa/mpesa.py:76 | the encoder agrees with the test vectors of section 10 of RFC 4648 |
| Accounts.NormalizePhoneNumber | accounts/models.py:30-47 | the result is all digits: the input's digits in order, possibly with 254 in front or with a leading 0 of ten digits replaced by 254 |
| Common.KeepDigits | accounts/models.py:33 | the result is all digits and no longer than the input; a single character is kept iff it is a digit |
| Common.KeepDigitsAppend | accounts/models.py:33 | keeping the digits of a concatenation keeps those of each half, so the digits stay in their order |
| Accounts.NormalizeCases | accounts/models.py:33-47 | on the digits: 10 starting with 0 gives 254 and the last nine; 12 starting with 254 is kept; 9 get 254 in front; the rest is kept; the result has 12 digits exactly in the first three cases and for any 12 digits |
| Accounts.NormalizeIdempotent | accounts/models.py:30-47 | normalising twice is normalising once |
| Accounts.NormalisationsAgreeOnLocalNumbers | accounts/models.py:36-38 | both normalisations map a 10-digit local number to 254 plus its last nine digits |
| Accounts.NormalisationsDifferOnLongerNumbers | accounts/models.py:36-47 | on longer digit strings starting with 0, format_phone rewrites and this normalisation keeps the value |
| Accounts.UserRow.FormattedPhone | accounts/models.py:171-176 | a plus sign is put in front iff the number starts with 254 and has 12 characters |
| Accounts.UserRow.Saved | accounts/models.py:152-161 | the phone is normalised; end users lose vendor and national id; every other field is kept |
| Accounts.UserRow.Clean | accounts/models.py:144-150 | fails iff a vendor account lacks an email or a national id; a missing email is reported as such first, then a missing national id |
| Accounts.UserKinds | accounts/models.py:163-169 | an end user is not vendor staff; vendor staff are exactly the admin and staff types; other types are neither |
| Accounts.SaveIdempotent | accounts/models.py:152-161 | saving twice stores the same row as saving once |
| Accounts.SavedEndUserIsClean | accounts/models.py:144-161 | a saved end user passes clean and has neither vendor nor national id |
| Accounts.SavedLocalNumberIsFormatted | accounts/models.py:171-176 | a local number, once saved, is displayed as +254 plus its last nine digits |
| Accounts.User.SetPassword | accounts/models.py:26 | only the password changes |
| Accounts.User.Save | accounts/models.py:152-161 | the instance's row becomes Saved of the old row |
| Accounts.NewUserRow | accounts/models.py:14-28 | an error iff the phone is missing or empty; otherwise a normalised phone, the user type defaulting to end user, the password given, and a row that saving leaves as it is |
| Accounts.NewSuperuserRow | accounts/models.py:49-64 | is_staff given as false, or else is_superuser given as false, is refused (in that order, before the phone); a created superuser is staff and superuser and defaults to active vendor admin |
| Accounts.CreateUser | accounts/models.py:14-28 | refuses as NewUserRow does, or returns a fresh user holding NewUserRow's row |
| Accounts.CreateSuperuser | accounts/models.py:49-64 | refuses as NewSuperuserRow does, or returns a fresh user holding its row |
| Vendors.VendorRow.DaysUntilLicenseExpiry | vendors/models.py:99-104 | end minus today while the licence is active, else 0; never negative |
| Vendors.VendorRow.DaysUntilTrialEnd | vendors/models.py:106-111 | trial end minus today while the trial is active, else 0; never negative |
| Vendors.VendorRow.Saved | vendors/models.py:74-85 | a vendor being added on trial starts its trial today for its duration; an active vendor without a licence start starts today for its duration; nothing else changes |
| Vendors.WarningWindow | vendors/models.py:113-120 | the warning shows iff an active licence ends within 30 days or an active trial within 7 |
| Vendors.SaveKeepsLicenseStart | vendors/models.py:80-83 | an existing licence start and end are never overwritten |
| Vendors.ResaveIsStable | vendors/models.py:74-85 | saving again later changes nothing once the vendor exists |
| Vendors.NewTrialIsActive | vendors/models.py:76-78 | a vendor added on trial today is on an active trial until its last day, with the days left counting down |
| Vendors.Vendor.Save | vendors/models.py:74-85 | the instance's row becomes Saved of the old row |
| VendorAdmin.Selected | vendors/admin.py:64-84 | selected rows are transformed, all others untouched, and no row is added or lost |
| VendorAdmin.Activate | vendors/admin.py:66-68 | afterwards the licence is active, with exactly its duration left |
| VendorAdmin.ActivateThenSave | vendors/admin.py:64-69 | activation overwrites any old licence dates with today and today plus the duration; the save after it adds nothing; the trial is kept |
| VendorAdmin.SuspendedIsInactive | vendors/admin.py:73-75 | a suspended licence is not active and has 0 days left; only the status changed |
| VendorAdmin.ExtendTrialEffect | vendors/admin.py:78-82 | a vendor on trial with an end date gains exactly 7 trial days (the save may also start an unstarted active licence); any other vendor is unchanged |
| VendorAdmin.VendorTable.ActivateLicense | vendors/admin.py:64-70 | every selected row is activated, the others are untouched; the count is the selection's size |
| VendorAdmin.VendorTable.SuspendLicense | vendors/admin.py:73-75 | every selected row is suspended, the others are untouched; the count is the selection's size |
| VendorAdmin.VendorTable.ExtendTrialAction | vendors/admin.py:78-83 | every selected row is extended where that applies, the others are untouched; the count is the selection's size, extended or not |
| VendorAdmin.VendorTable.ActivateOne | vendors/admin.py:65-69 | one row is loaded, activated, saved and written back |
| VendorAdmin.VendorTable.ExtendOne | vendors/admin.py:79-82 | one row is extended and saved when it is on trial with an end date, else left as it is |
| Common.SplitSeconds | core/utils.py:21-23 | days·86400 + hours·3600 + minutes·60 + seconds is the total, with hours < 24 and minutes and seconds < 60 |
| CoreUtils.TruncatedSeconds | core/utils.py:20 | the total seconds rounded toward zero, for negative durations too |
| CoreUtils.Parts | core/utils.py:24-28 | at most three parts; none iff every unit is zero |
| CoreUtils.PartsEmptyIffZero | core/utils.py:24-28 | no part at all exactly for a zero duration |
| CoreUtils.PartsReadBack | core/utils.py:24-28 | the parts carry d, h, m for each non-zero day, hour and minute count, in that order, and s only when none of those shows; each part reads back to the count of its unit |
| Common.PartReadsBack | core/utils.py:24-28 | a number followed by a unit letter reads back to that number and that unit |
| CoreUtils.SplitJoin | core/utils.py:29 | splitting a space-join of space-free words at its spaces gives the words back |
| CoreUtils.TimedeltaTextReadsBack | core/utils.py:24-29 | split at its spaces, the text of a non-zero duration gives back exactly its parts |
| CoreUtils.SecondsShowAlone | core/utils.py:28 | under a minute the seconds part shows, alone; from a minute up (or negative) no part is a seconds part |
| CoreUtils.ZeroTextIffZero | core/utils.py:29 | the text is "0s" exactly for a zero duration |
| CoreUtils.HumanReadableTimedelta | core/utils.py:18-29 | the divmods and appends give TimedeltaText of the truncated total |
| CoreUtils.ValidatePhone | core/utils.py:12-14 | passes iff the raw pattern matches: one or more backslashes, 7 to 15 digits, then the end or a final newline |
| CoreUtils.PhoneMatchIsPattern | core/utils.py:9-13 | the leading-backslash scan accepts exactly the values the pattern matches |
| CoreUtils.PlainNumbersRefused | core/utils.py:9-14 | a value not starting with a backslash is refused |
| CoreUtils.InternationalNumberRefused | core/utils.py:9-14 | "+254712345678" is refused as written and accepted as intended; a backslash in place of the plus is accepted |
| CoreUtils.ValidatePhoneIntended | core/utils.py:9-14 | passes iff the value is an optional plus sign, 7 to 15 digits, then the end or a final newline |
| SoftDelete.Mark | core/mixins.py:39-47 | written iff the key (after the key field's default is filled in) is present in the table; a key still missing and a missing row are distinct errors that change nothing; only that row's flag changes |
| SoftDelete.Remove | core/mixins.py:49-53 | without a key nothing happens; otherwise that key's row leaves the table, also when absent, and every other row stays |
| SoftDelete.DeleteIdempotent | core/mixins.py:39-42 | deleting twice is deleting once |
| SoftDelete.DeleteThenRestore | core/mixins.py:39-47 | restore after delete clears the flag and keeps every other column; a row that was not deleted comes back exactly |
| SoftDelete.RemovedCannotBeMarked | core/mixins.py:49-53 | after a hard delete, marking under the old key or under a fresh default key fails as a missing row and writes nothing |
| SoftDelete.SoftDeletable.SaveDeletedFlag | core/mixins.py:42 | a keyless instance first takes its key field's default (a fresh UUID for `UUIDModel`); the save of the one column is then Mark of that key and the flag |
| SoftDelete.SoftDeletable.Delete | core/mixins.py:39-42 | the instance's flag is set, even when the save fails; a keyless instance takes its key default; the table is Mark of that key and true |
| SoftDelete.SoftDeletable.Restore | core/mixins.py:45-47 | the instance's flag is cleared; a keyless instance takes its key default; the table is Mark of that key and false |
| SoftDelete.SoftDeletable.HardDelete | core/mixins.py:49-53 | the table is Remove of the key, and the instance loses its key |

## Findings

| source | as written | input that shows it | evidently intended | confidence | as-written member | corrected member |
|---|---|---|---|---|---|---|
| core/utils.py:9 | the raw string `r'^\\+?\d{7,15}$'` makes `\\+?` a lazy run of one or more literal backslashes, so an international number is refused and a backslash-prefixed one accepted | "+254712345678" is refused; a backslash followed by 254712345678 is accepted | `^\+?\d{7,15}$`: an optional plus sign, then 7 to 15 digits | high (the error message asks for international format), not executed | CoreUtils.ValidatePhone, CoreUtils.InternationalNumberRefused | CoreUtils.ValidatePhoneIntended |

## Left out

- Router transport: `connect`, `disconnect`, the connection field and librouteros are not modelled. A device failure is the `Fault` parameter. A refused connection is a fault at call 0. Logging and tracebacks are left out.
- Networking.MikrotikSessionManager.UpdateSessionData: the connection is opened around a database-only step, so only a failing close is modelled. A refused connection goes unnoticed: nothing is closed, the update is made and the result is true, as any `DeviceError` gives in the model.
- Networking.MikrotikSessionManager.Run: a fault after the last call of a plan is not distinguished from no fault. A failing query is modelled like a failing command.
- Networking.MikrotikSessionManager.GetConnectedDevices: librouteros `select()` is taken to run its query at once. If the query were built lazily and run on iteration, a wireless failure could surface in the lease loop, outside its own `try`. That case is not modelled.
- Networking.TagMatchesLongerSessionId: it uses short ids to show the substring match on queue names. Session ids are `UUIDModel` keys (core/models.py:6, core/mixins.py:7), all the same length, so one session's tag falls inside another session's queue name only through the user name part.
- librouteros `where(name=...)` and `where(name__contains=...)` are taken as exact equality and substring tests. The router does no validation of its own: names, targets and limits are stored as given.
- Removing or setting an id that is not on the device changes nothing. The manager only issues ids that a query has just returned.
- The order among open pauses paused at the same instant is not fixed by the query. The model takes the one recorded later.
- Database ids are strings. The foreign key from a session to its subscription is the invariant `Linked`, which every step keeps. It is not a check the store makes.
- data_limit_mb is accepted by create_session and not used, as in the source.
- `get_session_status` and `get_user_stats` are read-only reports, so they are not modelled.
- HTTP calls to the payment gateway are not modelled, and the requests are modelled up to the point where they are posted: `requests.get`/`post`, `mpesa_response` and `save_mpesa_transaction`. `save_mpesa_transaction` is defined without `self` but called as a module function.
- RSA encryption and reading the certificate file (`encrypt_rsa`) are foreign code. The credential is kept as the certificate name plus the plaintext.
- MpesaClient.ParseStkResult works on a callback that is already parsed: `json.loads` is left out. So are a `KeyError` on a missing `Body`/`stkCallback` field, items without a `Name`, and JSON floats, lists and objects (these are one opaque value).
- MpesaClient.B2cCheck: `str()` of non-string descriptions is not modelled; the description is a string.
- MpesaUtils.FormatPhone: `str()` of non-string phone numbers is not modelled; the phone is an optional string.
- MpesaClient.StkPush: the timestamp from `datetime.now()` is a parameter.
- `MpesaAPI.__init__` reads `MPESA_CONSUMER_KEY`, `MPESA_CONSUMER_SECRET`, `MPESA_SHORTCODE` and `MPESA_PASSKEY` from the Django settings. Any of them missing raises `AttributeError`; that is not modelled. The shortcode and passkey are constructor parameters. The consumer key and secret kept on the instance are never read by the modelled operations, so they are left out.
- Only ASCII digits count for Python's isdigit, and only ASCII letters for lower(). Unicode digits, such as Arabic-Indic ones, are outside the model.
- MpesaUtils.NeedsRefresh: token age is measured in whole seconds. The microsecond part of `created_at` is not modelled.
- CoreUtils.TruncatedSeconds: the float rounding of `total_seconds()` for very long durations is not modelled. The result is exact.
- Float and Decimal arithmetic, such as `data_usage_percentage`, `formatted_price` and `formatted_data_limit`, is not modelled.
- Accounts: the user table and the uniqueness of phone numbers are not modelled. `set_password` keeps the raw password rather than a hash. The flags passed to `create_superuser` are booleans, so a truthy non-boolean is outside the model.
- SoftDelete: the soft-delete managers that filter deleted rows are not modelled (`core.managers` is not part of this model). Django's delete collector, its cascades to related rows, `TimeStampedModel` timestamps are left out too. The `uuid4` default that a keyless save fills in is the `pkDefault` parameter; its freshness is not modelled.
- Views, forms, admin registration, URLs, templates, middleware, notifications and the cache and mail helpers of `core/utils.py` are web plumbing, so they are not modelled.
