# ParPass core in Dafny

ParPass is a golf-benefit service. Health-plan members check in at golf
courses against a monthly round quota set by their plan tier. They
review the courses they have played and keep notification preferences.
Administrators send push notifications to everyone, to members matching
criteria, or to one member.

This project models the API server's core decision rules and the
push-notification service, and proves properties about them:

- `tables.dfy` (module `Tables`): the rows of the store and the monthly
  usage count `RoundsUsed`. The check-in gate, the usage endpoint and the
  `hasRoundsRemaining` filter all share that count.
- `checkin.dfy` (module `CheckIn`): the five check-in gates as a pure
  decision `CheckInOutcome`, plus quota lemmas over a series of
  attempts within one month.
- `rules.dfy` (module `Rules`): pure expressions of the server:
  - the integer recommendation score, the candidate filter and the
    reason text;
  - the member-code string;
  - the arithmetic of the final `UPDATE notification_log`.
- `targeting.dfy` (module `Targeting`): the WHERE clause `sendByCriteria`
  grows one filter at a time. It is a list of conjuncts with `$n`
  placeholders plus a parameter list. Its meaning is proved equal to a
  reference predicate `Matches` on the criteria.
- `notifications.dfy` (module `Notifications`):
  - the single send, the bulk send (a loop over chunks and, inside it,
    a loop over tickets) and the recipient queries;
  - the `notification_log` table as a class.
- `api.dfy` (module `Api`): the store as a class `ParPassDb` with members,
  courses, utilisation rows, reviews, preferences and the log. Its
  handlers are:
  - check-in, usage, review upsert;
  - preference upsert and onboarding status;
  - the broadcast, targeted and individual notification endpoints.

The code's environment becomes parameters of the model:

- The clock: `NOW()` is an integer `now`, and
  `DATE_TRUNC('month', NOW())` is an integer `monthStart`. An interval
  of n days is `n * 86400` seconds.
- The Expo push SDK is an `Expo` value carrying three oracles:
  - `isToken` for `isExpoPushToken`;
  - `chunk` for `chunkPushNotifications`;
  - `send` for `sendPushNotificationsAsync`. Each call takes its
    position, so the outcome may differ per call. The outcome is either
    thrown or a list of tickets.
- An SQL query without `ORDER BY` returns rows in a `scan` order passed
  by the caller. `ScanOrder` says the order lists every preference row
  exactly once.
- Whether a `logNotification` insert succeeds is a boolean `logStored`,
  because the database may refuse it.

Two facts about the code that the model keeps:

- Malformed push tokens are dropped before sending
  (`parpass-api/services/notifications.js:161`). They are counted neither
  as sent nor as failed.
- The tier gate refuses only a member whose tier is exactly `core` at a
  `premium` course (`parpass-api/index.js:416`). Every other tier passes
  it.

## Model

| member | source | states |
|---|---|---|
| Tables.RoundsUsedCountsMonthRows | parpass-api/index.js:330-337 | the monthly count is the number of the member's rows stamped at or after the month start |
| Tables.RoundsUsedAppend | parpass-api/index.js:419-423 | one inserted check-in raises a member's monthly count by one exactly when the row is theirs and falls in the month |
| Tables.RoundsUsedResetsAtMonthStart | parpass-api/index.js:395-400 | check-ins from before the month start never count |
| CheckIn.Rejection.HttpStatus | parpass-api/index.js:385-418 | an unknown member or course is 404; inactive, over quota and tier mismatch are 403 |
| CheckIn.TierGateRefusesOnlyCoreAtPremium | parpass-api/index.js:416-418 | the tier gate refuses exactly the pair (premium course, member tier `core`); a core course and a non-core member always pass |
| CheckIn.CheckInOutcome | parpass-api/index.js:373-434 | the first failing gate decides, in the order member, status, quota, course, tier (each one in both directions); on success the row is this member and course, holes defaulting to 18, stamped now, and `rounds_remaining = quota - used - 1 >= 0` |
| CheckIn.StepUsage | parpass-api/index.js:395-424 | an admitted check-in raises the member's usage by one, any refused one changes nothing |
| CheckIn.UsageAfterAttempts | parpass-api/index.js:395-424 | after a series of attempts in one month, usage is the usage before plus the member's admitted attempts |
| CheckIn.QuotaNeverExceeded | parpass-api/index.js:402-406 | a member within quota stays within quota whatever check-ins are attempted |
| CheckIn.NextAfterQuotaIsRefused | parpass-api/index.js:402-406 | with quota N and nothing used, after N admitted check-ins the next is refused with the monthly limit |
| CheckIn.NewMonthAdmits | parpass-api/index.js:395-406 | in a new month an active member with quota N >= 1 at a course their tier allows is admitted with N - 1 rounds left |
| Rules.RecommendationScore | parpass-api/index.js:843-859 | the score is at most 65, at least 30 for a played city, at most 35 otherwise, and only the city bonus for an unpopular course |
| Rules.ScoreMonotone | parpass-api/index.js:843-859 | more familiarity or popularity never lowers the score |
| Rules.RecommendedPassesTierGate | parpass-api/index.js:803-857 | every recommendable course passes the check-in tier gate for the member |
| Rules.RecommendationReason | parpass-api/index.js:866-884 | the reason is the first applicable of played city, popular (with the player count), premium; the generic text exactly when none applies |
| Rules.DecimalInjective | parpass-api/index.js:251 | `String(n)` is one-to-one on naturals (it reads back to n) |
| Rules.DecimalLength | parpass-api/index.js:251 | a k-digit number has a k-character decimal text |
| Rules.AsWrittenCodeFailsLogin | parpass-api/index.js:249-251 | below 899999 members the generated code has 7 characters and fails the 8-character login check |
| Rules.FirstCodeAsWritten | parpass-api/index.js:249-251 | the first member gets `PP00001` |
| Rules.MemberCode | parpass-api/index.js:278 | the corrected code starts with `PP` and has 8 characters below 899999 members |
| Rules.MemberCodeInjective | parpass-api/index.js:249-251 | distinct member counts give distinct corrected codes |
| Rules.FirstMemberCode | parpass-api/index.js:278 | the first member gets the documented `PP100001` |
| Rules.BatchFinalisation | parpass-api/index.js:1257-1261 | `recipient_count = sent + failed`; status `sent` iff nothing failed, else `partial` |
| Rules.IndividualFinalisation | parpass-api/index.js:1423-1427 | counts (1, 0) and `sent` on success, (0, 1) and `failed` otherwise |
| Targeting.Selects | parpass-api/services/notifications.js:62 | a row the WHERE clause selects always has a push token and notifications on |
| Targeting.NarrowingExcludesMore | parpass-api/services/notifications.js:67-120 | criteria that apply more filters match fewer rows; no criteria match every row |
| Targeting.SlotsBounded | parpass-api/services/notifications.js:64-120 | placeholders numbered `$1..$k` each name one of the k bound parameters |
| Targeting.SelectsMoreParams | parpass-api/services/notifications.js:64-120 | binding further parameters does not change a clause whose placeholders are already bound |
| Targeting.StepWith | parpass-api/services/notifications.js:67-120 | appending a present filter's conjunct keeps the numbering and meaning invariant |
| Targeting.StepWithout | parpass-api/services/notifications.js:67-120 | an absent filter appends nothing and keeps the invariant |
| Targeting.TierStep | parpass-api/services/notifications.js:67-72 | a truthy tier appends `pt.name = $n` with the next number and one parameter |
| Targeting.SkillLevelStep | parpass-api/services/notifications.js:74-79 | a truthy skill level appends its equality conjunct and one parameter |
| Targeting.PlayFrequencyStep | parpass-api/services/notifications.js:81-86 | a truthy play frequency appends its equality conjunct and one parameter |
| Targeting.InactiveDaysStep | parpass-api/services/notifications.js:88-94 | a truthy `inactiveDays` excludes members with a check-in in the trailing N days and binds no parameter |
| Targeting.ActiveDaysStep | parpass-api/services/notifications.js:96-102 | a truthy `activeDays` requires a check-in in the trailing N days and binds no parameter |
| Targeting.RoundsRemainingStep | parpass-api/services/notifications.js:104-113 | `hasRoundsRemaining` requires quota minus this month's count above 0 and binds no parameter |
| Targeting.GoalsStep | parpass-api/services/notifications.js:115-120 | a non-empty goals list requires a shared goal and binds one array parameter |
| Targeting.BuildCriteriaQuery | parpass-api/services/notifications.js:55-120 | the built clause has placeholders exactly `$1..$k`, k is the number of parameter-binding filters present, and it selects exactly the reachable rows matching the criteria |
| Notifications.SendNotification | parpass-api/services/notifications.js:132-154 | invalid token iff the SDK rejects it (no send); success iff the send resolves, with its first ticket; a thrown send gives its message |
| Notifications.SendToMember | parpass-api/services/notifications.js:10-23 | `no_token` iff the member has no row with a token and notifications on; otherwise the single send to that token |
| Notifications.SingleRequests | parpass-api/services/notifications.js:132-154 | the provider is called with no batch exactly when the token is rejected; otherwise with one one-message batch, and the send succeeds iff that call resolves |
| Notifications.MemberRequests | parpass-api/services/notifications.js:10-23 | `sendToMember` calls the provider with no batch exactly on `no_token` or `invalid_token`; otherwise with the one message to the member's token |
| Notifications.ValidTokensMembers | parpass-api/services/notifications.js:161 | the filter keeps exactly the tokens the SDK accepts |
| Notifications.ValidTokensIdempotent | parpass-api/services/notifications.js:161 | filtering twice drops nothing more |
| Notifications.NoValidToken | parpass-api/services/notifications.js:161-166 | a list of malformed tokens filters to nothing |
| Notifications.Bulk | parpass-api/services/notifications.js:159-200 | the bulk result is always a success, and carries no tickets and zero counts exactly when no token is valid |
| Notifications.SendBulkNotifications | parpass-api/services/notifications.js:159-200 | the loop over chunks and tickets yields the bulk result, and its provider calls are exactly the chunks of the valid messages |
| Notifications.CountedOver | parpass-api/services/notifications.js:183-196 | with one ticket per message, each chunk adds its length to `sent + failed` |
| Notifications.BulkCountsEachValidTokenOnce | parpass-api/services/notifications.js:178-199 | when chunks reassemble the messages and each answered call has one ticket per message, `sent + failed` equals the number of valid tokens |
| Notifications.InvalidTokensIgnored | parpass-api/services/notifications.js:161 | a bulk send to a list is the bulk send to its valid tokens, with the same provider calls |
| Notifications.NothingToSend | parpass-api/services/notifications.js:161-166 | with no valid token there is no provider call and the result is `{success: true, sent: 0, failed: 0}` |
| Notifications.ErrorTicketSingleVersusBulk | parpass-api/services/notifications.js:147-149 | an `error` ticket is a success for the single send but a failure for the bulk send |
| Notifications.ReachableTokens | parpass-api/services/notifications.js:42-47 | every broadcast token belongs to a row with a token and notifications on, and every such row's token is included |
| Notifications.ReachableTokensOf | parpass-api/services/notifications.js:28-33 | every token belongs to a listed member's row with a token and notifications on, and every such row's token is included |
| Notifications.RunQueryMeansCriteria | parpass-api/services/notifications.js:122-123 | a clause meaning the criteria returns exactly the reference recipients, in scan order |
| Notifications.TargetingNarrows | parpass-api/services/notifications.js:56-120 | targeted recipients are among the broadcast recipients, and more filters never add one |
| Notifications.NoCriteriaIsBroadcast | parpass-api/services/notifications.js:41-63 | with no filter a targeted send reaches exactly the broadcast recipients of the joined rows |
| Notifications.SendToAllMembers | parpass-api/services/notifications.js:41-50 | the broadcast is the bulk send to every reachable preference row |
| Notifications.SendToMembers | parpass-api/services/notifications.js:28-36 | the bulk send, and its provider calls, over exactly the tokens of the listed members' reachable rows (`ReachableTokensOf`) |
| Notifications.SendByCriteria | parpass-api/services/notifications.js:55-127 | the targeted send is the bulk send to the reference recipients of the criteria |
| Notifications.Apply | parpass-api/index.js:1257-1261 | finalising sets the counts and status and keeps id, kind, title, body and criteria; an individual send keeps the recipient count |
| Notifications.FinaliseRows | parpass-api/index.js:1257-1261 | the UPDATE changes exactly the rows whose id equals the key |
| Notifications.FinaliseWithoutIdChangesNothing | parpass-api/index.js:1257-1261 | an UPDATE keyed by an absent id changes no row |
| Notifications.FinaliseWithIdSettles | parpass-api/index.js:1257-1261 | an UPDATE keyed by a row's serial id finalises that row and no other |
| Notifications.NotificationLog.LogNotification | parpass-api/services/notifications.js:205-214 | one row appended with the next serial id when the insert succeeds, nothing otherwise, and no value returned |
| Notifications.NotificationLog.RecordNotification | parpass-api/services/notifications.js:205-214 | the corrected insert also returns the new row's id, or none when it failed |
| Notifications.NotificationLog.Finalise | parpass-api/index.js:1257-1261 | the log after the UPDATE is the finalised rows |
| Api.StoredComment | parpass-api/index.js:994 | an absent or empty comment is stored as NULL |
| Api.MergePreferences | parpass-api/index.js:1137-1160 | given fields replace; absent ones keep the stored value, or are NULL on a first insert; onboarding is stamped on first write and never moved |
| Api.MergeIdempotent | parpass-api/index.js:1149-1159 | repeating an update changes nothing |
| Api.EmptyUpdateKeepsRow | parpass-api/index.js:1149-1159 | an all-null update leaves an onboarded row as it was |
| Api.UpsertCompletesOnboarding | parpass-api/index.js:1159 | after any upsert the member has completed onboarding, and a later upsert keeps the timestamp |
| Api.PlayedKept | parpass-api/index.js:419-423 | inserting a check-in keeps every played pair played |
| Api.FinaliseLast | parpass-api/index.js:1257-1261 | keyed by the id just inserted, the UPDATE settles only the last row |
| Api.ParPassDb.CheckIn | parpass-api/index.js:373-434 | the handler's response is the gate decision, a success appends exactly its row and a refusal changes nothing |
| Api.ParPassDb.Usage | parpass-api/index.js:327-342 | the usage is the number of the member's rows in the month |
| Api.ParPassDb.SubmitReview | parpass-api/index.js:966-1001 | 400 iff the rating is falsy or outside 1..5; 403 iff valid but not played; saved iff valid and played, in which case the (member, course) review is inserted or overwritten with the rating, the stored comment and now |
| Api.ParPassDb.UpsertPreferences | parpass-api/index.js:1117-1168 | 404 iff the member is unknown; otherwise the member's row becomes the merged row |
| Api.ParPassDb.OnboardingStatus | parpass-api/index.js:1186-1200 | in a valid store (every preference row carries the timestamp the upsert stamps), onboarding is complete iff the member has saved preferences |
| Api.ParPassDb.Broadcast | parpass-api/index.js:1234-1272 | 400 with no send unless title and body; otherwise the bulk send to reachable rows, and the log gains one row that stays `pending` |
| Api.ParPassDb.BroadcastRecorded | parpass-api/index.js:1234-1272 | with the insert's id used by the UPDATE, the log row ends with the totals and status |
| Api.ParPassDb.Targeted | parpass-api/index.js:1326-1365 | 400 with no send unless title, body and criteria; otherwise the targeted send, and the log row stays `pending` |
| Api.ParPassDb.Individual | parpass-api/index.js:1399-1434 | 400 and no provider call unless title and body; otherwise the `sendToMember` result and its provider calls (`MemberRequests`), and the log row (one recipient) stays `pending` |
| Api.ParPassDb.PreferenceRows | parpass-api/services/notifications.js:42-45 | the rows the broadcast query scans are exactly the stored preference rows of the scanned members |
| Api.ParPassDb.JoinedRowsMembers | parpass-api/services/notifications.js:56-62 | each joined row pairs a member with their own preference row, and every member with both appears |

## Left out

- Express routing, CORS, Swagger and the `db` module are not modelled. The store is in-memory state, and a failing database query (the 500 paths) is not modelled, except for the insert that `logNotification` catches.
- SQL aggregates over floating-point values are not modelled: average ratings and the statistics endpoints.
- The cluster-based recommendations (parpass-api/index.js:1698-1850) are not modelled. They order by `RANDOM()` and splice values into SQL.
- The recommendation endpoint is modelled only as its per-course score, filter and reason. Its `ORDER BY score DESC, total_plays DESC LIMIT 5` and the aggregation of `total_plays` and `unique_players` are not.
- Enrolment (`POST /api/members`) is modelled only as its code string (`Rules`). The member count is a parameter and no row is inserted.
- Check-in is one atomic step. The count-then-insert race between concurrent requests is not modelled.
- `holes_played: null` is not modelled. The JavaScript default applies only to an absent field, and the model has only "absent" and "given".
- A non-numeric rating and a non-integer `inactiveDays`/`activeDays` are not modelled. Values are integers; `parseInt` producing `NaN` would make the SQL fail.
- The message `data` object is a string map, and a push ticket carries only its status.
- The Expo SDK internals (token format, the 100-message chunk size, the network) are not modelled. `Notifications.BulkCountsEachValidTokenOnce` states as its hypotheses what it needs of the oracles.
- The console logging is not modelled.
- `getMemberNotifications`, `getUnreadCount` and `markNotificationRead` are not modelled. They are called at parpass-api/index.js:1535, 1562 and 1589, but the service module neither defines nor exports them.
- The extra `logId` argument the endpoints pass to `sendToAllMembers`, `sendByCriteria` and `sendToMember` is not modelled, because those functions ignore it.
- parpass-data/member_clustering.py is not part of this model: it is KMeans and floating-point clustering.
- The parpass-mobile screens are not part of this model. The only rule used from them is the 8-character code check at parpass-mobile/app/index.tsx:59.

## Findings

| source | as written | input that shows it | evidently intended | confidence | as-written member | corrected member |
|---|---|---|---|---|---|---|
| parpass-api/index.js:251 | the code is `PP` + `String(100000 + count).slice(1)`, which drops the leading `1` and leaves 7 characters | no members yet: the code is `PP00001`, and the login screen refuses it for not having 8 characters | `PP` + `String(100000 + count)`, e.g. the documented `PP100001` (parpass-api/index.js:278) | not executed | Rules.AsWrittenCodeFailsLogin | Rules.MemberCode |
| parpass-api/index.js:1257-1261 | `logNotification` returns nothing, so `logId` is `undefined` and `UPDATE ... WHERE id = $5` matches no row (the same holds at 1349-1353 and 1423-1427) | any broadcast with a title and a body: its log row keeps status `pending` and counts 0 | the insert returns its id and the UPDATE finalises that row | not executed | Api.ParPassDb.Broadcast | Api.ParPassDb.BroadcastRecorded |
