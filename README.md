# Baggage record engine — a Dafny model

This project models the record-handling core of the SGS lost-baggage
application. The core has five parts:

- **WorldTracer gateway.** It reads the integration config on every call.
  With the link off it serves a local simulation. With the link on it sends
  a secured request, and a failure of that request (a transport error, a
  timeout, a non-2xx answer) falls back to the simulation. It also
  keeps a module-level fallback cache, and the reverse sync updates that
  cache in place.
- **Staff report view.** It holds the security handover protocol: a
  readiness check, the update that moves a record to Delivered, and the
  Security audit entry. It also holds the manual status select.
- **Passenger self-service view.** It covers identification, the pool of
  bags found and awaiting claim, and description filtering with its
  fallback to the whole pool. It also covers the self-claim, with its update
  and audit entry, and the status notifications.
- **Dwell-time badge.** It computes elapsed hours and minutes and
  classifies them into three SLA bands.
- **Management console.** It shows the dashboard counts and KPIs and the
  Security-only audit view. It also validates new users and holds the
  gateway link switch.

Module layout:

- `Text` and `Collections` state once the JavaScript behaviour the core
  relies on: `toUpperCase`, `trim`, `includes`, `filter`, `find`,
  `findIndex` and `Number.toString`.
- `Records` holds the baggage record. `Partial<BaggageRecord>` is modelled
  as a `Patch` with one `Option` per field. It also holds the shallow merge
  `{ ...record, ...updates }`, the case-insensitive keyed update of a
  record list, and audit entries.
- `WorldTracer` holds the gateway, as the class `Gateway` over a
  `seq<Record>` cache.
- `Contexts` holds the two application contexts the views write through.
  Their implementation is not part of this model. The class `Contexts`
  stands for them:
  - a record store that is updated by the same keyed shallow merge as the
    gateway cache;
  - an append-only audit log;
  - an append-only staff roster;
  - the integration config.

  A ghost `calls` trace records every write in order, so the order of a
  handler's store update and audit append can be stated.
- `ReportDetail`, `Passenger`, `BaggageTimer` and `Management` follow the
  four view files. Component state is modelled as a class, with one method
  per handler. Each handler is modelled as one sequential step.

Modelling choices:

- Clocks (`Date.now()`, ISO timestamps) are integer milliseconds passed in
  as parameters.
- The stored config is an input. So is the outcome of the network call
  (`Transport`: a transport failure, or a response with its delay, `ok`
  flag and parsed body).
- The assistant service's answers (record lookup, description matcher, chat
  reply, greeting) are inputs. Each may have failed (`Oracle`).
- Integer rounding replaces the floating-point formulas:
  - `Math.round((p / t) * 100)` is `(200p + t) / (2t)`;
  - `h >= 0.75 * limit` is `4h >= 3 limit`;
  - `Math.floor` of a quotient by a positive divisor is Dafny's `/`;
  - JavaScript's truncating `%` is written out as `JsRemainder`.

Where the code and the design description differ, the model follows the
code:

- The manual status select writes only Status and LastUpdate. It writes no
  history slot and no audit entry, and it does not refuse to leave
  Delivered (`ReportDetail.ReportDetailModal.SelectStatus`,
  `ReportDetail.ManualStatusEffect`).
- The self-claim appends its audit entry *before* the store update. The
  staff handover makes the update first
  (`Passenger.PassengerSession.SelectMatch`,
  `ReportDetail.ReportDetailModal.CompleteHandover`).
- Every transition overwrites history slot 1. The slots are never shifted.
- `findBaggageByQuery` accepts a live answer only when it has a non-empty
  lower-case `pir` member. Its cache fallback ignores the query type.
- Applying the same keyed update twice is not always the same as applying
  it once. It is when the update does not change the key, or when the keys
  are unique. `Records.RenameTwiceReachesSecondRecord` exhibits a rename
  applied to a list holding the same PIR twice.

## Model

| member | source | states |
|---|---|---|
| WorldTracer.IntegrationConfig | services/worldTracerService.ts:36-50 | A parsed stored config is used as it is. Otherwise the link is off with station JED, agent SGS_SYS, airline SV and no key. The base URL is the default one when nothing is stored and empty when the stored value cannot be read. |
| WorldTracer.SecureHeaders | services/worldTracerService.ts:76-84 | The seven outbound headers: JSON content type and accept, `Bearer <apiKey>`, the agent, station and airline codes, and `SGS-<now>` as request id. |
| WorldTracer.BuildRequest | services/worldTracerService.ts:76-90 | The live request: the base URL followed by the endpoint, the verb, the secure headers, the payload and the 10000 ms abort. |
| WorldTracer.HeadersCarryConfig | services/worldTracerService.ts:76-84 | The outbound headers carry `Bearer <apiKey>`, the agent, station and airline codes of the config read on that call, and `SGS-<now>` as request id. |
| WorldTracer.RequestIdsDiffer | services/worldTracerService.ts:83 | Calls made at different milliseconds carry different request ids, whatever their configs. |
| WorldTracer.SimulateRequest | services/worldTracerService.ts:55-59 | The simulation answers with a wrapper. It is never a bare array and never a record with a `pir` member. |
| WorldTracer.FindIndex | services/worldTracerService.ts:139 | The loop returns the first index whose PIR matches ignoring case, or -1 exactly when none does. |
| WorldTracer.Gateway.constructor | services/worldTracerService.ts:13-34 | The cache starts as the given records. |
| WorldTracer.Gateway.ExecuteSecureRequest | services/worldTracerService.ts:64-111 | With the link off nothing is sent and the simulation answers. With it on, the request built from the config is sent. The caller gets the parsed body only for a 2xx answer that arrives before the 10000 ms abort; every other outcome gives the simulation. |
| WorldTracer.Gateway.FetchGlobalReports | services/worldTracerService.ts:113-117 | The result is the live array when the live call answered with one. In every other case it is the cache, and always the cache with the link off. |
| WorldTracer.Gateway.FindBaggageByQuery | services/worldTracerService.ts:119-129 | A live record object with a non-empty `pir` member is returned. Otherwise the result is the first cached record whose upper-cased PIR equals the trimmed, upper-cased query, or none; the type plays no part. |
| WorldTracer.Gateway.FindBaggageByPir | services/worldTracerService.ts:146 | It is the PIR lookup of `findBaggageByQuery`. A live record object with a non-empty `pir` member is returned. Otherwise, and always with the link off, the result is the first cached record whose upper-cased PIR equals the trimmed, upper-cased PIR. A miss means no cached PIR matches. |
| WorldTracer.Gateway.UpdateGlobalRecord | services/worldTracerService.ts:134-144 | The cache becomes the keyed update of the old cache. A PATCH carrying the updates is sent exactly when the link is on. |
| Records.UpdateFirst | services/worldTracerService.ts:139-143 | The length is kept. Only the first record whose PIR matches ignoring case becomes the merge with the update; every other entry is unchanged, and with no match the list is unchanged. |
| Records.Merge | services/worldTracerService.ts:141 | The shallow merge `{ ...record, ...updates }`: every field the update carries replaces the record's and every other field is kept. |
| Records.IsConfirmedFlag | components/ManagementView.tsx:340 | A confirmation flag counts as confirmed exactly when it is the boolean `true` or the text `TRUE`. |
| Records.MergeKeep | services/worldTracerService.ts:141 | Merging the empty update changes nothing. |
| Records.MergeIdempotent | services/worldTracerService.ts:141 | Merging the same update twice equals merging it once. |
| Records.MergeThen | services/worldTracerService.ts:141 | Two merges in a row equal one merge of the combined update in which the later one wins. |
| Records.UpdateFirstIdempotent | services/worldTracerService.ts:139-143 | Applying the same keyed update twice gives the same list as applying it once, when the update keeps the key or the keys are unique. |
| Records.RenameTwiceReachesSecondRecord | services/worldTracerService.ts:139-141 | A PIR-changing update applied twice to a list holding the same PIR twice changes a second record, so the idempotence needs its condition. |
| Text.Upper | services/worldTracerService.ts:122 | Upper-casing keeps the length and maps every character through the letter mapping. |
| Text.TrimStart | services/worldTracerService.ts:122 | The result is a suffix that starts with no white space, and everything dropped is white space. |
| Text.TrimEnd | services/worldTracerService.ts:122 | The result is a prefix that ends with no white space, and everything dropped is white space. |
| Text.TrimEmptyIffBlank | components/PassengerView.tsx:331 | A text trims to nothing exactly when every character of it is white space. |
| Text.Utf16Length | components/ReportDetailModal.tsx:52 | `length` counts UTF-16 code units: between the number of characters and twice it, equal to it over the Basic Multilingual Plane and twice it above. |
| Text.AstralCharactersCountTwice | components/PassengerView.tsx:419 | Three gift emoji are three characters but have `length` 6. |
| Text.ConcatContainsPart | components/ReportDetailModal.tsx:215 | Every piece of a template literal, each interpolated value among them, occurs in the text it builds. |
| Text.NatToString | services/worldTracerService.ts:83 | A clock value renders in the canonical decimal form of `toString`: non-empty, all digits, and starting with `0` only for zero, so with no leading zeros. |
| Text.DecimalRoundTrip | components/ManagementView.tsx:159 | Reading the rendered digits back gives the clock value. |
| Text.NatToStringInjective | components/PassengerView.tsx:290 | Distinct clock values render differently. |
| Collections.FilterSpec | components/ManagementView.tsx:254 | `filter` keeps, in order, exactly the elements that pass, each as many times as it occurs. |
| Collections.FilterAppend | components/ManagementView.tsx:254 | An element appended to the list is appended to its filtered list exactly when it passes. |
| Collections.Count | components/ManagementView.tsx:327 | A `filter(...).length` count is at most the length. |
| Collections.CountDisjoint | components/ManagementView.tsx:327-333 | Counts of two conditions that never hold together add up to at most the length. |
| Collections.CountComplement | components/ManagementView.tsx:344 | The counts of a condition and of its negation add up to the length. |
| Collections.FirstIndex | services/worldTracerService.ts:139 | `findIndex` gives the first position that passes, or -1 exactly when none does. |
| Collections.Find | services/worldTracerService.ts:128 | `find` gives the first element that passes, or nothing exactly when none does. |
| Contexts.Contexts.constructor | components/ReportDetailModal.tsx:163-164 | The contexts start with the given records, data source and config, and with an empty log, roster and trace. |
| Contexts.Contexts.UpdateBaggageRecord | components/ReportDetailModal.tsx:208-216 | The store becomes its keyed update and the write is traced. The log, the roster, the config and the data source are kept. |
| Contexts.Contexts.AddAuditLog | components/ReportDetailModal.tsx:219-225 | Exactly the entry is appended to the log and the write is traced. Everything else is kept. |
| Contexts.Contexts.AddUser | components/ManagementView.tsx:158-165 | Exactly the user is appended to the roster and the write is traced. Everything else is kept. |
| Contexts.Contexts.UpdateWtConfig | components/ManagementView.tsx:131 | The config is replaced and the write is traced. Everything else is kept. |
| ReportDetail.ReadinessThresholds | components/ReportDetailModal.tsx:52 | The form is ready exactly when name, id number and contents have a `length` of at least 6 UTF-16 code units and the phone at least 9. The id type and marks play no part, and the empty form is not ready. |
| ReportDetail.IsReady | components/ReportDetailModal.tsx:52 | The handover form is ready when name, id number and contents have a `length` above 5 and the phone above 8, counted in UTF-16 code units. |
| ReportDetail.EmojiContentsAreReady | components/ReportDetailModal.tsx:52 | A form whose contents are three emoji, with the other fields long enough, is ready. |
| ReportDetail.HandoverDetailsMention | components/ReportDetailModal.tsx:215 | The handover history text names the recipient, the id type and number, the phone and the contents. |
| ReportDetail.HandoverPatchEffect | components/ReportDetailModal.tsx:208-216 | The record the update lands on becomes Delivered and confirmed at `now`. Slot 1 holds the handover at the viewed record's location, and every other field, slots 2 and 3 included, is kept. |
| ReportDetail.HandoverPatch | components/ReportDetailModal.tsx:208-216 | The handover update: Delivered, confirmed, updated at `now`, and slot 1 stamped `now` with the handover event at the record's location and the recipient's details. |
| ReportDetail.HandoverAuditMentions | components/ReportDetailModal.tsx:219-225 | The audit entry is a successful Security entry by `SGS Operation Officer` that names the PIR, the recipient and the id number. |
| ReportDetail.HandoverAudit | components/ReportDetailModal.tsx:219-225 | The handover audit entry: by `SGS Operation Officer`, in Security, successful, with details naming the PIR, the recipient and the id number. |
| ReportDetail.StatusSelectIsComplete | components/ReportDetailModal.tsx:235-238 | The select offers every status exactly once, and distinct statuses have distinct labels. |
| ReportDetail.StatusText | components/ReportDetailModal.tsx:235-238 | The label shown for each of the seven statuses. |
| ReportDetail.RecordFromContext | components/ReportDetailModal.tsx:174-176 | The result is the first stored record whose PIR matches the report's ignoring case. None means none matches. |
| ReportDetail.ReportDetailModal.constructor | components/ReportDetailModal.tsx:165-169 | The view starts loading, with no record, the protocol closed and the report's status. |
| ReportDetail.ReportDetailModal.CanHandover | components/ReportDetailModal.tsx:249-250 | The handover is offered exactly while the shown status is not Delivered. |
| ReportDetail.ReportDetailModal.LoadDetails | components/ReportDetailModal.tsx:178-190 | Spreadsheet data is looked up in the store. Live data goes through the gateway: the live record when the link is on and the answer is a record with a `pir` member, and the case-insensitive cache lookup otherwise. A found record is shown and its status adopted, and loading ends either way. |
| ReportDetail.ReportDetailModal.StartHandover | components/ReportDetailModal.tsx:257-261 | The protocol opens only while the handover is offered. |
| ReportDetail.ReportDetailModal.CancelHandover | components/ReportDetailModal.tsx:233 | The protocol closes and nothing else changes. |
| ReportDetail.ReportDetailModal.CompleteHandover | components/ReportDetailModal.tsx:202-231 | Without a loaded record nothing changes. Otherwise the store update to Delivered comes first and then exactly one Security audit entry. The view then shows Delivered, closes the protocol and closes. |
| ReportDetail.ReportDetailModal.ClickComplete | components/ReportDetailModal.tsx:144-146 | A click changes nothing unless the protocol is open, the handover offered and the form ready, and nothing without a loaded record. An enabled click with a record makes the store update to Delivered and then the Security audit entry. The view then shows Delivered, closes the protocol and closes, and keeps the record and the loading flag. The roster, config and data source are kept. Once Delivered is shown a click changes nothing, so no second entry is logged. |
| ReportDetail.ReportDetailModal.SelectStatus | components/ReportDetailModal.tsx:325-334 | While the protocol is open nothing changes. While it is closed, the view adopts the status and the store gets Status and LastUpdate for the report's PIR as the only write. No audit entry is made. The record, the protocol, loading and closed flags, the roster, config and data source are kept. |
| ReportDetail.ManualStatusEffect | components/ReportDetailModal.tsx:333 | The manual update changes Status and LastUpdate and nothing else. History is kept, and Delivered can be left. |
| Passenger.DisplayId | components/PassengerView.tsx:313 | The displayed id is the text before the first `\|`, or the whole id when it has none. |
| Passenger.SubmittedIdentifier | components/PassengerView.tsx:123-130 | Flight identification submits the flight number and the last name joined by `\|`; every other type submits the identifier as typed. |
| Passenger.DisplayIdRecoversIdentifier | components/PassengerView.tsx:123-130 | For every id type the displayed id is the identifier typed, when that holds no `\|`. For flight ids the text after the bar is the last name. |
| Passenger.FoundPool | components/PassengerView.tsx:309 | The pool is the in-order subsequence of store records that are Found - Awaiting Claim. |
| Passenger.ClaimReadinessMatchesHandover | components/PassengerView.tsx:419 | The claim form is ready under exactly the handover form's thresholds: a `length` of 6, 6, 9 and 6 UTF-16 code units. |
| Passenger.IsSecurityFormReady | components/PassengerView.tsx:419 | The claim form is ready when name, id number and contents have a `length` above 5 and the phone above 8, counted in UTF-16 code units. |
| Passenger.ClaimPatchEffect | components/PassengerView.tsx:373-382 | The record the claim lands on becomes confirmed and In Progress at `now`. Slot 1 is stamped `now` at the bag's location, and nothing but these fields and the next step changes. |
| Passenger.ClaimPatch | components/PassengerView.tsx:373-382 | The self-claim update: confirmed, In Progress, updated at `now`, the pick-up step at the bag's location, and slot 1 stamped `now` with the confirmation event at that location and the recipient's details. |
| Passenger.ClaimTextsMention | components/PassengerView.tsx:369-381 | The next step names the bag's location. The slot-1 details name the recipient and the id number. |
| Passenger.ClaimAuditFacts | components/PassengerView.tsx:385-391 | The audit entry is a successful Security entry naming the PIR and the recipient. Its user is the recipient, or `Passenger (Self-service)` when no name was given. |
| Passenger.ClaimAudit | components/PassengerView.tsx:385-391 | The self-claim audit entry: by the recipient, or `Passenger (Self-service)` for an empty name, in Security, successful, with details naming the PIR and the recipient. |
| Passenger.ClaimedInfo | components/PassengerView.tsx:394-397 | The info shown after a claim names the claimed PIR and location, In Progress, confirmed, with the pick-up instruction as next step. |
| Passenger.KindOf | components/PassengerView.tsx:295 | Success exactly for Delivered, urgent exactly for Urgent, info otherwise. |
| Passenger.NoticeFor | components/PassengerView.tsx:288-296 | The status notification: its id is the clock value as a string, its text the delivered message or the status-change message naming the PIR and status, and its kind `KindOf` the status. |
| Passenger.ActiveRecord | components/PassengerView.tsx:280-283 | The active record is the first stored record whose PIR equals the authenticated PIR exactly. None means there is no authenticated PIR, it is empty, or no record has it. |
| Passenger.GalleryTitle | components/PassengerView.tsx:413-417 | `getGalleryTitle`: the filtering heading with the query while a filter runs, the warehouse heading when as many bags are displayed as the pool holds, and the found-gallery heading otherwise. What it gives after a filter turn is stated by `Respond` and `SendMessage`. |
| Passenger.DismissRemovesExactly | components/PassengerView.tsx:409-411 | Dismissing keeps, in order, exactly the notifications with another id. |
| Passenger.PassengerSession.constructor | components/PassengerView.tsx:254-268 | The session starts unauthenticated with empty chat, notifications, pool and matches, and no preview. |
| Passenger.PassengerSession.Identify | components/PassengerView.tsx:303-328 | A failed lookup changes only the authenticated flag. Otherwise the pool is set. With no record, the pool is displayed with a not-found message naming the displayed id. With a record, its PIR is authenticated, its info shown and nothing displayed. |
| Passenger.PassengerSession.Respond | components/PassengerView.tsx:336-355 | Before a record is known and with a non-empty pool, the text filters the pool. The matches are displayed, or the whole pool when there are none; a failing matcher leaves the filter running. The gallery heading then names the query after a failure, the warehouse after no match or a match of the whole pool's size, and the found bags otherwise. With a record the assistant's answer is relayed, and otherwise the user is asked to identify. |
| Passenger.PassengerSession.SendMessage | components/PassengerView.tsx:330-364 | A blank text is ignored and nothing changes. Any other text is added to the chat followed by the bot's answer, with the filter effects and gallery heading of `Respond`. |
| Passenger.PassengerSession.Preview | components/PassengerView.tsx:467 | The card's record is previewed. |
| Passenger.PassengerSession.OpenSecurityForm | components/PassengerView.tsx:500 | The security form is shown. |
| Passenger.PassengerSession.CloseModal | components/PassengerView.tsx:422-425 | The preview and the security form are closed. |
| Passenger.PassengerSession.EditSecurityData | components/PassengerView.tsx:517-558 | The form holds the typed data. |
| Passenger.PassengerSession.WriteClaim | components/PassengerView.tsx:385-393 | The audit entry is appended first and the store update made after it. Nothing else in the contexts changes. |
| Passenger.PassengerSession.SelectMatch | components/PassengerView.tsx:366-407 | The Security entry is appended and then the claim update made. The claimed PIR is authenticated and its info shown as claimed. The chat gets the claim and the greeting, and the pool, matches and preview are cleared. |
| Passenger.PassengerSession.ShowClaimed | components/PassengerView.tsx:394-406 | The session side of a claim: PIR, info and chat are set and the pool, matches and preview cleared. |
| Passenger.PassengerSession.ClickClaim | components/PassengerView.tsx:569-571 | Without an open preview whose security form is shown and ready, nothing changes. Otherwise the Security entry for the previewed bag is appended and then its claim update made. The bag's PIR is authenticated and its info shown as claimed, In Progress with the pick-up step. The chat gets the claim and the greeting, and the pool, matches, preview and form are cleared. The roster, config and data source are kept. |
| Passenger.PassengerSession.SyncStatus | components/PassengerView.tsx:285-301 | When the shown status differs from the active record's, exactly one notification is prepended and the info refreshed. Afterwards the statuses agree. |
| Passenger.PassengerSession.DismissNotification | components/PassengerView.tsx:409-411 | The notifications become those with another id. |
| BaggageTimer.JsRemainder | components/common/BaggageTimer.tsx:25 | The truncating `%` satisfies the division identity with a remainder of the dividend's sign and smaller than the divisor. |
| BaggageTimer.ElapsedSeconds | components/common/BaggageTimer.tsx:14-16 | The elapsed whole seconds, the millisecond difference divided by 1000 and rounded down. |
| BaggageTimer.Hours | components/common/BaggageTimer.tsx:24 | The whole hours, the elapsed seconds divided by 3600 and rounded down. |
| BaggageTimer.Minutes | components/common/BaggageTimer.tsx:25 | The minutes past the hour, the truncating remainder by 3600 divided by 60 and rounded down. |
| BaggageTimer.Classify | components/common/BaggageTimer.tsx:27-39 | The band: breach from the limit on, warning from three quarters of it, nominal below. |
| BaggageTimer.WarningIsThreeQuarters | components/common/BaggageTimer.tsx:28 | The cross-multiplied test is exactly `hours >= 0.75 * limit`. |
| BaggageTimer.TimeFieldsDecompose | components/common/BaggageTimer.tsx:24-25 | For a past start, minutes lie in 0..59 and hours and minutes account for the elapsed seconds to the minute. |
| BaggageTimer.NegativeElapsedFields | components/common/BaggageTimer.tsx:24-25 | For a start in the future, hours are negative and minutes lie in -60..0. |
| BaggageTimer.HoursFromMilliseconds | components/common/BaggageTimer.tsx:14-24 | The badge's whole hours are the elapsed milliseconds divided by one hour, rounded down. |
| BaggageTimer.BreachImpliesWarning | components/common/BaggageTimer.tsx:27-28 | With a non-negative limit a breach is also a warning. |
| BaggageTimer.BandMonotone | components/common/BaggageTimer.tsx:33-39 | The band never drops as the hours grow, whatever the limit. |
| BaggageTimer.DefaultLimitBands | components/common/BaggageTimer.tsx:9-39 | Under the default 24 h limit: nominal up to 17 h, a warning from 18 to 23 h and a breach from 24 h. 17 h 59 min is nominal. |
| Management.RoundedPercentSpec | components/ManagementView.tsx:337 | The exact rounding is the nearest integer to `100p/t` with halves rounded up, and lies in 0..100 for a part of the total. |
| Management.RoundedPercent | components/ManagementView.tsx:337 | `Math.round((p / t) * 100)` in exact arithmetic, halves rounded up. |
| Management.ShownSatisfaction | components/ManagementView.tsx:359 | The shown value is the rate raised to at least 0. |
| Management.ComputeStats | components/ManagementView.tsx:322-362 | The dashboard: the total, urgent, at-risk, delivered and confirmed counts, compliance, accuracy and prevention as rounded percentages, and the satisfaction formula; 100 for all four rates on an empty store. |
| Management.IsAtRisk | components/ManagementView.tsx:330 | A record is at risk when it is not Delivered and at least 18 hours have passed since its last update. |
| Management.StatsCountsBounded | components/ManagementView.tsx:323-340 | Every count is at most the total. Urgent plus delivered, and at-risk plus delivered, are at most the total. |
| Management.KpiBounds | components/ManagementView.tsx:335-359 | Compliance, accuracy and prevention lie in 0..100. The satisfaction rate lies in -50..100 and the shown value in 0..100. An empty store shows 100 for all four. |
| Management.PreventionIsNonUrgentShare | components/ManagementView.tsx:344 | For a non-empty store the prevention rate is the rounded percentage of records that are not urgent. |
| Management.SatisfactionBounds | components/ManagementView.tsx:348 | The satisfaction formula stays in -50..100 when neither count exceeds the total. |
| Management.AtRiskIsTimerWarning | components/ManagementView.tsx:330 | A record is at risk exactly when it is not delivered and the badge under the default limit would not show it nominal. |
| Management.SecurityLogs | components/ManagementView.tsx:253-255 | The view shows, in log order, exactly the Security entries. |
| Management.SecurityLogsKeepAppended | components/ManagementView.tsx:253-255 | A Security entry appended to the log is appended to the view. |
| Management.ToggleInvolution | components/ManagementView.tsx:131 | One switch flips the link flag and keeps the rest, and two switches restore the config. |
| Management.Toggled | components/ManagementView.tsx:131 | The config with the link flag flipped. |
| Management.ToggleConnection | components/ManagementView.tsx:131 | The config becomes the switched one and only that write is made. |
| Management.UserFromForm | components/ManagementView.tsx:158-165 | The new user is active, with the form's name, number, role and title, and an id whose digits read back as the clock value. |
| Management.CanAdd | components/ManagementView.tsx:153 | The form can be saved when name, employee number and job title are all non-empty. |
| Management.UserManagement.constructor | components/ManagementView.tsx:144-150 | The form starts closed and empty with role Staff. |
| Management.UserManagement.ToggleForm | components/ManagementView.tsx:182 | The button flips the form open or closed. |
| Management.UserManagement.EditForm | components/ManagementView.tsx:194-206 | The form holds the typed values. |
| Management.UserManagement.HandleAdd | components/ManagementView.tsx:152-170 | An incomplete form is refused and nothing changes. Otherwise exactly one active user is added, the form is reset and closed, and the records, log and config are kept. |
| Management.UserManagement.ClickSave | components/ManagementView.tsx:189-214 | With the form closed there is no Save button and nothing changes. With it open the press is `handleAdd`: a user is added exactly when the form is complete. |

## Left out

- Rendering, styling, icons, alerts, photos and image comparison. `BaggagePhotoUrl` and `PassengerPhotoUrl` are not fields of the record.
- The localized chat texts. A message holds a `Says` value naming which text it shows and its arguments. The texts a claim writes into the record are passed in as a `Phrases` table, and `PhrasesFor` holds the two languages. The language switch is not modelled: a session keeps one table.
- The assistant service calls (record lookup, description matcher, chat reply, greeting, image comparison). Their outcomes are parameters. `recordToBaggageInfo` and the greeting's info are `InfoOf` on the fields this model follows.
- `fetch`, `AbortController`, `setTimeout`, the 800 ms simulated delay, `localStorage`, JSON parsing and logging. The transport outcome and the stored config are inputs, and a body that is not JSON is a response without a body.
- The implementations of the data and settings contexts. They are modelled as a keyed shallow-merge store and append-only sequences. The config update is modelled as the new config the switch computes.
- The missing-context early returns (`if (!dataContext) return`). The contexts are always present in the model.
- Asynchronous interleaving, React's state scheduling, the typing indicator and the timer's polling interval. Each handler is one step.
- Floating point. Times are integers, rounding is exact integer rounding, and NaN dates do not arise. The visible result can differ by one where the double quotient falls just below a half: 23 non-urgent records out of 40 give a prevention rate of 57 in the application (`(23 / 40) * 100` is 57.49999999999999 as a double) and 58 in the model, and 29 out of 200 give 14 against 15. The same holds for the other three rates.
- The audit entry's timestamp. Neither handler passes one to `addAuditLog`, and the log context is not part of this model; `AuditEntry.timestamp` is set to the handler's clock.
- Record statuses outside the seven listed ones, and the spreadsheet import.
- `Text.Upper`: only ASCII letters are upper-cased, because JavaScript's full Unicode case mapping is not modelled. `Text.IsSpace` covers ASCII white space, no-break space and the byte-order mark, not every Unicode space.
- The preview's and the security form's own cancel buttons. They close one layer of what `CloseModal` closes.
- `handleSave`, `removeUser`, logo management, the config form fields, the strategic summary and the header. They hold no record logic.
- Records.UpdateFirstIdempotent: states idempotence only when the update keeps the PIR or the PIRs are unique, because it fails otherwise (`Records.RenameTwiceReachesSecondRecord`).
- BaggageTimer.BreachImpliesWarning: holds only for a non-negative limit, because for a negative limit a breach need not meet the warning test.
- A stored `wtIntegration` value that parses to `null`. `JSON.parse` then returns `null`, and reading `isConnected` from it throws before the request's fallback, so every gateway call fails. `IntegrationConfig` treats only a value that cannot be parsed as unreadable.
- Passenger.PassengerSession.SendMessage: places no constraint on what the description matcher returns. Its result is taken as given.
