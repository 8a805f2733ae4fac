# Verification of the multi-tenant audit log and the compliance workflow

This project models the hash-chained, per-tenant audit log of the RegTech platform as a concurrent
transactional protocol, and the compliance workflow (transaction monitoring, cases, reports,
watchlist screening) as requests that run on top of it. Dafny proves every statement; the theorems
about requests rest on those about the log. `dafny verify dfyconfig.toml` checks the whole project.

## What is modelled

- **Values and hashing** (`Json.dfy`, `CanonicalJson.dfy`, `Chain.dfy`). `json.dumps` and `json.loads`
  as a printer and a parser with full string escaping (sections 3 to 7 of RFC 8259), `sort_keys` at
  every depth, `_json_safe`, the genesis hash, the record hash and `verify_chain`. SHA-256 (section 6.2
  of FIPS 180-4) is any function from texts to 64-character texts: no theorem assumes that it is
  injective. Tamper evidence is a reduction: an executable function returns which two of the texts
  that two logs hashed collide.
- **One session** (`ColumnTypes.dfy`, `Database.dfy`, `AuditSession.dfy`). Row-level security, the
  `before_flush` listener (new objects, then dirty ones, then deleted ones), the head row taken
  `FOR UPDATE`, the statements of the unit of work in any order, the rounding that Numeric(18, 2) does
  to an amount, commit and rollback. The session and its listener are also written as classes with the
  loops of the source, each method proved equal to the functions that specify it.
- **All sessions** (`Sessions.dfy`, `Replay.dfy`, `LiteralReplay.dfy`, `Isolation.dfy`,
  `Reachability.dfy`). A state machine in which any number of sessions of any number of tenants begin,
  read, query, flush, commit and roll back in any order. Flushes may carry any changes, diffed against
  any read, however stale.
- **The log backwards** (`Rewind.dfy`, `Schedules.dfy`, `RewindRuns.dfy`, `RewindExample.dfy`). When old
  values undo the log, and a run in which they do not.
- **Requests** (`Monitoring.dfy`, `Services.dfy`, `Admission.dfy`, `Handlers.dfy`). The three monitoring
  rules, `record_transaction`, `create_sanctions_screening`, `open_case`, `update_case_status` and
  `generate_report`, first as what a session that served them has done, then as the imperative
  handlers, proved to do that, with exactly when they succeed.
- **Whole runs of requests** (`Effects.dfy`, `Compliance.dfy`, `Alerts.dfy`, `Timing.dfy`,
  `Conservation.dfy`, `Cases.dfy`, `StaleReads.dfy`, `Reports.dfy`), three concrete ones (`Examples.dfy`)
  and **screening** (`Watchlist.dfy`).

The order of the main results: serialisability turns every interleaving into its committed
transactions run one at a time, and every such run happens; replay and the chain invariant hold of
such runs; the compliance theorems are proved of such runs and transfer back.

## What is assumed

- PostgreSQL: READ COMMITTED; a `FOR UPDATE` read returns the latest committed row and holds it to the
  end of the transaction; an INSERT waits for another session's uncommitted row of the same key;
  primary keys are unique over all tenants; Numeric(18, 2) rounds to the nearest hundredth, ties away
  from zero; commit is atomic and an exception rolls everything back.
- Amounts have at most 15 significant digits. An amount reaches its Numeric column as a double precision
  float, which PostgreSQL converts with 15 digits: 12345678901234.56 is logged as sent and stored as
  12345678901234.60. What is said of stored amounts and their replay is not claimed of longer ones.
- The connection's TimeZone is UTC. Times are compared as text: `resolved_at` is written in UTC and read
  back in the connection's time zone, so in another one `Reports.Justifies` and rewinding would compare
  two spellings of one instant.
- SQLAlchemy: an UPDATE sets exactly the columns whose loaded value differs, and raises when it matches
  no row; each object is changed once per flush; an object a session changed is refreshed before it is
  changed again, as every service does after its flush.
- `Isolation.Noninterference`: ids are fresh across tenants (uuid4). `Isolation.SessionLeaks` says
  exactly what an id already taken elsewhere would reveal.
- `Compliance.NoEvasion`: a member of the burst recorded before another started no later than it.
  Nothing is asked of any other session. `Timing.FlaggedExactly` shows how far this is needed, for bursts
  of any size, and `Examples.SplitEscapes` a run under the shipped settings in which the claim fails.
- Theorems about requests: each committed transaction of a pinned session served one request (`Served`).
  `Admission.RecordRuns` and the handlers show that such sessions exist, and when.
- `Cases.CasesSettled`: an update read some committed version of its case.
  `StaleReads.InterleavedReadsPast` derives this for every interleaving whose updates diff against the
  identity map.
- `Reports.ReportJustifiedInterleaved`: case updates diff against the identity map, and a report cites the
  case its session's identity map holds, which `Handlers.PostReport` does.
- `RewindRuns.RewindWhenSerial`, `Reports.ReportJustifiedWhenSerial`: no session of the tenant begins while
  another of its sessions is open, and its changes are diffed against the identity map. Other tenants'
  sessions may overlap them and each other. `RewindExample.StaleDiffsLoseHistory` is a run of overlapping
  sessions of one tenant whose log cannot be rewound.

## Model

| member | source | states |
|---|---|---|
| Json.RoundTrip | app/db/audit.py:74-82 | parsing the printed form of any JSON value, compact or spaced, followed by any text that delimits it, returns the rendered value and leaves exactly that text |
| Json.CharRead | app/db/audit.py:82-82 | the escaped form of every character, control characters and surrogate pairs included, reads back as that one character |
| CanonicalJson.DumpsThenLoads | app/db/audit.py:82-82 | loads(dumps(v, default=str)) is v with UUIDs and datetimes as strings |
| CanonicalJson.JsonSafeIdempotent | app/db/audit.py:74-82 | _json_safe never fails, its result is JSON-safe, applying it again changes nothing, and JSON-safe values are left alone |
| CanonicalJson.CanonicalDecides | app/db/audit.py:65-66 | two payloads have the same canonical text exactly when they are equal as nested unordered objects |
| CanonicalJson.CanonicalOfRendered | app/db/audit.py:65-66 | the canonical text of a payload is that of its JSON-safe form, so what is stored and what is hashed agree |
| CanonicalJson.BeforeMeans | app/db/audit.py:65-66 | keys are ordered by their first differing character, a proper prefix first |
| CanonicalJson.SampleText | app/db/audit.py:65-66 | a nested payload with unordered keys, written out: keys ascending at every depth, no white space, numbers in decimal |
| Json.LongEscapes | app/db/audit.py:82-82 | control characters, DEL, a Latin and an astral character are written as lower-case hexadecimal code units |
| Json.ShortEscapes | app/db/audit.py:82-82 | quotes, backslashes and five control characters have two-character escapes, and every other printable ASCII character stands for itself |
| Chain.VerifyChain | app/db/audit.py:192-235 | on the tenant's rows in ascending seq, however the table holds them: valid exactly when they are a chain from genesis that ends at the head; otherwise the first row that breaks the chain and why, or the tip; the length is the number of the tenant's rows |
| Chain.SelectLogExact | app/db/audit.py:197-199 | the selected rows never decrease in seq and are the tenant's rows of the table, each as often as it stands there |
| Chain.SelectLogDetermined | app/db/audit.py:197-199 | rows in ascending seq are what is selected from every table that holds them as the tenant's, in any order and among any other tenants' |
| Chain.FirstBadUnique | app/db/audit.py:202-223 | there is at most one first bad row, and only when the rows are no chain |
| Chain.CanonicalBindsContent | app/db/audit.py:124-133 | two rows hash the same canonical text exactly when all six covered fields agree, objects compared without regard to key order |
| Chain.KeyOrderIrrelevant | app/db/audit.py:208-216 | storing the values as JSONB, which reorders keys, changes neither whether the rows chain nor their tip |
| Chain.FindCollision | app/db/audit.py:201-233 | for two different chains ending in the same hash, of any lengths and tenants, the positions of two texts they hashed that differ and have the same digest |
| Chain.LastCollides | app/db/audit.py:61-62 | a genesis text of 36 characters never equals a record text of 64 or more, so chains of different lengths collide too |
| Chain.HeadBindsLog | app/db/audit.py:225-235 | two logs accepted under one head are the same tenant's and agree row by row in every covered field and both hashes, or collide on texts they hashed |
| Chain.EditDetected | app/db/audit.py:216-222 | changing one row's covered content is reported at that row exactly when the texts before and after do not collide |
| Chain.RebuiltTailDetected | app/db/audit.py:225-233 | a log rebuilt with fresh hashes is refused under the old head, or collides with the original |
| Chain.TruncationDetected | app/db/audit.py:228-233 | a log cut at the end still chains, and is refused at the tip, or collides |
| Chain.UntouchedReported | app/db/audit.py:192-235 | verify_chain accepts an accepted log from every table that holds it, with its length |
| Chain.EditReported | scripts/smoke_test.py:116-131 | verify_chain on every table holding the edited log reports the edited row's own seq and a record_hash mismatch with both hashes, unless the digests collide |
| Chain.DeletionReported | app/db/audit.py:203-207 | a row deleted before the last is reported at the row after it as a prev_hash mismatch, with the hash expected and the one found, unless two hashed texts collide |
| Chain.TruncationReported | app/db/audit.py:228-233 | rows deleted from the tail are reported without a seq, as a tip mismatch with both hashes and the number of rows left, unless two hashed texts collide |
| Database.SerializeLookup | app/db/audit.py:69-71 | _serialize maps every column of the mapper to its value, once |
| Compliance.MappedColumns | app/db/audit.py:69-71 | a new transaction, alert or case has exactly its mapper's columns, those the server fills in included |
| Database.Changed | app/db/audit.py:85-100 | _diff records exactly the columns whose value differs from the loaded one |
| Database.EntryFor | app/db/audit.py:103-151 | an appended entry has the next sequence number and links to the head |
| Database.EntryExact | app/db/audit.py:154-173 | the entry names its row and action; an INSERT has null old values and every new one, a DELETE the reverse, an UPDATE on both sides exactly the columns that changed, each with its value as JSON has it |
| ColumnTypes.HundredthsNearest | app/models/transaction.py:17-17 | a number with any count of decimals is read as the nearest number of hundredths, a tie away from zero, and exactly when it has at most two; amounts have at most 15 significant digits |
| ColumnTypes.TwoDecimalsMeans | app/models/transaction.py:17-17 | a number is kept as it is exactly when it is a whole number of hundredths |
| ColumnTypes.WholeReadsAlike | app/services/transaction_service.py:18-22 | a whole amount reads alike as an integer and as a float with one decimal |
| ColumnTypes.FloatExact | app/services/monitoring/rules/large_amount.py:20-24 | the float shown in a detail is the number of hundredths it stands for, with one decimal if that is enough |
| Replay.EntryAppliesChange | app/db/audit.py:154-173 | replaying the entry of a change does to the tables what the change does |
| Replay.ReplayOrderBlind | app/db/audit.py:52-53 | replaying the log as JSONB stores it gives what replaying the appended log gives |
| Replay.OrderIrrelevant | app/db/audit.py:154-173 | the unit of work may write the changes of one flush in any order: the listener's order gives the same tables |
| Replay.StatementApplies | app/db/audit.py:85-100 | a statement that does not raise changes the tenant's tables as its change says, values rounded as the columns round them, and touches only the tenant's rows |
| Replay.FlushKeepsGood | app/db/audit.py:118-151 | a flush keeps log plus pending entries a chain numbered without gaps whose replay is the session's view of its rows |
| Replay.NoHeadNoEffect | app/db/audit.py:118-122 | a session that sees no head row commits nothing: appending raises |
| Replay.CommitAddsBlock | app/db/session.py:32-40 | a commit appends its entries as one block to its tenant's log and nothing to any other's |
| Replay.AtomicKeepsConsistent | app/db/session.py:32-40 | every transaction keeps every tenant's log a chain to its head whose replay is the tenant's rows |
| Replay.SerialConsistent | app/db/audit.py:103-173 | so it holds after any transactions run one at a time from an empty database |
| Sessions.StepKeepsInv | app/db/session.py:18-40 | every event of any session keeps the invariant: consistent logs, at most one holder per head row, and every open session would repeat itself if run now |
| Sessions.Serialisable | app/db/session.py:18-40 | every interleaving commits the rows, logs and heads of its committed transactions run one at a time in commit order, each seeing again what it saw while holding its head row |
| Sessions.HistoryRuns | app/db/session.py:33-38 | none of those transactions raises in the serial run |
| Sessions.StepFrame | app/db/session.py:32-40 | commit, rollback and a flush that raises end their session; only commit and provisioning change the database, and no event changes another session |
| Sessions.ReplayUnderInterleaving | app/db/audit.py:103-173 | in every reachable state each tenant's committed log is numbered 1 to last_seq, chains from genesis to the head, and replays, its values stored as the columns store them, to exactly the tenant's committed rows, stale diffs or not |
| LiteralReplay.LiteralUnderInterleaving | app/db/audit.py:69-71 | for amounts of at most 15 significant digits: in every reachable state the committed rows are the log read word for word with every value stored, and the log word for word exactly when no surviving logged amount has more than two decimals |
| Examples.LogKeepsWhatRowsRound | app/services/transaction_service.py:18-22 | a run with one amount of 12.345: its row holds 12.35 and its log says 12.345 |
| Reachability.EverySerialRunHappens | app/db/session.py:18-40 | any transactions that go through one at a time are the committed history of some interleaving |
| Reachability.HistoriesExactly | app/db/session.py:18-40 | so the committed histories of interleavings are exactly the transactions that go through one at a time |
| Sessions.VerifyReachable | app/db/audit.py:192-235 | verify_chain on any reachable database says valid with length last_seq for every provisioned tenant |
| Isolation.UnpinnedIsInert | app/db/rls.py:6-18 | a session without a pinned tenant sees no row and its commit changes nothing |
| Isolation.ForeignObjectFails | app/db/audit.py:118-122 | flushing an audited change of another tenant's object raises |
| Isolation.Noninterference | app/db/rls.py:15-19 | deleting every other tenant's events from a run changes nothing of a tenant's rows, log, head and sessions, nor anything they read |
| Isolation.SessionLeaks | app/db/base.py:20-20 | a whole session comes out as on a database holding its own tenant's rows alone, except that it raises exactly when it inserts an id another tenant holds |
| Rewind.RewindsExactly | app/db/audit.py:166-173 | undoing an entry from its old values restores the tables exactly when the entry fits them |
| Rewind.UpdateShape | app/db/audit.py:85-100 | the old and new side of an UPDATE have the same nonempty set of columns, with the loaded and the current value, different at each |
| RewindRuns.RewindUnderInterleaving | app/db/audit.py:85-173 | in every reachable state, applying old values backwards from a tenant's rows recovers its rows after every log prefix exactly when every entry fits the tables its predecessors leave |
| RewindRuns.RewindExactlyFresh | app/db/audit.py:85-173 | equivalently, exactly when every committed UPDATE or DELETE of the tenant was diffed against what its row showed when its statement ran |
| RewindRuns.RewindWhenSerial | app/db/audit.py:85-173 | it always does when the tenant's sessions do not overlap and diff against what their identity maps hold, whatever other tenants do |
| RewindExample.StaleDiffsLoseHistory | app/db/audit.py:96-99 | a run of two overlapping sessions, each diffing against what it read, one of them not against what the row showed, whose log cannot be rewound |
| Rewind.FreshExactly | app/db/audit.py:85-100 | after any transactions run one at a time, each entry of a tenant's log fits the tables its predecessors leave exactly when every committed change of the tenant was diffed against what its row showed |
| Schedules.SerialIsFresh | app/db/audit.py:88-99 | when a tenant's sessions do not overlap and diff against what they hold, every committed change of the tenant was diffed against what its row showed, whatever other tenants do |
| AuditSession.SharedDatabase.CreateTenant | app/cli.py:24-33 | provisioning adds a head row at sequence 0 with the genesis hash |
| AuditSession.TenantSession.constructor | app/db/session.py:28-37 | a session starts pinned, with nothing pending |
| AuditSession.Diff | app/db/audit.py:85-100 | the loop computes the old and new values of exactly the changed columns |
| AuditSession.TenantSession.TakeHead | app/db/audit.py:118-122 | the head row is the one already held or the latest committed one; invisible means an exception |
| AuditSession.TenantSession.AppendToChain | app/db/audit.py:103-151 | one entry of the serialised values appended and the head moved to it, or an exception and nothing changed |
| AuditSession.TenantSession.CaptureChanged | app/db/audit.py:159-162 | a dirty object is diffed, and logged exactly when its diff is not empty |
| AuditSession.TenantSession.CaptureAuditEntries | app/db/audit.py:154-173 | the three loops append the entries of new, changed and deleted objects in that order, skipping empty diffs |
| AuditSession.TenantSession.Finish | app/db/session.py:32-40 | commit publishes rows, entries and head at once, an exception publishes nothing, and the session closes |
| Monitoring.TotalMonotone | app/services/monitoring/rules/velocity.py:35-43 | more rows, none negative, cannot lower the sum or the count |
| Monitoring.Aggregate | app/services/monitoring/rules/velocity.py:35-43 | the query returns the count and the sum, NULL for no rows |
| Monitoring.LargeComplementsVelocity | app/services/monitoring/rules/large_amount.py:13-15 | of the transactions in range, every one is counted by the velocity rule or reported by the large-amount rule and none by both, so their sums and counts add up |
| Monitoring.Multiple | app/services/monitoring/rules/round_amount.py:16-17 | the remainder by the modulus is zero exactly for the multiples of the modulus, negative ones included |
| Monitoring.EvaluateExact | app/services/monitoring/engine.py:24-28 | the findings are exactly those of the rules that fire, one per rule, in registration order |
| Monitoring.EvaluateTransaction | app/services/monitoring/engine.py:13-28 | running the registered rules in turn computes those findings |
| Services.EscalatedExact | app/services/case_service.py:46-52 | exactly the alerts at or above the severity floor open a case, in order |
| Services.IsoExact | app/services/report_service.py:23-24 | isoformat differs from str in its first space alone, which becomes a T |
| Effects.InsertSession | app/services/transaction_service.py:18-43 | a session that only adds objects writes exactly their rows, none there before, and logs exactly them in order |
| Effects.ServedEffect | app/services/transaction_service.py:15-43 | a request adds exactly its rows and keeps every other transaction, alert, screening, report and case, except the fields a case update sets |
| Effects.RulesView | app/services/transaction_service.py:18-23 | the rules see the tenant's committed rows and the new transaction, and nothing else |
| Compliance.LargeFlagged | app/services/monitoring/rules/large_amount.py:12-24 | every recorded transaction at or above the threshold has, ever after, an alert and a high-priority case |
| Alerts.LargeFlaggedInterleaved | app/services/monitoring/rules/large_amount.py:12-24 | the same of the committed rows of every interleaving |
| Compliance.NoEvasion | app/services/monitoring/rules/velocity.py:24-55 | in every run, enough transactions of one customer and currency within one window that total the velocity threshold, recorded in the order they started, have a member with a LARGE_AMOUNT or VELOCITY_STRUCTURING alert and a high-priority case |
| Compliance.NoEvasionInterleaved | app/services/transaction_service.py:15-43 | the same of the committed rows of every interleaving |
| Timing.FlaggedExactly | app/services/monitoring/rules/velocity.py:27-43 | a burst of any size that can spare no member, and in whose members' windows the customer has no other transaction below the cutoff, has a flagged member exactly when one of them is large or the one recorded last started no earlier than the others |
| Timing.FlaggedExactlyInterleaved | app/services/transaction_service.py:15-43 | the same of the committed rows of every interleaving, where a last recorded member always exists |
| Examples.SplitEscapes | app/config.py:54-61 | under the shipped settings, a run in which three transactions of 1,000,000.50 within a day are not flagged |
| Examples.FiveMillionFlagged | app/services/monitoring/rules/large_amount.py:13-15 | under the shipped settings every recorded amount of 5000000.0 is flagged, in every run |
| Examples.FiveMillionRun | app/config.py:54-54 | and there is such a run |
| Alerts.AlertsExact | app/services/transaction_service.py:23-38 | in every run a transaction has an alert for a rule exactly when the rule fires on the tenant's table right after it; the alert is unique and shows that finding |
| Alerts.AlertsExactInterleaved | app/services/transaction_service.py:23-38 | the same of the committed rows of every interleaving |
| Alerts.LargeAlertIsLarge | app/services/monitoring/rules/large_amount.py:12-24 | a LARGE_AMOUNT alert is of a transaction at or above the threshold |
| Alerts.LargeAlerts | app/services/monitoring/rules/large_amount.py:10-24 | in every run a transaction has a LARGE_AMOUNT alert exactly when its amount reaches the threshold; it is of high severity and shows the amount, the currency and the threshold |
| Alerts.RoundAlerts | app/services/monitoring/rules/round_amount.py:10-26 | and a ROUND_AMOUNT alert exactly when its amount reaches the minimum and is a multiple of the modulus; it is of low severity and shows the amount, the currency and the modulus |
| Alerts.VelocitySound | app/services/monitoring/rules/velocity.py:24-55 | every velocity alert is of a recorded transaction and witnessed by recorded transactions of its window, below the cutoff and none with a LARGE_AMOUNT alert, that meet both thresholds; it is of high severity and its detail shows their exact sum and count, the hours, the currency and the threshold |
| Alerts.VelocitySoundInterleaved | app/services/monitoring/rules/velocity.py:32-55 | the same of the committed rows of every interleaving |
| Conservation.PerformedLog | app/db/audit.py:154-165 | a request that adds rows logs exactly those rows, in order, as one block of its tenant's log |
| Conservation.RecordLogged | app/services/transaction_service.py:15-43 | a committed record_transaction logs its transaction with the amount the client sent, one alert per firing rule in rule order, one case per alert at or above the floor, and nothing else; every entry shows exactly its id, tenant and the columns of `TransactionShown`, `AlertShown` and `CaseShown` |
| Conservation.AlertLogs | app/services/transaction_service.py:25-36 | the entry of an alert shows transaction, customer, the rule's code, severity, detail and status open, and no other column |
| Conservation.CaseLogs | app/services/case_service.py:19-33 | the entry of an automatic case shows customer, its alert, the alert's severity as priority, status open, and neither resolution, notes nor assignee |
| Conservation.CasesMatch | app/services/case_service.py:36-52 | over every run the cases not opened by hand are in bijection with the alerts at or above the floor and the potential matches, of the same tenant and customer and with the right priority |
| Conservation.CasesMatchInterleaved | app/services/sanctions_service.py:29-44 | the same of the committed rows of every interleaving |
| Cases.CaseRecord.UpdateCaseStatus | app/services/case_service.py:71-87 | refused, and unchanged, exactly when it would leave a resolved case without a resolution; otherwise status, resolution, notes and assignee are each the payload's if given and else the old one, and resolved_at is the clock's exactly when the payload resolves |
| Cases.UpdateSettles | app/services/case_service.py:72-83 | an update that checked an older version of a case still leaves the current one settled |
| Cases.StaysSet | app/services/case_service.py:78-83 | in every run a case's resolution and its time, once set, stay set |
| Cases.CasesSettled | app/services/case_service.py:71-91 | in every run a resolved case has a resolution and a time, and a time comes with a resolution, however stale the updates' reads |
| StaleReads.RunTraced | app/services/case_service.py:67-68 | under every interleaving, what a session remembers of a row it has not changed is a version committed before |
| StaleReads.CasesSettledInterleaved | app/services/case_service.py:71-91 | both case invariants under every interleaving of updates that diff against what they read |
| Reports.LogIsBlocks | app/db/session.py:33-38 | each transaction's entries are one contiguous block of its tenant's log |
| Reports.BlocksInterleaved | app/db/session.py:33-38 | the same under every interleaving |
| Reports.ReportEntry | app/services/report_service.py:30-51 | every entry of the reports table is the one entry of a generate_report whose case passed the gate |
| Reports.PayloadWhole | app/services/report_service.py:15-27 | the payload has exactly its ten fields, type, case and opening time from the request and the rest from the case, ids and times as text |
| Reports.ReportFiles | app/services/report_service.py:37-47 | the log entry of a report shows the request's case, type, provider, status, reference, error and payload, each in its own column |
| Reports.ReportJustifiedInterleaved | app/services/report_service.py:15-51 | under every interleaving, every logged report files its request: its tenant, case, type, provider, status, reference and error are the request's, and some prefix of the log before it replays to its case, resolved and confirmed at a known time, with the customer and the payload of exactly that case |
| Reports.ReportJustifiedWhenSerial | app/services/report_service.py:15-51 | when the tenant's sessions do not overlap, that prefix is the whole log before the entry, whatever other tenants do |
| Watchlist.TokenSortDecides | app/services/watchlist/providers/mock.py:41-42 | token-sorted names are equal exactly when the names have the same words equally often |
| Watchlist.TokenSortExact | app/services/watchlist/providers/mock.py:41-42 | the token-sorted text has the words of the text, as often, in ascending order, one space apart |
| Watchlist.NormalizeExact | app/services/watchlist/providers/mock.py:35-38 | the words of a normalised name are those of the folded name without their punctuation, in order, one space apart |
| Watchlist.StripExact | app/services/watchlist/providers/mock.py:36-36 | strip cuts white space at both ends, as far as it goes and nothing else |
| Watchlist.NormalFormIdempotent | app/services/watchlist/providers/mock.py:35-42 | token-sorting after normalising is idempotent |
| Watchlist.NormalizeTwice | app/services/watchlist/providers/mock.py:35-38 | normalising alone is idempotent exactly on names whose trimmed form neither begins nor ends with punctuation that white space sets off from the rest |
| Watchlist.NormalizeNotIdempotent | app/services/watchlist/providers/mock.py:36-38 | a name on which it is not |
| Watchlist.WordOrderScores | app/services/watchlist/providers/mock.py:45-49 | scores are between 0 and 100, and names that differ in word order only score exactly 100 |
| Watchlist.ScoreExact | app/services/watchlist/providers/mock.py:45-49 | the score is at least what the direct and what the token-sorted comparison rounds to, and equals one of them |
| Watchlist.RoundNearest | app/services/watchlist/providers/mock.py:49-49 | a rounded score is a whole number of tenths within 0.05, and the number itself if that is a whole number of tenths |
| Watchlist.ScreenExact | app/services/watchlist/providers/mock.py:71-78 | the hits are descending, score by score exactly the entries at or above the threshold in list order, and the status is potential_match exactly when the highest score reaches the threshold |
| Watchlist.ScreenOutcome | app/services/watchlist/providers/mock.py:61-69 | a name is refused exactly when it is white space only, and the provider errs, with its message and no hits, exactly on the trigger name |
| Watchlist.ScreenHits | app/services/watchlist/providers/mock.py:71-78 | of any other name the hits are exactly the entries whose score reaches the threshold, each with its name, list and score, and the highest score is the greatest of all |
| Watchlist.SimilarIsHit | app/services/watchlist/providers/mock.py:45-49 | an entry whose direct or token-sorted ratio reaches the threshold is a hit, and the answer is potential_match |
| Handlers.ThresholdExact | app/services/sanctions_service.py:25-27 | scores are compared with the number the setting writes |
| Watchlist.StableSortUnique | app/services/watchlist/providers/mock.py:76-76 | the stable descending sort is the only descending list with the same entries, in the same order, at each score |
| Watchlist.ThresholdPrefix | app/services/watchlist/providers/mock.py:71-78 | the hits at a higher threshold are a prefix of the hits at a lower one |
| Admission.FlushAdmitted | app/services/transaction_service.py:37-38 | a flush of new objects succeeds exactly when the tenant's head row is visible and no key is taken |
| Admission.RecordRuns | app/services/transaction_service.py:15-43 | for a provisioned tenant and free keys there is a session that serves the request, and none of its statements raises |
| Admission.FreshRequestServed | app/db/base.py:20-20 | with a provisioned tenant and ids no row has, the request is served |
| Admission.ReachableRowsUnique | app/db/base.py:20-20 | no reachable row holds an object with a repeated key, so what is read can be stored again |
| Handlers.AddAll | app/services/transaction_service.py:37-38 | add_all and flush add exactly the given rows, in order, and raise exactly when the head row is invisible or a key is taken |
| Handlers.OpenCases | app/services/transaction_service.py:41-42 | the loop opens exactly the cases of the alerts at or above the floor, and raises exactly when one of their keys is taken or the head row is invisible |
| Handlers.RecordTransaction | app/services/transaction_service.py:15-43 | the handler does what a session that served the request has done, and raises exactly when the head row is invisible or one of the rows it would add has a taken key |
| Handlers.CreateSanctionsScreening | app/services/sanctions_service.py:16-44 | the handler screens the override if it is not empty, else the full name, and refuses exactly white space; otherwise it adds the record with customer, name, provider, status, highest score, threshold, hits and error each in its column, and on a potential match, and only then, an open high-priority case of it; it raises exactly when the head row is invisible or a key of those is taken |
| Handlers.GenerateReportFor | app/services/report_service.py:30-51 | the handler refuses exactly a case that is not resolved and confirmed, and otherwise adds one report whose every column is the argument's or the case's, or raises, exactly when its key is taken or the head row invisible |
| Handlers.UpdateCaseOf | app/services/case_service.py:71-91 | the handler refuses exactly resolving without a resolution, and otherwise flushes one UPDATE, diffed against the case it read, of an object that shows the updated fields and no other change; it raises exactly when it changes something and the row or the head is not the tenant's |
| Handlers.PostTransaction | app/db/session.py:28-40 | a whole request commits everything it did as one transaction exactly when its tenant is provisioned and its keys are free, and otherwise nothing |
| Handlers.PostReport | app/api/routes/reports.py:14-23 | the route reads the case itself and answers 404, 400, 500 or 201 exactly as the committed tables say; created, the database has exactly one row and one log entry more, and the row shows tenant, case, customer, type, provider, status, reference, error and payload as the arguments and the case it read have them |

## Left out

- JSON numbers other than integers and fixed-point decimals: floats that print with an exponent (below 0.0001 or from 1e16 on), negative zero and NaN.
- An amount read back is a Decimal, which would be logged as a string if the row were ever updated or deleted; no service does either. Amounts beyond Numeric(18, 2), which raise, amounts of more than 15 significant digits, which are stored rounded to 15, are not modelled. `float(...)` in an alert's detail is taken to print the amount it was given, which holds of at most 15 significant digits.
- `json.loads` of a text with duplicate keys (last one wins) and lone surrogates: no printed value contains them.
- `audit_log.id`, `seq`, `occurred_at` and the actor columns are not covered by the record hash; binding is about the covered fields and both hashes, against an unaltered head.
- Server-generated columns (`created_at`, `updated_at`, `opened_at` and the like) are None when the listener serialises and never diffed: replay is about the application's columns. `opened_at` in a report's payload is a parameter of the request.
- uuid4, wall clocks, provider answers and the ids a session assigns are parameters; that ids do not repeat within a request is assumed where a handler builds several rows. The start times of sessions are any integers, in any order.
- Foreign keys, column widths and CHECK constraints: a statement they reject raises like any other.
- The existence checks of the HTTP routes other than the report route's, request schemas beyond positive amounts, and authentication.
- The order of columns in a mapper is arbitrary in `Handlers.MapObject`; canonical JSON sorts keys, so no hash depends on it.
- `Services.Serves` fixes which objects a request adds and in what order, not how they are grouped into flushes, except that the transaction is flushed before the rules query; refreshes of rows just written are not queries.
- Tables that are not audited (`tenants`, `api_keys`), identity verification, case notes and customers, which are requests that write none of the guarded tables.
- `SequenceMatcher.ratio` and `str.casefold` are parameters with the properties `Watchlist.dfy` names; `round(x, 1)` rounds exact ties upwards, where Python rounds the binary float.
- Configuration is a parameter; a zero `monitoring_round_amount_modulus`, which would make the round-amount rule raise, is excluded.
- The regulator and identity providers, list queries, the command line's text output and the frontend.
