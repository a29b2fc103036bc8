# Testizer email funnels, modelled in Dafny

Testizer sells certificates for online tests. This service moves the people
who finish a test into marketing funnels kept in the Brevo contact API, and
then watches for the certificate purchase that the funnel is meant to bring.

The model covers these parts:

- **The contact record** (`BrevoModels`). This is the record sent to Brevo, together with its JSON request body.
- **The HTTP client** (`ApiClient`). It handles the API key, the base URL, dry-run mode, the status check and the JSON decoding. The network itself is an oracle.
- **The funnel-entry ledger** (`Tracking`). It is the `funnel_entries` table, with an existence check, an insert that fails on a duplicate of the unique key (email, funnel type, test id), and the multi-row "mark purchased" update.
- **The read-only selectors** (`Selectors`, with `SeqOps` for the relational operators). These are:
  - language-test candidates from the last 30 days who are not yet in the language funnel;
  - the placeholder non-language selector;
  - the oldest unpurchased entries;
  - the earliest paid certificate matching an entry;
  - the conversion summary grouped by funnel type.
- **Funnel intake** (`FunnelSync`). For each candidate the service sends one contact to Brevo. Only after that call returns does it record a funnel entry. The language funnel runs first, then the non-language funnel; a funnel whose list id is not positive is skipped, and an exception ends the run.
- **Purchase detection** (`PurchaseSync`). For each pending entry of the oldest batch, the service looks up a purchase and validates its timestamp. It then marks the ledger and sends a contact update that leaves list membership alone. A dry run only reads.
- **The outbox worker** (`Outbox`, `SyncWorker`). It fetches pending jobs, decodes each payload, makes one gateway call per well-formed job and marks each job a success or an error. No per-job failure escapes the run.
- **Reports** (`Reports`, `ReportService`, `ReportJob`). These are the per-funnel conversion report with its percentage, the all-funnels report built from the grouped summary, and the report command's time window.
- **Configuration** (`Settings`). Settings are read from the environment, with the defaults, the boolean spellings and the integer fallback.

The database is an in-memory `Database` object holding the tables. Every
statement the ledger functions send is appended to a log, and every commit is
counted. The contact API is a `ContactGateway` object: it records each
contact it is given and answers the n-th call through an oracle function. The
imperative parts of the source are classes whose methods are proved against
tail-recursive specification functions (`RowsSpec`, `PurchaseSpec`, `RunSpec`,
`MarkAll`), and the properties are lemmas about those functions.

Where the documentation and the code disagree, the model follows the code:

- The docstring of `_process_candidate` (funnels/sync_service.py:157-161) says duplicates are handled gracefully. In fact `create_funnel_entry` raises on a key violation (analytics/tracking.py:86-87), and the model raises there too.
- The intake inserts entries with a NULL test id. A NULL never takes part in a key collision (`Tracking.NoCollisionWithoutTestId`), so the insert cannot fail on that path. What keeps a user from being taken in twice is the selector's exclusion of people already in the funnel (`FunnelSync.ProcessedCandidateIsNotSelectedAgain`), not the unique key.
- The settings test at tests/config/test_settings.py:66 reads a `sentry` section that config/settings.py does not define. The model follows config/settings.py.

## Model

| member | source | states |
|---|---|---|
| BrevoModels.NewContact | brevo/models.py:5-16 | a contact built from an email alone keeps that email, is on no list, has no attributes and has update enabled |
| BrevoModels.ToPayload | brevo/models.py:18-38 | the body always carries the email and the update flag; `listIds` is present exactly when the list is non-empty, and `attributes` exactly when the attributes are non-empty, each unchanged |
| BrevoModels.IdsRoundTrip | brevo/models.py:33-34 | the list ids written into the body can be read back unchanged |
| BrevoModels.PayloadRoundTrip | brevo/models.py:18-38 | the body loses nothing: the contact can be recovered from it, so different contacts give different bodies |
| BrevoModels.BareContactPayload | brevo/models.py:18-38 | a contact built from an email alone sends exactly the email and `updateEnabled = true` |
| Gateway.ContactGateway.CreateOrUpdateContact | brevo/api_client.py:117-145 | each call records its contact and returns (or raises) what the API answers for that call |
| ApiClient.HttpTransport.Send | brevo/api_client.py:91-97 | each request is logged once and answered by the network oracle |
| ApiClient.BuildUrl | brevo/api_client.py:33-36 | the URL is the base, then exactly one "/", then the path without a leading slash of its own |
| ApiClient.ReplyOutcome | brevo/api_client.py:98-115 | a network error propagates; a status of 400 or more raises a RuntimeError whose text holds the status code and the body; a non-JSON body gives `{}`; otherwise the decoded JSON |
| ApiClient.BrevoApiClient.constructor | brevo/api_client.py:17-31 | the key is stripped of surrounding whitespace and the base URL of trailing slashes |
| ApiClient.BrevoApiClient.Request | brevo/api_client.py:38-115 | dry run answers `{"dry_run": true}` with no request; an empty key raises before any request; otherwise exactly one request goes out with the key headers and a 10 s timeout, and its reply decides the outcome |
| ApiClient.BrevoApiClient.CreateOrUpdateContact | brevo/api_client.py:117-145 | one POST to `/contacts` whose body is the contact's payload, with the same dry-run and missing-key behaviour |
| Tracking.FunnelEntryExists | analytics/tracking.py:7-59 | one SELECT; true exactly when a row has the email and funnel type, and the test id when one is given |
| Tracking.HasMatchMeaning | analytics/tracking.py:35-53 | without a test id any test matches; with one only rows of that test match |
| Tracking.Matches | analytics/tracking.py:35-53 | the shared WHERE clause: same email and type, and the same test id when one is given |
| Tracking.Collides | analytics/tracking.py:86-102 | the insert meets a row with the same (email, funnel_type, test_id) key; a NULL test id never takes part |
| Tracking.MarkRow | analytics/tracking.py:139-159 | one row under the UPDATE: a matching unpurchased row becomes purchased at the given time, any other is kept |
| Tracking.MarkAll | analytics/tracking.py:139-159 | the UPDATE over the table, row by row, keeping its length |
| Tracking.CreateFunnelEntry | analytics/tracking.py:62-104 | one INSERT; it raises, committing nothing, exactly when the unique key would break; otherwise exactly one new row with the given values, the server time and no purchase, committed once, and no other row changes |
| Tracking.NoCollisionWithoutTestId | analytics/tracking.py:91-103 | an insert with a NULL test id never breaks the unique key |
| Tracking.MarkAllAt | analytics/tracking.py:139-159 | the UPDATE acts on each row independently |
| Tracking.MarkAllEffect | analytics/tracking.py:116-122 | every matching unpurchased row becomes purchased at the given time; every other row, including an already purchased one, is untouched; only the purchase columns change |
| Tracking.MarkAllLeavesNoneUnmarked | analytics/tracking.py:139-159 | after the update no row satisfies its WHERE clause |
| Tracking.MarkAllIdempotent | analytics/tracking.py:116-122 | repeating the update, with any time, changes nothing |
| Tracking.MarkAllKeepsValid | analytics/tracking.py:139-159 | the update keeps the unique key and the ids intact |
| Tracking.MarkNext | analytics/tracking.py:139-159 | after the update reaches row i the rows up to it are updated and the rest untouched |
| Tracking.MarkCertificatePurchased | analytics/tracking.py:107-162 | one UPDATE over all matching unpurchased rows, then one commit; the table becomes exactly `MarkAll` of the old table |
| SeqOps.Filter | db/selectors.py:222-228 | WHERE keeps exactly the rows satisfying the condition, each with its multiplicity |
| SeqOps.FilterMembership | db/selectors.py:222-228 | a row is selected exactly when it is in the table and satisfies the condition |
| SeqOps.FilterEmpty | analytics/reports.py:89-149 | a selection is empty exactly when no row satisfies its condition |
| SeqOps.SortBy | db/selectors.py:106-116 | ORDER BY returns the same rows, as a permutation, in key order |
| SeqOps.Take | db/selectors.py:106-116 | LIMIT returns a prefix of length min(limit, rows) |
| SeqOps.TakeSmallest | db/selectors.py:106-116 | ORDER BY with LIMIT keeps the rows with the smallest keys and drops the rest |
| SeqOps.SelectTop | db/selectors.py:35-55 | WHERE, ORDER BY and LIMIT: at most the limit, all satisfying the condition, in order, drawn from the table |
| SeqOps.SelectTopMissing | db/selectors.py:35-55 | a qualifying row is left out only when the limit is reached by rows with keys no larger |
| SeqOps.SelectFirst | db/selectors.py:168-169 | `ORDER BY … LIMIT 1`: no row exactly when none qualifies, otherwise a qualifying row of least key |
| SeqOps.FilterStronger | db/selectors.py:222-228 | a stronger condition selects a sub-multiset of the rows |
| Selectors.LanguageCandidateUsers | db/selectors.py:35-55 | at most `limit` users, each with an email, finished within the last 30 days and not in the language funnel, most recent first, drawn from the table |
| Selectors.LanguageCandidatesAreMostRecent | db/selectors.py:35-55 | an eligible user is skipped only when the batch is full of users who finished no earlier |
| Selectors.IsLanguageCandidate | db/selectors.py:47-51 | a user with a non-empty email, a test completed inside the look-back window, and no language funnel entry |
| Selectors.ToCandidates | db/selectors.py:57-63 | each selected row becomes its `(user_id, email)` pair, in order |
| Selectors.GetLanguageTestCandidates | db/selectors.py:10-63 | at most `limit` candidates, each with a non-empty email not yet in the language funnel |
| Selectors.GetNonLanguageTestCandidates | db/selectors.py:66-82 | the placeholder returns no candidates |
| Selectors.PendingRows | db/selectors.py:106-116 | at most `max_rows` unpurchased rows, oldest entry first, drawn from the table |
| Selectors.PendingRowsAreOldest | db/selectors.py:106-116 | an unpurchased row is left out only when the batch is full of rows that entered no later |
| Selectors.PendingRowsDrawn | db/selectors.py:106-116 | every selected row is an unpurchased row of the table |
| Selectors.ToPending | db/selectors.py:107-112 | a pending row carries the email, funnel type, user id and test id of its entry |
| Selectors.GetPendingFunnelEntries | db/selectors.py:85-122 | at most `max_rows` entries, each the key columns of an unpurchased row |
| Selectors.CertificatePurchaseForEntry | db/selectors.py:125-186 | nothing exactly when no paid certificate of the funnel's test type exists for the email; otherwise a qualifying payment with the earliest payment time |
| Selectors.TestTypeFor | db/selectors.py:164-167 | the language funnel matches test type 1, the non-language funnel type 2, any other funnel none |
| Selectors.Qualifies | db/selectors.py:160-167 | a payment by the email, with status 2, a time, and the funnel's test type |
| Selectors.UnknownFunnelTypeHasNoPurchase | db/selectors.py:138-139 | a funnel type other than the two known ones never finds a purchase |
| Selectors.PurchasesWithinEntries | db/selectors.py:222-228 | the purchased rows of a period are among its entries, so never more |
| Selectors.InPeriod | db/selectors.py:222-228 | an entry time on or after the start and before the end, each bound optional |
| Selectors.InsertType | db/selectors.py:230 | adding a type to the ascending list of groups keeps it strictly ascending and adds exactly that type |
| Selectors.GroupTypes | db/selectors.py:230 | GROUP BY with ORDER BY lists each type present exactly once, in ascending order |
| Selectors.PeriodTypesMeaning | db/selectors.py:222-228 | a type appears in the window exactly when some row of that type entered inside it |
| Selectors.ConversionSummary | db/selectors.py:211-248 | one row per funnel type with an entry in the window, strictly ascending by type, counting that type's entries and purchases |
| Selectors.SummaryTypesOfRows | db/selectors.py:236-248 | the converted rows carry exactly the grouped types |
| Selectors.ConversionSummaryCounts | db/selectors.py:199-205 | every summary row has at least one entry and no more purchases than entries; an empty table gives no rows |
| Selectors.GetFunnelConversionSummary | db/selectors.py:189-248 | the method returns exactly the grouped summary of the table |
| Text.TrimLeft | config/settings.py:40-46 | strips exactly the leading whitespace |
| Text.TrimRight | config/settings.py:40-46 | strips exactly the trailing whitespace |
| Text.Strip | brevo/api_client.py:28 | the result neither starts nor ends in whitespace, and is empty exactly for a blank input |
| Text.StripIsSlice | config/settings.py:45 | what strip keeps is a slice of the input with only whitespace before and after it |
| Text.StripUnpadded | config/settings.py:40-46 | a string without surrounding whitespace is unchanged by strip |
| Text.RStrip | brevo/api_client.py:29 | exactly the trailing slashes are removed |
| Text.InfixOfConcat | brevo/api_client.py:102-110 | a piece placed inside a message is found in it |
| Text.DigitChar | config/settings.py:49-57 | a digit value gives a decimal digit character |
| Text.NatToString | config/settings.py:49-57 | `str` of a natural number is a non-empty string of digits |
| Text.IntToString | config/settings.py:49-57 | `str` of an integer is non-empty and unpadded |
| Text.ParseInt | config/settings.py:49-57 | `int` succeeds exactly on text that, once stripped, is an optional sign and one or more digits; the value is those digits, negated after a minus |
| Text.NatToStringValue | config/settings.py:49-57 | the digits `str` writes have the number's value |
| Text.ParseIntOfIntToString | config/settings.py:49-57 | `int(str(n)) == n` |
| Text.StartsWith | brevo/api_client.py:34 | `s.startswith(p)`: `p` is a prefix of `s` |
| Text.Lower | config/settings.py:45 | `s.lower()`: the same length, each ASCII capital replaced by its small letter |
| Text.StrLessIrreflexive | db/selectors.py:230 | the text order of ORDER BY is irreflexive |
| Text.StrLessTransitive | db/selectors.py:230 | the text order is transitive |
| Text.StrLessTotal | db/selectors.py:230 | the text order relates any two different strings |
| Settings.GetEnv | config/settings.py:60-89 | a set variable gives its value, an unset one the default |
| Settings.LoadBoolean | config/settings.py:40-46 | unset gives the default; set gives true exactly for "1", "true", "yes" or "y", ignoring surrounding space and case |
| Settings.LoadInteger | config/settings.py:49-57 | unset, blank or non-integer text gives the default; otherwise its integer value |
| Settings.LoadIntegerOfIntToString | config/settings.py:49-57 | a value written as `str(k)` is read back as `k` |
| Settings.LoadSettings | config/settings.py:60-89 | the API key is present exactly when set, and holds the variable's value; an unset dry-run flag means dry run |
| Settings.DefaultSettings | tests/config/test_settings.py:30-65 | an empty environment gives the default database, dry run, no key, the public endpoint and list ids 0 |
| Settings.LoadBooleanFalseExamples | tests/config/test_settings.py:10-17 | "0" and "" turn off a flag whose default is on |
| Settings.LoadBooleanTrueExample | tests/config/test_settings.py:10-17 | "true" turns on a flag whose default is off |
| FunnelSync.CandidateFor | funnels/sync_service.py:120-148 | a selected row becomes a candidate of the funnel with its email and no user id, test id or completion time |
| FunnelSync.ContactFor | funnels/sync_service.py:171-177 | the contact goes to the funnel's one list, with update enabled and the single `FUNNEL_TYPE` attribute |
| FunnelSync.ContactsFor | funnels/sync_service.py:186 | the contacts a fully accepted pass sends, one per candidate, in order |
| FunnelSync.EntriesFor | funnels/sync_service.py:194-200 | the entries a fully accepted pass adds, one per candidate with consecutive ids, in order |
| FunnelSync.InsertsFor | funnels/sync_service.py:194-200 | the INSERT statements a fully accepted pass sends |
| FunnelSync.AcceptedStep | funnels/sync_service.py:150-200 | an accepted candidate adds its contact, its entry, its insert and its commit |
| FunnelSync.InsertStep | funnels/sync_service.py:194-200 | the INSERT is logged; a key collision raises the duplicate-key error, otherwise the entry is added and committed |
| FunnelSync.CandidateStep | funnels/sync_service.py:150-200 | one candidate: the contact call, whose failure raises, then the insert |
| FunnelSync.RowsSpec | funnels/sync_service.py:98-104 | the loop over a funnel's rows, in order, stopping at the first exception |
| FunnelSync.FunnelSpec | funnels/sync_service.py:92-118 | a funnel with a list id of 0 or less is skipped; otherwise its rows are run |
| FunnelSync.SyncSpec | funnels/sync_service.py:86-87 | the language funnel, then, unless it raised, the non-language funnel |
| FunnelSync.RowsSpecUnfold | funnels/sync_service.py:92-104 | the pass handles the first candidate, then the rest |
| FunnelSync.RowsSpecAllAccepted | funnels/sync_service.py:92-118 | when Brevo accepts every contact, each candidate gives exactly one contact and one entry, in order |
| FunnelSync.AllAcceptedTail | funnels/sync_service.py:92-104 | acceptance of the whole pass carries over to the rest of it |
| FunnelSync.RowsSpecCallsMatchEntries | funnels/sync_service.py:150-200 | whatever Brevo answers, an entry is created only after its contact call: one call per entry, plus the failing call if one failed |
| FunnelSync.RowsSpecStopped | funnels/sync_service.py:92-104 | once an exception is raised, nothing more is processed |
| FunnelSync.NoRowsNoEffect | funnels/sync_service.py:106-118 | no candidates means no call and no entry |
| FunnelSync.ProcessedCandidateIsNotSelectedAgain | funnels/sync_service.py:16-23 | a language candidate processed in a successful run is not selected again afterwards |
| FunnelSync.FunnelSyncService.constructor | funnels/sync_service.py:25-47 | the service keeps its connection, gateway and list ids |
| FunnelSync.FunnelSyncService.ProcessCandidate | funnels/sync_service.py:150-200 | one contact call, and the entry only if it returned |
| FunnelSync.FunnelSyncService.SyncFunnel | funnels/sync_service.py:92-118 | the funnel's candidates in order, skipping the funnel when its list id is not positive, stopping at the first exception |
| FunnelSync.FunnelSyncService.Sync | funnels/sync_service.py:50-88 | both selections are read first; then the language funnel and the non-language funnel, in that order |
| PurchaseSync.EnsureDatetime | funnels/purchase_sync_service.py:120-140 | a datetime passes unchanged; anything else raises a ValueError |
| PurchaseSync.PurchaseRowFor | funnels/purchase_sync_service.py:73-79 | the lookup finds a row exactly when the selector finds a purchase |
| PurchaseSync.LookupTimesAreDatetimes | funnels/purchase_sync_service.py:86 | with the connector's datetimes a found row passes the time check, with the time of a qualifying payment |
| PurchaseSync.TypedDriverLookup | funnels/purchase_sync_service.py:73-86 | with the connector's datetimes every row the lookup finds carries a datetime |
| PurchaseSync.PurchaseContact | funnels/purchase_sync_service.py:142-178 | no lists, update enabled, and the three attributes funnel type, purchased = 1 and the ISO time |
| PurchaseSync.PurchaseContactKeepsLists | funnels/purchase_sync_service.py:152 | the request body carries no list ids, so list membership is left alone |
| PurchaseSync.PurchaseSpecUnfold | funnels/purchase_sync_service.py:70-71 | the loop handles the first entry, then the rest |
| PurchaseSync.PurchaseSpecStopped | funnels/purchase_sync_service.py:70-116 | once an exception is raised, nothing more is processed |
| PurchaseSync.StepWith | funnels/purchase_sync_service.py:81-116 | one turn of the loop given the lookup result: skip without a row, raise on a bad time, nothing on a dry run, otherwise the update, its commit and the Brevo call |
| PurchaseSync.PurchaseStep | funnels/purchase_sync_service.py:73-116 | one turn of the loop: the lookup for the entry, then that turn |
| PurchaseSync.PurchaseSpec | funnels/purchase_sync_service.py:70-116 | the loop over the pending entries, in order, stopping at the first exception |
| PurchaseSync.NoPurchaseSkips | funnels/purchase_sync_service.py:81-82 | an entry without a paid purchase changes nothing |
| PurchaseSync.PurchaseSpecConcat | funnels/purchase_sync_service.py:70-116 | the loop over two batches in a row is the loop over both |
| PurchaseSync.BadTimeRaises | funnels/purchase_sync_service.py:86 | when the run reaches a purchase time that is not a datetime, dry or not, it raises the fixed ValueError and keeps the table, statements, commits and calls of the entries before it |
| PurchaseSync.PurchaseSpecAdvance | funnels/purchase_sync_service.py:70-116 | after the i-th entry the loop goes on with the rest from the new state, or has ended there if it raised |
| PurchaseSync.DryRunChangesNothing | funnels/purchase_sync_service.py:95-102 | a dry run writes nothing, commits nothing and calls nothing; when every found row carries a datetime (as with the connector, `TypedDriverLookup`) it also raises nothing |
| PurchaseSync.GrewTransitive | funnels/purchase_sync_service.py:103-116 | the pairing of updates and calls composes over steps |
| PurchaseSync.PurchaseStepGrows | funnels/purchase_sync_service.py:103-116 | one entry adds as many UPDATEs as commits and contact calls, each call without lists |
| PurchaseSync.MarksPairWithContacts | funnels/purchase_sync_service.py:103-116 | over the whole run, every UPDATE comes with one commit and one contact call without lists |
| PurchaseSync.ProgressedTransitive | funnels/purchase_sync_service.py:103-110 | keeping keys and marks composes over steps |
| PurchaseSync.PurchaseStepProgresses | funnels/purchase_sync_service.py:103-110 | one entry never unmarks a row or changes its key columns |
| PurchaseSync.PurchaseSpecProgresses | funnels/purchase_sync_service.py:70-116 | the run never unmarks a row or changes its key columns |
| PurchaseSync.DetectedPurchasesAreMarked | funnels/purchase_sync_service.py:41-118 | after a run that was not dry and ended normally, every row matching an entry with a detected purchase is marked purchased |
| PurchaseSync.DetectedStepMarks | funnels/purchase_sync_service.py:103-110 | the step that detects a purchase marks every row that matches the entry |
| PurchaseSync.PurchaseSyncService.constructor | funnels/purchase_sync_service.py:20-39 | the service keeps its connection, gateway, dry-run flag and converters |
| PurchaseSync.PurchaseSyncService.UpdateBrevoContactAfterPurchase | funnels/purchase_sync_service.py:142-178 | one contact call with the purchase contact and the ISO time |
| PurchaseSync.PurchaseSyncService.ProcessEntry | funnels/purchase_sync_service.py:73-116 | one turn of the loop, as `PurchaseStep` says, keeping the table valid |
| PurchaseSync.PurchaseSyncService.Sync | funnels/purchase_sync_service.py:41-118 | the oldest pending batch is read once and processed in order until an exception |
| Outbox.ApplyMarks | brevo/sync_worker.py:67-102 | marks change job statuses and never the set of jobs |
| Outbox.IsPending | brevo/sync_worker.py:63 | a job is pending when its outbox row has the pending status |
| Outbox.OutboxTable.constructor | brevo/sync_worker.py:47-63 | the table opens with its jobs and statuses and no calls |
| Outbox.OutboxTable.FetchPendingJobs | brevo/sync_worker.py:63 | the first `limit` pending jobs, in table order |
| Outbox.OutboxTable.MarkJobSuccess | brevo/sync_worker.py:69-70 | the job's status becomes success |
| Outbox.OutboxTable.MarkJobError | brevo/sync_worker.py:76-102 | the job's status becomes the error with its message |
| Outbox.ApplyMarksConcat | brevo/sync_worker.py:67-102 | marks applied in two batches have the effect of one |
| SyncWorker.UpsertContactFor | brevo/sync_worker.py:129-150 | a missing email raises a ValueError; otherwise the payload's fields, with the contact defaults for absent ones |
| SyncWorker.PurchaseAttributes | brevo/sync_worker.py:169-179 | the payload's attributes with `CERTIFICATE_PURCHASED = 1` and the purchase time set over them, and the rest kept |
| SyncWorker.AfterPurchaseContactFor | brevo/sync_worker.py:152-188 | a missing email raises a ValueError; otherwise the payload's email and lists with the purchase attributes, update enabled |
| SyncWorker.ContactForJob | brevo/sync_worker.py:104-127 | invalid JSON and an unknown operation raise a ValueError naming the job; the two known operations build their contacts |
| SyncWorker.ErrorMessagesName | brevo/sync_worker.py:115-127 | each error text names its problem and the job's decoding error or operation type |
| SyncWorker.InvalidJsonMessage | brevo/sync_worker.py:118 | the text of the ValueError for a payload that is not JSON: job id and decoder message |
| SyncWorker.UnknownOperationMessage | brevo/sync_worker.py:125-127 | the text of the ValueError for an unknown operation: operation type and job id |
| SyncWorker.MarkFor | brevo/sync_worker.py:67-102 | an exception while building the contact or from Brevo marks the job failed with its message; otherwise success |
| SyncWorker.RunStep | brevo/sync_worker.py:68-102 | one job: the contact, the Brevo call when there is a contact, then the mark |
| SyncWorker.RunSpec | brevo/sync_worker.py:67-102 | the loop over the fetched jobs, in order; an exception in one job never stops the others |
| SyncWorker.RunStepMarks | brevo/sync_worker.py:67-102 | a job's mark does not depend on the marks before it |
| SyncWorker.RunSpecUnfold | brevo/sync_worker.py:67 | the run handles the first job, then the rest |
| SyncWorker.RunSpecLengths | brevo/sync_worker.py:63-102 | exactly one mark per fetched job and one call per job that yields a contact, earlier logs untouched |
| SyncWorker.RunSpecAdvance | brevo/sync_worker.py:67-102 | after the i-th job the run of the remaining jobs continues the run from the i-th job on |
| SyncWorker.RunSpecMarkAt | brevo/sync_worker.py:67-102 | the k-th mark names the k-th job; a job without a contact is marked with its error |
| SyncWorker.RunStepSent | brevo/sync_worker.py:67-102 | one job adds one mark, and one call exactly when it yields a contact |
| SyncWorker.RunSpecCallAt | brevo/sync_worker.py:67-102 | a job with a contact makes its call after the contacts of the jobs before it, and is marked success exactly when that call returns, otherwise with the exception's text |
| SyncWorker.BrevoSyncWorker.constructor | brevo/sync_worker.py:47-63 | the worker keeps its outbox, gateway and decoder |
| SyncWorker.BrevoSyncWorker.ProcessAndMark | brevo/sync_worker.py:67-102 | one job is processed and marked once, as `RunStep` says |
| SyncWorker.BrevoSyncWorker.RunOnce | brevo/sync_worker.py:47-102 | one fetch, then every fetched job processed and marked in order, as `RunSpec` says |
| Reports.ConversionRate | analytics/reports.py:23-37 | 0 without entries; otherwise purchases per hundred entries |
| Reports.FractionBounds | analytics/reports.py:35-37 | a share of a positive whole lies between 0 and 1, and equals 1 only for the whole |
| Reports.ConversionRateIsPercentage | analytics/reports.py:31-34 | for counts from the table the rate lies between 0 and 100, and is 100 exactly when every entry purchased |
| Reports.GetFunnelConversionReport | analytics/reports.py:40-149 | the report carries the type and period asked for, and counts that type's entries and purchases in the window, with purchases never above entries |
| Reports.CountFunnelEntries | analytics/reports.py:89-117 | the number of rows of the type entered in the period; at most the table size, and 0 exactly when there is no such row |
| Reports.CountFunnelPurchases | analytics/reports.py:120-149 | the number of purchased such rows; never more than the entry count, and 0 exactly when none is purchased |
| Reports.ReportAgreesWithSummary | analytics/reports.py:89-149 | the per-type report and the grouped summary give the same counts, and a type missing from the summary has none |
| ReportService.ConversionRate | analytics/report_service.py:33-35 | 0 without entries; otherwise purchases per entry |
| ReportService.RatesAgree | analytics/report_service.py:10-35 | this fraction is the per-funnel percentage divided by 100 |
| ReportService.ConversionRateIsFraction | analytics/report_service.py:33-35 | for counts from the table the rate lies between 0 and 1 |
| ReportService.ConversionOf | analytics/report_service.py:70-77 | a summary row becomes a conversion with its type and both counts |
| ReportService.AppendConversions | analytics/report_service.py:68-79 | the loop appends one conversion per summary row, in order, carrying that row's type and counts |
| ReportService.SummaryConversions | analytics/report_service.py:33-79 | the conversions of the summary rows each have an entry, a rate between 0 and 1 and distinct types |
| ReportService.GenerateConversionReport | analytics/report_service.py:38-79 | one conversion per summary row, in order, each with an entry, a rate between 0 and 1 and its own type |
| ReportJob.BuildPeriod | cli/report_job.py:35-42 | no bound for a non-positive day count; otherwise the `days` days ending now |
| ReportJob.BuildPeriodWindow | cli/report_job.py:35-42 | an entry is in the window exactly when it entered within `days` days before now; without days every entry is |

## Left out

- Network, HTTP and the Brevo service: the transport and the contact gateway are oracles (`HttpTransport.reply`, `ContactGateway.respond`) numbered by call, so retries, rate limits and timeouts are not modelled beyond the 10-second timeout value sent.
- Logging everywhere (logging_config/logger.py, every `logger.*` call) is not part of this model; it has no effect on state.
- `json.loads` in the worker is the `decode` oracle; payload fields of the wrong JSON type (an email that is not a string, say) are not modelled, the decoded payload is typed.
- The SQL engine: joins of `simpletest_users`, tests and languages are given pre-joined as `TestUser` rows, payments as `Payment` rows; column collation is a binary order (`StrLess`); the order among rows with equal sort keys, which SQL leaves open, is fixed by a stable sort in the model.
- Selectors.GetLanguageTestCandidates: states the bound and the eligibility of each candidate, not the most-recent-first order, which `LanguageCandidateUsers` and `LanguageCandidatesAreMostRecent` state before projection.
- Selectors.GetPendingFunnelEntries: states the bound and the origin of each entry; the oldest-first order is stated by `PendingRows` and `PendingRowsAreOldest` before projection.
- Limits are natural numbers; a negative `LIMIT`, which MySQL rejects, is not modelled.
- Database failures inside queries, updates or commits (lost connection, lock timeouts) are not modelled; only the unique-key violation of the insert is. Read-only queries are not written to the statement log, except the existence check.
- db/connection.py, app/main.py, brevo/outbox.py and funnels/models.py are not part of this model. The outbox is given the least behaviour the worker relies on, and the candidate record is a datatype.
- Text.ParseInt: models Python's `int()` for surrounding whitespace, one sign and ASCII digits; underscores between digits and non-ASCII digits are not modelled.
- Text.Strip and Text.Lower cover ASCII whitespace and ASCII case only; Unicode whitespace and case mapping are not modelled.
- Conversion rates are `real`, not floating point; rounding is not modelled.
- `datetime.utcnow()` is a parameter of `ReportJob.BuildPeriod`; `datetime.isoformat` is the `isoFormat` oracle of the purchase service; the type the database driver gives the payment time is the `driver` parameter.
- `load_dotenv` and the process environment are a map passed to `Settings.LoadSettings`; the `.env` file is not read.
- Settings.LoadSettings: states the API key and the dry-run default; the other fields are fixed by `Settings.DefaultSettings`, `GetEnv` and `LoadInteger` rather than stated field by field.
- The `sentry` settings section that tests/config/test_settings.py:66 reads is not defined by config/settings.py and is not modelled.
- The command-line parts of cli/report_job.py (`parse_arguments`, `main` and its printing) are not modelled; only `build_period` is.
- Time is an integer count of microseconds; time zones are not modelled.
