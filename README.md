# Captain tool integrations: a Dafny model of the Jira sync, archive jobs and OAuth flow

This project models the bookkeeping core of the Captain tool-integration service. The service pushes generated test cases to Jira, keeps each test case's Jira link and creation outcome in Firestore, and builds ZIP archives of a project's files in background jobs. The project proves properties of that model with Dafny.

Each source file maps to one or two modules:

- `values.dfy`: the JSON-like values Firestore documents hold, with Python's `.get`, truthiness, `str()` and `repr()`. Lists and dictionaries are written as Python writes them, e.g. `['Login works']`.
- `firestore.dfy`: `FirestoreDB` (gcp/firestore.py) as a class over an in-memory map from document path to document.
  - A ghost log records every write.
  - `Valid()` states that the map is the replay of that log over the initial store.
- `secrets.dfy`: the Secret Manager wrapper's path protocol, `projects/{P}/secrets/{name}`, and its version store.
- `storage.dfy`, `jira_client.dfy`: Cloud Storage and Jira, as collaborators.
  - Each call is appended to a request log.
  - Each call is answered by a fixed reply function indexed by call number.
  - Every property is proved for all reply functions, so for every way the services could answer.
- `origins.dfy`: the `ORIGINS` list parsed from `ALLOW_DOMAINS` (main.py:14).
- `utilities.dfy`: `map_testcase_to_jira_payload`.
- `batching.dfy`: the selection filters and the slices of 40.
- `effects.dfy`: traces of store writes and service requests, and the version-status sequence a trace writes.
- `alm_sync.dfy`, `alm_properties.dfy`: `background_issue_creation_on_alm` and `sync_testcases_on_alm`.
- `single_create.dfy`: `background_creation_specific_testcase_on_tool`.
- `legacy_sync.dfy`, `legacy_properties.dfy`: the older `create_on_jira` with its `found_match` loop.
- `archive_jobs.dfy`, `archive_properties.dfy`, `zip_all_properties.dfy`: the three ZIP download tasks and the job-status lifecycle; the last file proves which URLs the zip-all task fetches and which entries it keeps.
- `jira_router.dfy`, `router_properties.dfy`: the Jira OAuth endpoints `connect`, `auth/callback` and `projects/list`.
- `dependencies.dfy`: the latest-version request guard.

Imperative code stays imperative:

- The orchestrators, the reconciliation loops, the ZIP loops and the endpoints are methods over the store and collaborator objects.
- Each method's `ensures` ties the new store log and request log to a specification function of the old state.
- The lemmas then prove what the source promises about those functions.
  - exactly one update per requested test case;
  - the order of status phases;
  - the job lifecycle;
  - archive entry names;
  - the OAuth state checks.

## Model

| member | source | states |
|---|---|---|
| Origins.Origins | main.py:14 | every origin is non-empty and has no surrounding whitespace; there are at most one more origins than commas |
| Origins.AllowedOrigins | main.py:12-14 | an unset `ALLOW_DOMAINS` gives no origins; every origin is non-empty and stripped |
| Origins.OriginsJoin | main.py:14 | the origins of `a,b` are the origins of `a` followed by those of `b`, so the comma-separated order is kept |
| Origins.OriginsSingle | main.py:14 | one comma-free, non-blank domain yields exactly its stripped form |
| Origins.OriginsOfEmpty | main.py:12-14 | an empty setting, the default when the variable is unset, yields no origins |
| Origins.OriginsBlank | main.py:12-14 | a value made only of commas and whitespace (the empty default included) yields no origins |
| Utilities.PayloadFields | projects/utilities.py:1-33 | mapping succeeds unless the description must be extended and is neither text nor a list; labels are `AI_Generated`, `Created_by_Captain`, `Testcase` then the test case id; summary is the title unchanged; priority defaults to `Medium`; issue type `Task`; project key is the argument |
| Utilities.AppendTextCases | projects/utilities.py:8 | `+=` on a string concatenates, on a list extends by characters, and raises on anything else |
| Values.StrReprRoundTrip | projects/utilities.py:8 | a string's `repr`, as the f-string writes it inside a list, is the string between its quotes, escaped so that reading it back gives the string |
| Values.PlainRepr | projects/utilities.py:8 | a plain string is written `'s'`, and a list of it `['s']` |
| Utilities.DescriptionWithAcceptance | projects/utilities.py:5-8 | for any project key, a truthy acceptance criterion is appended as `\n\n*Acceptance Criteria:*\n{acceptance}`, with `str()` of the criteria |
| Utilities.DescriptionWithCriteriaList | projects/utilities.py:5-8 | a one-element list of criteria is appended as `['criterion']`, the list's repr |
| Utilities.DescriptionWithoutAcceptance | projects/utilities.py:5-20 | without acceptance criteria the description is unchanged, and a missing description gives empty text |
| Utilities.DescriptionTypeError | projects/utilities.py:5-8 | a description that is neither text nor a list, with acceptance criteria, makes the mapping raise |
| Utilities.PayloadCarriesId | projects/utilities.py:26-31 | a mapped payload carries four labels, the provenance label among them and the test case id last |
| Utilities.ToJsonFields | projects/utilities.py:10-33 | the JSON payload's `fields` hold project key, summary, description document, issue type, priority and labels as built |
| Utilities.DescriptionDocumentText | projects/utilities.py:14-23 | the description is a `doc` of version 1 whose one paragraph holds one text node with the description text |
| Utilities.MapAllPayloads | projects/background_functions.py:80-82 | a batch maps exactly when every test case maps, giving one payload per test case in order |
| Batching.Filter | projects/background_functions.py:61-67 | the filtered list holds exactly the elements that pass, and is no longer than the input |
| Batching.CreatedNotReselected | projects/background_functions.py:61-67 | a test case already marked `toolCreated: SUCCESS` is never selected for creation again |
| Batching.BatchesPartition | projects/background_functions.py:75-78 | the batches concatenate back to the list, number ceil(n/40), and each holds 1 to 40 test cases |
| Batching.BatchIsSlice | projects/background_functions.py:77-78 | batch j is the slice starting at 40*j |
| Firestore.SecretRecord | gcp/firestore.py:53-63 | the `where uid ==` query finds a record exactly when one exists for the user, and returns that record |
| Firestore.FirestoreDB.GetConnectionStatus | gcp/firestore.py:20-23 | connected exactly when the user's secret-index document exists |
| Firestore.FirestoreDB.SaveAuthState | gcp/firestore.py:25-31 | sets the state document; afterwards the saved state is the one given |
| Firestore.FirestoreDB.GetAuthState | gcp/firestore.py:33-43 | returns the saved state (None when absent) and deletes it, so none is left |
| Firestore.FirestoreDB.SaveSecretPath | gcp/firestore.py:45-51 | records `{uid, secret_path}`; the user is then connected and the query returns that record |
| Firestore.FirestoreDB.GetSecretPath | gcp/firestore.py:53-63 | returns the user's secret record or None |
| Firestore.FirestoreDB.CreateProject | gcp/firestore.py:65-90 | writes the project, its first version, then links `latest_version`; no other document changes |
| Firestore.FirestoreDB.GetProjectDetails | gcp/firestore.py:92-100 | returns the project document or None |
| Firestore.FirestoreDB.GetTestcases | gcp/firestore.py:102-113 | lists every test case of the version exactly once |
| Firestore.FirestoreDB.UpdateVersion | gcp/firestore.py:115-122 | merges the fields into an existing version document, and fails on a missing one |
| Firestore.FirestoreDB.UpdateRequirement | gcp/firestore.py:124-136 | merges the fields into an existing requirement document, and fails on a missing one |
| Firestore.FirestoreDB.UpdateTestcase | gcp/firestore.py:138-152 | merges the fields into an existing test case document, and fails on a missing one |
| Firestore.FirestoreDB.GetVersionDetails | projects/background_functions.py:233 | returns the version document or None |
| Firestore.FirestoreDB.GetTestcaseDetails | projects/background_functions.py:292 | returns the test case document or None |
| Firestore.FirestoreDB.UpdateDownloadJobStatus | projects/background_functions.py:231-279 | merges the status and its keyword fields into the job document, creating it when missing |
| Firestore.AuthStateOneShot | gcp/firestore.py:39-43 | after the state is consumed, a second read finds none |
| Firestore.SaveAuthStateOverwrites | gcp/firestore.py:25-31 | a second save for the same tool and user replaces the first |
| Firestore.SecretPathRoundTrip | gcp/firestore.py:45-63 | after saving a secret path the user is connected, and the query returns `{uid, secret_path}` |
| Firestore.NoSecretRecord | gcp/firestore.py:58-63 | with no record for the user the query returns None and the user is not connected |
| Firestore.CreateProjectLinks | gcp/firestore.py:65-90 | the project's `project_id` is its own id and its `latest_version` is the new version; the version is `CREATED` and points to its project |
| Firestore.UpdateOnlyAddressed | gcp/firestore.py:115-152 | an update changes only the addressed document, and in it only the given fields |
| Firestore.ProjectDetailsMissing | gcp/firestore.py:92-100 | a project id with no document gives None |
| Firestore.ProjectDetailsAfterVersionUpdate | gcp/firestore.py:115-122 | a version update leaves its project's details as they were |
| Secrets.SecretPath | gcp/secret_manager.py:33-34 | a secret path starts with `projects/` |
| Secrets.NameOfSecretPath | gcp/secret_manager.py:33-34 | the last `/` segment of `projects/{P}/secrets/{name}` is `name` exactly when `name` has no `/` |
| Secrets.AddVersion | gcp/secret_manager.py:49-55 | the new payload becomes the secret's latest version; other secrets are unchanged |
| Secrets.SecretManager.StoreSecret | gcp/secret_manager.py:28-57 | returns `projects/{P}/secrets/{name}` and adds the payload as that secret's newest version |
| Secrets.SecretManager.GetSecret | gcp/secret_manager.py:59-65 | returns the secret's latest version |
| AlmSync.FirstMatchIsFirst | projects/background_functions.py:143-146 | the match is an issue whose labels contain the id, and no earlier issue's labels do |
| AlmSync.ReconcileTestcases | projects/background_functions.py:142-162 | writes one update per requested id, in order; stops at the first id with no document, as the raising update does |
| AlmSync.SyncTestcasesOnAlm | projects/background_functions.py:130-165 | one search for `Created_by_Captain` issues, then the reconciliation writes; a failure anywhere ends quietly |
| AlmSync.BatchIdsInOrder | projects/background_functions.py:92 | the ids are read in batch order, and reading fails exactly when some test case lacks `testcase_id` |
| AlmSync.RunBatch | projects/background_functions.py:84-96 | one bulk create, then a sync only when the create succeeded and every id was read |
| AlmSync.CreateNewIssues | projects/background_functions.py:75-96 | runs the batch loop as the create phase specifies: every batch in order, each failure caught inside |
| AlmSync.UpdateDeprecatedIssues | projects/background_functions.py:107-118 | one issue update per deprecated test case, whatever earlier updates answered |
| AlmSync.FinishPhases | projects/background_functions.py:105-127 | after a completed create phase writes `UPDATE_ALM_DEP_ISSUES`, the updates, then `COMPLETE_ALM_ISSUE_CREATION`; otherwise `ERR_ALM_ISSUE_CREATION` |
| AlmSync.BackgroundIssueCreationOnAlm | projects/background_functions.py:30-127 | the store writes and Jira requests are exactly those of the run specification |
| AlmSync.AlmRunNoVersion | projects/background_functions.py:34-42 | a missing version document makes the first status update raise; nothing is written and the error escapes |
| AlmSync.AlmRunIncomplete | projects/background_functions.py:44-54 | missing site id, site domain or project key: `START_ALM_ISSUE_CREATION` then `ERR_ALM_ISSUE_CREATION`, with no Jira call |
| AlmSync.AlmRunListed | projects/background_functions.py:56-122 | with complete details: start, create status, the create phase, then the finishing writes and deprecation updates |
| AlmSync.CreatePhaseStops | projects/background_functions.py:80-82 | a payload that fails to map raises outside the batch's own `try`, ending the phase with nothing further |
| AlmSync.BatchTraceCreateOnly | projects/background_functions.py:84-96 | a failed bulk create or an unreadable id list writes nothing |
| AlmSync.BatchTraceSynced | projects/background_functions.py:84-93 | a successful bulk create is followed by that batch's sync |
| AlmProperties.OutcomeSuccess | projects/background_functions.py:143-162 | `SUCCESS` with the key and link of the first labelled issue exactly when such an issue exists, otherwise `{toolCreated: FAILED}` |
| AlmProperties.ReconcileOnePerId | projects/background_functions.py:142-162 | the k-th write updates the k-th id's document with its outcome; every id is written exactly when all their documents exist |
| AlmProperties.SyncOneUpdatePerId | projects/background_functions.py:130-165 | at most one search, for the provenance label; a failed search writes nothing; otherwise one update per id |
| AlmProperties.LastWriteWins | projects/background_functions.py:142-162 | when an id repeats, its document ends with the fields of the last update |
| AlmProperties.RerunSkipsSynced | projects/background_functions.py:61-67 | a test case reconciled as `SUCCESS` is not selected for creation on the next run |
| AlmProperties.CreatePhaseWritesTestcases | projects/background_functions.py:75-96 | the batch loop writes only test case documents |
| AlmProperties.StatusesOfFinish | projects/background_functions.py:105-127 | the finishing status writes are `UPDATE` then `COMPLETE`, or `ERR` alone |
| AlmProperties.AlmStatusPhases | projects/background_functions.py:34-127 | the version status goes `START`, `CREATE`, `UPDATE`, `COMPLETE`; or `START`, `ERR` on incomplete details; or `START`, `CREATE`, `ERR` when a payload fails to map |
| AlmProperties.BatchBulkPayloads | projects/background_functions.py:80-85 | each batch sends one bulk create with its payloads |
| AlmProperties.CreatePhaseCompletes | projects/background_functions.py:77-96 | the create phase completes exactly when every test case maps to a payload |
| AlmProperties.CreatePhaseBulkCreates | projects/background_functions.py:75-85 | a completed phase sends one bulk create per batch of at most 40, covering the selected test cases in order |
| AlmProperties.DeprecationRequestsEach | projects/background_functions.py:98-118 | one update per deprecated test case, in order, setting `summary` to the title |
| SingleCreation.BackgroundCreationSpecificTestcaseOnTool | projects/background_functions.py:168-220 | the writes, requests and raised error are those of the single-run specification |
| SingleCreation.SingleIncompleteDoesNothing | projects/background_functions.py:170-178 | incomplete project details: returns with no Jira call and no write |
| SingleCreation.SingleWritesOnce | projects/background_functions.py:168-220 | at most one test case update, none when it raises; any error surfaces as 500 |
| SingleCreation.SingleRecordsOutcome | projects/background_functions.py:184-212 | searches by the test case's own label and writes the same outcome as reconciliation |
| LegacySync.FindMatch | projects/functions.py:92-111 | the `found_match` loop stops at the first issue carrying the id |
| LegacySync.CreateBatches | projects/functions.py:46-57 | one legacy bulk create per slice of 40, failures ignored |
| LegacySync.MatchTestcases | projects/functions.py:86-116 | runs the per-test-case loop as specified, skipping test cases without an id |
| LegacySync.SyncPhase | projects/functions.py:72-118 | one label search; on failure `ERR_JIRA_SYNC`, otherwise the matching writes then `COMPLETE_JIRA_SYNC` |
| LegacySync.CreateAndSync | projects/functions.py:41-118 | the batch creates and the sync phase, as specified |
| LegacySync.FinishAndSync | projects/functions.py:59-118 | `COMPLETE_JIRA_CREATION`, `START_JIRA_SYNC`, then the sync writes |
| LegacySync.CreateOnJira | projects/functions.py:14-121 | the writes, requests and returned message are those of the legacy run specification |
| LegacySync.LegacyRunUsable | projects/functions.py:27-118 | with usable details and test cases: the start status, then creation and sync |
| LegacySync.UsableTraceParts | projects/functions.py:46-118 | the creates come first, then one search; the writes are the two phase statuses then the sync writes |
| LegacyProperties.MatchFieldsOutcome | projects/functions.py:92-116 | `{toolIssueLink, created: SUCCESS}` from the first labelled issue exactly when one exists, else `{created: FAILED}` |
| LegacyProperties.MatchOnePerId | projects/functions.py:86-116 | one update per test case that has an id, in order; the loop completes exactly when every such document exists |
| LegacyProperties.MatchedIdsTruthy | projects/functions.py:86-90 | only truthy ids are reconciled |
| LegacyProperties.MatchLoopTestcaseWrites | projects/functions.py:86-116 | the matching loop writes only test case documents |
| LegacyProperties.BulkRequestsEach | projects/functions.py:46-57 | request k is the bulk create of batch k |
| LegacyProperties.LegacyCreations | projects/functions.py:27-75 | no Jira call unless the version, test cases and details are present; then ceil(n/40) creates over all test cases with no filter, then one search |
| LegacyProperties.StatusesOfSyncWrites | projects/functions.py:72-118 | the sync writes status `ERR_JIRA_SYNC`, `COMPLETE_JIRA_SYNC`, or none when an update raises |
| LegacyProperties.LegacyStatusPhases | projects/functions.py:14-121 | status stays at `START_JIRA_CREATION` with no test cases; `START`, `ERR_JIRA_CREATION` without site id or key; otherwise `START`, `COMPLETE_CREATION`, `START_SYNC` then the sync outcome |
| LegacyProperties.LegacyUsableWrites | projects/functions.py:59-69 | `COMPLETE_JIRA_CREATION` and `START_JIRA_SYNC` follow the start status, before any sync write |
| LegacyProperties.LegacySearchFailsNoUpdate | projects/functions.py:72-84 | a failed label search ends in `ERR_JIRA_SYNC` with no test case updated |
| ArchiveJobs.JobWrites | projects/background_functions.py:231-279 | each job status becomes one merge-write of its fields into the job document |
| ArchiveJobs.RecordStatus | projects/background_functions.py:231 | one job-document write; no other document changes |
| ArchiveJobs.PackStep | projects/background_functions.py:253-264 | a non-string URL raises; a non-`gs://` URL is skipped; a `gs://` URL is fetched and kept only when the fetch succeeds |
| ArchiveJobs.WriteEntries | projects/background_functions.py:252-264 | the loop's entries, fetches and outcome are those of the packing specification |
| ArchiveJobs.WriteAllEntries | projects/background_functions.py:348-364 | the nested loop packs each test case's datasets in turn, as specified |
| ArchiveJobs.FinishJob | projects/background_functions.py:266-279 | upload then `completed`, or `failed` when packing or the upload raised |
| ArchiveJobs.BackgroundDocumentZipTask | projects/background_functions.py:223-279 | the job writes and storage requests are those of the document-job specification |
| ArchiveJobs.BackgroundTestcaseZipTask | projects/background_functions.py:282-329 | the job writes and storage requests are those of the test-case-job specification |
| ArchiveJobs.BackgroundZipAllTask | projects/background_functions.py:332-377 | the job writes and storage requests are those of the zip-all specification |
| ArchiveProperties.PackUrlsContents | projects/background_functions.py:253-264 | packing succeeds exactly when every URL is a string; then it fetches exactly the `gs://` URLs in order, and the entries are the successful fetches |
| ArchiveProperties.KeptAll | projects/background_functions.py:257-261 | when every fetch succeeds, entry k is named after URL k and holds its content |
| ArchiveProperties.KeptNone | projects/background_functions.py:262-264 | when every fetch fails the archive is empty |
| ArchiveProperties.KeptNames | projects/background_functions.py:259-261 | every entry is named `{zip_name}.` followed by its extension |
| ArchiveProperties.EntryNameExtension | projects/background_functions.py:259-261 | the entry name's extension is the URL's text after its last `.` |
| ArchiveProperties.FailedFetchSkipped | projects/background_functions.py:253-274 | a failed fetch is skipped and a non-`gs://` link is never fetched; the job still completes |
| ArchiveProperties.FinishLifecycle | projects/background_functions.py:266-279 | `in_progress`, then one terminal status; `completed` with `{zip_name}.zip` exactly when packing and upload succeeded |
| ArchiveProperties.JobsLifecycle | projects/background_functions.py:230-377 | each of the three tasks writes `in_progress` and then exactly one terminal status |
| ArchiveProperties.DocumentNothingFound | projects/background_functions.py:233-246 | no version or no files fails with `No documents found`; it and the missing-document failure make no fetch or upload |
| ArchiveProperties.TestcaseNothingFound | projects/background_functions.py:292-296 | no test case or no datasets fails with `No datasets found`, before any fetch |
| ArchiveProperties.ZipAllWithoutDatasets | projects/background_functions.py:336-374 | with no datasets at all, zip-all uploads an empty archive and completes |
| ArchiveProperties.PackUrlsFetchesGs | projects/background_functions.py:253-256 | only `gs://` URLs are fetched |
| ArchiveProperties.PackAllFetchesGs | projects/background_functions.py:349-352 | zip-all fetches only `gs://` URLs |
| ZipAllProperties.PackAllGroups | projects/background_functions.py:348-364 | the zip-all loop equals the same loop with each test case's entry-name prefix drawn from a prefix function, the one naming entries `{testcase_id}-{version}-{project}` |
| ZipAllProperties.PackGroupsContents | projects/background_functions.py:348-364 | for any entry-name prefix function, the zip-all loop runs to its end iff every test case's datasets are iterable strings; it then fetches every `gs://` URL in order and keeps exactly the successful fetches; when it raises, what it fetched is a prefix of those URLs |
| ZipAllProperties.PackAllContents | projects/background_functions.py:348-364 | the zip-all loop runs to its end iff every selected test case's datasets are iterable and hold only strings; it then fetches every `gs://` URL of every test case in order and keeps exactly the successful fetches, named after their test case; when it raises, what it fetched is a prefix of those URLs |
| ZipAllProperties.ZipAllJobFetches | projects/background_functions.py:338-377 | zip-all fetches all `gs://` datasets in order and uploads the kept entries, or fails without uploading when some dataset list is not all strings |
| ArchiveProperties.PackAllEntryNames | projects/background_functions.py:355-361 | every zip-all entry is named after its test case id and `{version}-{project}` |
| ArchiveProperties.TestcaseJobFetches | projects/background_functions.py:298-321 | the test case task fetches exactly its `gs://` datasets in order, then uploads the successful ones |
| ArchiveProperties.DocumentUrlsNone | projects/background_functions.py:239-240 | when no file is named `doc_name`, nothing is selected |
| ArchiveProperties.DocumentUrlsOnly | projects/background_functions.py:239-240 | when one file is named `doc_name`, its `url` is selected, or `''` when it has none |
| ArchiveProperties.DocumentJobFetches | projects/background_functions.py:239-270 | no file named `doc_name` fails the job with no call; one such file with a string URL is fetched iff it is a `gs://` URL, then the successful fetch is uploaded |
| ArchiveProperties.DocumentWithoutUrl | projects/background_functions.py:240-255 | a named file without `url` is selected as `''`, which is skipped, so an empty archive is uploaded |
| ArchiveProperties.DocumentJobNames | projects/background_functions.py:250-274 | the upload goes to `jobs/{job_id}/archive.zip` as `application/zip`; the file name is `{doc}-{version}-{project}.zip` and entries share that stem |
| ArchiveProperties.TestcaseJobNames | projects/background_functions.py:301-325 | the same naming for `{testcase}-{version}-{project}` |
| ArchiveProperties.ZipAllJobNames | projects/background_functions.py:346-374 | the same naming for `{version}-{project}`, with entries prefixed by the test case id; only `gs://` fetches |
| JiraRouter.JiraConnect | tools/jira/router.py:39-65 | the response and store writes are those of the connect specification |
| JiraRouter.JiraAuthCallback | tools/jira/router.py:68-118 | the response, store writes, Jira requests and stored secrets are those of the callback specification |
| JiraRouter.GetTokens | tools/jira/router.py:145-149 | reads the access and refresh tokens from the secret's latest version, or raises |
| JiraRouter.CollectSites | tools/jira/router.py:167-174 | the loop builds the `{id, name, url}` site list as specified, or raises on a missing key |
| JiraRouter.ListProjects | tools/jira/router.py:160-178 | re-reads the tokens, looks up the sites and lists the projects as specified |
| JiraRouter.LookupWithRefresh | tools/jira/router.py:151-178 | the first lookup, then the refresh on 401, then the listing, as specified |
| JiraRouter.JiraProjects | tools/jira/router.py:121-185 | the response, Jira requests and stored secrets are those of the project-listing specification |
| RouterProperties.StateRoundTrip | tools/jira/router.py:54-85 | the callback recovers the user id from `user_uid_{uid}` exactly when the id has no `_` |
| RouterProperties.TokenSecretRoundTrip | tools/jira/router.py:104-157 | the refresh recovers `jira-tokens-{uid}` from its path exactly when the id has no `/` |
| RouterProperties.ConnectSavesState | tools/jira/router.py:45-65 | a missing user id gives 500 with nothing written; otherwise the redirect URL is returned and the state is saved |
| RouterProperties.CallbackGuards | tools/jira/router.py:74-118 | 400 exactly when code or state is missing, touching nothing; 401 exactly when the state is not the saved one; tokens exchanged only for a valid state and stored only as `jira-tokens-{uid}` |
| RouterProperties.CallbackConsumesState | tools/jira/router.py:93-98 | a callback that reads the saved state leaves none behind |
| RouterProperties.StateSingleUse | tools/jira/router.py:93-98 | replaying the same state answers 401 with no token exchange |
| RouterProperties.ConnectThenCallback | tools/jira/router.py:54-110 | connect followed by the callback exchanges the code once and stores the tokens and the secret path for that user |
| RouterProperties.SitesOfShape | tools/jira/router.py:167-174 | the site list exists exactly when every site has `id`, `name` and `url`, and holds those three per site |
| RouterProperties.ListRunShape | tools/jira/router.py:160-185 | the listing answers JSON or 500, writes nothing and never refreshes |
| RouterProperties.ProjectsGuards | tools/jira/router.py:126-185 | 400 exactly without a user id; 500 with no call when not connected; at most one refresh, only after a 401, re-stored under the path's last segment |
| RouterProperties.RefreshedTokensUsed | tools/jira/router.py:153-166 | for a user connected through the callback, the second lookup uses the refreshed access token |
| Dependencies.CheckLatestProjectVersion | projects/dependencies.py:8-35 | the guard answers True or raises 404, 403 or 500 |
| Dependencies.VerdictMeaning | projects/dependencies.py:12-35 | True exactly for the recorded latest version; 404 exactly for a missing or empty project; 403 exactly for another version; 500 exactly when the read failed |
| Dependencies.CreatedVersionIsLatest | projects/dependencies.py:21-29 | right after `create_project`, only the version it created passes the guard; every other version gets 403 |

## Left out

- Network and cloud services are not executed.
  - Jira, Cloud Storage, Secret Manager and Firestore are modelled as the state and replies described above.
  - The Jira authorization URL (`get_authorization_url`) is a function given to the client.
  - Every Jira and storage call may fail, as an arbitrary reply.
  - Secret Manager writes and reads are assumed not to fail.
- Several Jira client methods are not defined in tools/jira/client.py:
  - `create_bulk_issues`, `search_issues`, `search_issues_by_label`, `create_issue`, `update_issue`, `get_cloud_ids`.
  - Its `get_projects` takes one argument where the router passes two.
  - They are modelled as calls whose only contract is what the call sites use: an issue has `key`, `url` and `labels`, and a call may fail.
  - With the client as shipped, the project listing would always answer 500.
- Three operations the background tasks call are not defined in gcp/firestore.py:
  - `update_download_job_status`, modelled as a merge-write of `status` and its keyword fields into a job document;
  - `get_version_details` and `get_testcase_details`, modelled as document reads.
- `get_file_from_gcs` is not defined in gcp/storage.py, and `upload_file_to_gcs` is called with three arguments but declared with five. Both are modelled as storage calls.
  - Because projects/background_functions.py:13 imports `get_file_from_gcs`, importing that module raises ImportError as shipped. None of its background tasks (the Jira tasks and the three archive tasks) could run. The model describes them as if the import succeeded.
- ZIP/DEFLATE encoding and `BytesIO` are not modelled. The archive is the sequence of (name, bytes) entries written.
- Exception texts are not modelled: `str(e)` in a failed job is recorded as an absent message, and the logs and prints are dropped.
- `time.sleep(0.5)` is not modelled: there is no clock.
- The implicit-processing invocations (projects/background_functions.py:380-445), the `/status` endpoint (tools/jira/router.py:24-36), projects/router.py, authentication, the app and CORS wiring apart from main.py:14, and concurrent runs are not part of this model.
- Firestore details:
  - `create_project` draws fresh document ids; the model takes them as parameters.
  - The order of `get_testcases` is the store's; the model holds for any order.
  - The `where('uid', ==)` query is modelled as a lookup by document id. `save_secret_path` is the only writer of those documents and always stores the id as `uid`; the invariant `SecretIndexWellFormed` records this.
- JSON `dumps`/`loads` round-trips exactly, so a stored token payload is the reply value itself.
- User ids, query parameters and the `uid` claim are strings or absent, and an empty string counts as absent because Python treats it as falsy.
- The `IndexError` branch of the callback (tools/jira/router.py:86-90) cannot occur, because `split` always returns at least one piece. The model has no such branch.
- JiraRouter.TokensRun: a secret record whose `secret_path` is not a string would make the refresh's `split` raise. The model instead takes the last segment of its `str()` form. Records written by the callback always hold a string path.
- Values.Repr: characters beyond Latin-1 are written unescaped. Python's `repr` writes the non-printable ones among them as `\u`/`\U` escapes, which needs the Unicode character database. Floats are not among the modelled values.
- Dependencies.CheckLatestProjectVersion: the only read that can raise is the store lookup. Its failure is the parameter `raised`, and the 500 detail is FastAPI's default phrase.
