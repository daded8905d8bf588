# Underwriting workbench: job lifecycle and upload paths in Dafny

This project models the deterministic core of the underwriting workbench. In
the workbench, an insurance application PDF is uploaded, a job record is
created for it, the document is split into pages, and each page and then the
whole application are analysed by a language model. The model covers the
services that carry a job through that lifecycle, plus the browser-side
helpers that start it:

- **Worker** (`worker.py`, module `Worker`): the read-merge-upsert status
  update, the blob-path split, page numbering, the per-page fallback of the
  analysis, and `process_job` as a run that records every write and service
  call in order. The run ends `completed` or writes `failed` and re-raises.
- **Retry helper** (`worker.py`, module `Retry`): `with_retries` as a loop
  over a given sequence of call outcomes, with the delays it sleeps.
- **Upload service** (`api-server.py`, module `ApiServer`):
  - connection-string parsing, where the last occurrence of a key wins;
  - the credential checks before a SAS URL is signed;
  - job creation, the `container/jobId/filename` blob path and the queued
    message;
  - the read guards of the analysis and chat endpoints.
- **Azure HTTP handler** (`azure-version/functions/api_handler/__init__.py`,
  module `ApiHandler`): route dispatch, the account regular expressions,
  single and batch upload, and status and field normalisation.
- **Blob-triggered extractor**
  (`azure-version/functions/document_extract/__init__.py`, module
  `DocumentExtract`): the file name, the page list, and the update of the
  first matching job.
- **Upload trigger** (`cdk/lambda-functions/trigger-workflow/index.py`,
  module `TriggerWorkflow`): record filtering, execution names, and the
  200/207 summary.
- **Mock development API** (`dev_api.py`, module `DevApi`): an
  insertion-ordered job dictionary with its upload, batch, list, get,
  mock-upload and completion transitions.
- **Upload page** (`frontend/src/App.tsx`, module `UploadPage`): PDF
  validation of a selection, the choice between single and batch upload,
  the checks on the upload responses, and the status of a date group.
- **Cognito PKCE client** (`frontend/src/utils/cognitoOAuth.ts`, module
  `CognitoOAuth`):
  - the verifier alphabet of section 4.1 of RFC 7636;
  - the base64url step of section 5 of RFC 4648;
  - the `state` check of section 10.12 of RFC 6749;
  - token storage, expiry, sign-out and refresh.
- **Azure redirect configuration** (`frontend/src/config/azure.ts`, module
  `AzureConfig`): redirect-URI resolution.

Shared modules hold the vocabulary of the model:

- `Wrappers`: `Option` and `Result`.
- `Strings`: Python-style split, join, replace and integer rendering.
- `Json`: JSON values and Python dictionary access.
- `Inference`: a model reply, which is a failed call or content that may be
  `null`.
- `Http`: responses.

A job record is a `map<string, Json>`. A Cosmos container is a map from item
id to record, or a sequence where query order matters.

Everything outside the repository's own logic is a parameter, either a value
or a function-typed oracle that succeeds or fails:

- clocks, UUIDs and random bytes;
- the cloud SDKs: Cosmos, Blob/SAS, Service Bus, Step Functions and the
  model endpoint;
- PDF reading, `json.loads` of model replies, `unquote_plus`, SHA-256 with
  `btoa`, and the browser's `URL` parser.

## Model

| member | source | states |
|---|---|---|
| Retry.Backoff | worker.py:194-197 | The delays slept after failed attempts 1..k are, in order, base_delay·factor^(a-1) for each attempt a |
| Retry.WithRetries | worker.py:183-199 | At most max_retries calls. The first successful call's value is returned after only failures before it, and a success is returned iff some attempt up to max_retries succeeds. Otherwise the last exception is re-raised, or the bare-`None` raise when max_retries < 1. There is one sleep after each failed attempt except the last |
| Worker.MergeStatus | worker.py:213-227 | The merged record always carries the new status and updatedAt. progress, extractedData, analysis and error are overwritten exactly when given, and every other field of the record is kept. No other key appears |
| Worker.UpdateJobStatus | worker.py:202-234 | A missing item raises the read error and changes nothing. Otherwise only that item is replaced, by the merge of the stored item |
| Worker.ParseBlobPath | worker.py:240-245 | A path with no '/' is rejected with the "Invalid blob path format" error. Otherwise the container has no '/', and container + "/" + blob name gives back the path, so the blob name may hold further '/' |
| Worker.PageEntry | worker.py:274-278 | A page entry has exactly the keys page, text and pageType, with pageType "unknown" |
| Worker.ExtractPages | worker.py:262-282 | One entry per page text, entry i numbered i+1, in page order |
| Worker.AnalyzePage | worker.py:289-328 | The page analysis never raises. It is the parsed reply, {"raw_analysis": reply} when the reply does not parse, and {"error": message} when the call fails or the reply is null. Its result fails to be a dictionary iff the reply parses to something else |
| Worker.AnnotatePage | worker.py:417-420 | Attaching an analysis succeeds iff it is a dictionary, and otherwise raises "'<type>' object has no attribute 'get'". The entry gains analysis, pageType = documentType or "unknown" and keyValues = keyValues or {}, and keeps every other key |
| Worker.ComprehensiveAnalysis | worker.py:331-381 | Succeeds iff the call answers with content that does not parse or parses to a dictionary. A parsed dictionary keeps its keys and gains completedAt = now. Unparsable content becomes exactly summary = the reply, empty risks and recommendations, and completedAt. A failed call is re-raised, a null reply raises json.loads's TypeError, and a parsed list raises the indexing error |
| Worker.ExtendsTrans | worker.py:384-460 | A run that extends a run extending a third run extends that third run: steps are only ever appended |
| Worker.Write | worker.py:202-234 | Within a run, a status write appends exactly that write and merges the job's record. A missing job raises, and the store and steps are unchanged. No other job's record changes |
| Worker.CallExtends | worker.py:405-434 | Recording a service call extends the run |
| Worker.PageEventsInOrder | worker.py:412-422 | The per-page steps for n pages are 2n long. Step 2j writes progress "page j+1 of n" (currentPage j+1, totalPages n) and step 2j+1 analyses page j+1 |
| Worker.AnalyzeStep | worker.py:412-420 | One page: a progress write, then the analysis call, then the entry annotated with the analysis. A missing job raises the read error. Otherwise the step raises exactly the error of attaching that page's analysis, or nothing |
| Worker.PageFaultAt | worker.py:417-420 | Attaching page i's analysis raises nothing iff that analysis is a dictionary |
| Worker.PageFault | worker.py:411-420 | The error of the first page from k on whose analysis cannot be attached. It is absent iff every such analysis is a dictionary |
| Worker.AttachPage | worker.py:417-420 | The analysis call is recorded and the store is untouched. The step raises exactly the attach error of the page, and otherwise yields the annotated entry |
| Worker.AnalyzeNext | worker.py:411-420 | One more page either keeps the loop invariant or stops the loop with the first failing page's error, or the read error of a missing job |
| Worker.AnalyzePages | worker.py:411-420 | The page loop yields one annotated entry per page in order, with progress writes 1..n. For an existing job it raises exactly the error of the first page whose analysis is not a dictionary. For a missing job it raises the read error unless there are no pages |
| Worker.FetchPages | worker.py:404-409 | The page texts are obtained exactly when the blob path parses, the download succeeds and the PDF reads. The download names the container and the blob of the path. A failure raises the error of the first of those three that failed |
| Worker.Summarise | worker.py:424-443 | The extracted pages are stored, the summary is asked for, and the job is written `completed` with those pages and that analysis. This happens iff the job exists and the analysis succeeds. Otherwise the read error or the analysis error is raised |
| Worker.StageFault | worker.py:404-443 | The error of the first failing stage, in the order blob path, download, PDF reader, page analyses, comprehensive analysis. It is absent iff the run can complete |
| Worker.RunStages | worker.py:404-443 | After the first write, the run ends without error iff the job exists and every stage succeeds. For an existing job the error raised is the first failing stage's. When everything behaves, the steps are download, the page steps, store, summary and the completed write, and the record holds the pages and the analysis |
| Worker.Attempt | worker.py:396-443 | The first step is always the `processing` write (progress 0 of 0) and no other job changes. A missing job raises the read error before any step. Otherwise the error is the first failing stage's, and there is none iff every service behaves |
| Worker.ProcessJob | worker.py:384-460 | The exception re-raised is the read error of a missing job, or else the first failing stage's, and there is none iff the job exists and every service behaves. A run that raises writes `failed` as its last step, with the exception's message and a timestamp. When every service behaves, the steps are exactly the completing sequence. Other jobs never change and no job is added |
| Worker.FailedPageCallKeepsPage | worker.py:326-328 | A failed model call for a page does not fail the page: its analysis is {"error": message}, pageType stays "unknown" and keyValues is {} |
| ApiServer.SegmentDictStep | api-server.py:192 | A further segment decides a key when it assigns it, and leaves the key as the earlier segments decided otherwise |
| ApiServer.LastValueExtend | api-server.py:192 | A trailing segment that does not assign the key keeps the last assignment unchanged |
| ApiServer.LastSomeExtend | api-server.py:192 | The last segment assigning a key stays last when a segment not assigning it follows |
| ApiServer.LastValueOwn | api-server.py:192 | A trailing segment assigning the key is the last assignment |
| ApiServer.SegmentDictLastWins | api-server.py:190-193 | The segment dictionary holds, for every key, the value of the last ';'-segment assigning it, and holds nothing for a key no segment assigns |
| ApiServer.SegmentDictKeys | api-server.py:190-193 | The dictionary's keys are exactly the keys assigned by the segments that contain '=' |
| ApiServer.ParseConnectionString | api-server.py:190-193 | AccountName and AccountKey are the values of their last assignments, or None when absent |
| ApiServer.AssignParts | api-server.py:192 | A `key=value` segment with no '=' in the key assigns that key everything after the first '=' |
| ApiServer.TwoSegments | api-server.py:192 | Two segments give the dictionary with both assignments, and the second wins on a repeated key |
| ApiServer.ConnectionStringRoundTrip | api-server.py:190-193 | The name and key of a connection string come back out of it, even a key ending in '=' padding |
| ApiServer.RepeatedKeyLastWins | api-server.py:192-193 | A repeated AccountKey resolves to its last value |
| ApiServer.SasCredentials | api-server.py:196-206 | A missing or empty connection string raises one error, and unparseable credentials raise the other. Success iff both name and key parse, and then they are the parsed ones |
| ApiServer.SasUploadUrl | api-server.py:196-220 | A failed credentials check raises its error before signing. Otherwise the URL is produced iff generate_blob_sas signs, and it is the blob URL, '?', then the token. A signing failure raises the signer's error |
| ApiServer.JobIdOf | api-server.py:279 | A job id is "job-" followed by 32 hex digits |
| ApiServer.JobIdsDistinct | api-server.py:279 | Different 128-bit uuids give different job ids |
| ApiServer.Publish | api-server.py:305-336 | The message is queued iff the answer is 200, and it carries jobId, the container/jobId/filename blob path and the filename. 200 iff the URL is signed, Service Bus is configured and the send succeeds. The 200 body is exactly uploadUrl (the signed URL of jobId/filename) and jobId. A signing failure answers 500 with its message. The created item stays |
| ApiServer.UploadDocument | api-server.py:267-336 | An empty filename gives 400 and nothing changes. 200 iff every step goes through, signing included. Then the new job is stored pending under id = jobId, the message is queued, and the body is exactly uploadUrl and jobId. A signing failure answers 500 with its message and leaves the created job stored. Existing jobs never change, and only the new id may be added |
| ApiServer.UploadedBlobPathRoundTrip | api-server.py:301-312 | When the container name has no '/', the worker's split of the queued blob path recovers the container and jobId/filename |
| ApiServer.GetJob | api-server.py:360-378 | The stored item iff present, otherwise 404 naming the job |
| ApiServer.GetJobAnalysis | api-server.py:381-405 | 200 iff the job exists with a truthy analysis, and the body is that analysis. A missing or empty analysis gives 404 "Analysis not available yet" |
| ApiServer.ChatWithJob | api-server.py:408-439 | 200 iff the job exists with status "completed". A missing job gives 404, a record without status gives 500, and any other status gives 400 |
| ApiServer.CompletedAnalysisIsServed | api-server.py:381-405 | An analysis the worker stored on completion is always served by the analysis endpoint |
| ApiHandler.JobIdOfRouteSpan | azure-version/functions/api_handler/__init__.py:42-45 | The job id of a `jobs/...` route is the text after `jobs/` up to the next '/', and holds no '/' |
| ApiHandler.Route | azure-version/functions/api_handler/__init__.py:28-53 | OPTIONS is answered first whatever the route. Then upload (POST upload or documents/upload), batch (POST documents/batch-upload), list (GET jobs), document URL (GET jobs/... containing /document-url), one job (other GET jobs/...), else no route. Each handler is chosen iff its condition holds and no earlier one did |
| ApiHandler.SearchFrom | azure-version/functions/api_handler/__init__.py:87-88 | The leftmost match position at or after i, or none when no position matches |
| ApiHandler.FirstSegmentNonEmpty | azure-version/functions/api_handler/__init__.py:87-88 | The run of non-';' characters after a match start is non-empty |
| ApiHandler.Search | azure-version/functions/api_handler/__init__.py:87-88 | `re.search(p([^;]+))` matches iff the pattern occurs followed by a non-';' character. The group is non-empty, has no ';' and is the run at the leftmost match |
| ApiHandler.RegexAndDictDisagreeOnRepeatedKey | azure-version/functions/api_handler/__init__.py:87-88 | On a repeated AccountKey the handler's regex takes the first value while the upload service's parser takes the last |
| ApiHandler.OpenStorage | azure-version/functions/api_handler/__init__.py:78-88 | Storage opens iff a connection string is configured (STORAGE_CONNECTION_STRING, else AzureWebJobsStorage) and the client accepts it |
| ApiHandler.AccountOf | azure-version/functions/api_handler/__init__.py:87-92 | The account is read iff both AccountKey= and AccountName= match. Then name and key are the leftmost matches' groups, non-empty and free of ';' |
| ApiHandler.MaybeSigned | azure-version/functions/api_handler/__init__.py:90-105 | Without an account the result is the bare blob URL. With one, it succeeds iff generate_blob_sas signs, and is the blob URL, "?" and the token; otherwise it is the signer's error |
| ApiHandler.GroupLayout | azure-version/functions/api_handler/__init__.py:108 | Grouping 32 hex digits gives 36 characters with dashes at exactly 8, 13, 18 and 23, and dropping the dashes gives the digits back |
| ApiHandler.UuidString | azure-version/functions/api_handler/__init__.py:108 | str(uuid4()) has 36 characters, dashes at exactly positions 8, 13, 18 and 23, and the uuid's 32 hex digits elsewhere in order |
| ApiHandler.UuidStringInjective | azure-version/functions/api_handler/__init__.py:108 | Distinct 128-bit uuids give distinct strings |
| ApiHandler.HandleUpload | azure-version/functions/api_handler/__init__.py:63-133 | A missing or falsy filename gives 400. 200 iff the body is a dictionary with a filename, storage opens, the URL is signed and the id is new, and then a pending job with id = jobId is stored. A signing failure answers 500 with its message before any job is created. Every failure changes nothing. CORS headers always |
| ApiHandler.UploadFallsBackToUnsignedUrl | azure-version/functions/api_handler/__init__.py:90-105 | When the account cannot be read from the connection string, a single upload still answers 200 with the unsigned blob URL |
| ApiHandler.Named | azure-version/functions/api_handler/__init__.py:247-252 | The filenames a batch creates jobs for are the truthy ones, no more than the entries |
| ApiHandler.NamedStep | azure-version/functions/api_handler/__init__.py:247-252 | One more entry adds its filename, if it has one, at the end |
| ApiHandler.BatchPrelude | azure-version/functions/api_handler/__init__.py:206-236 | An empty file list gives 400. A connection failure gives 500 with its message, and an unreadable account gives 500 "Storage account configuration error". The checks pass iff the body is a dictionary with a truthy list of files and the account is read, and then they yield the files, insuranceType (default "life") and the account |
| ApiHandler.ReturnedExtend | azure-version/functions/api_handler/__init__.py:266-279 | Appending one job keeps uploadUrls and jobIds equal in length and aligned with the filenames |
| ApiHandler.StoredExtend | azure-version/functions/api_handler/__init__.py:256-264 | Appending one job keeps every created job stored under its id with the shared batchJobId |
| ApiHandler.ConfinedExtend | azure-version/functions/api_handler/__init__.py:256-264 | Adding one job keeps the store confined to the old items and the batch ids |
| ApiHandler.CreatedNothing | azure-version/functions/api_handler/__init__.py:247 | Before the loop nothing is created and the invariant holds |
| ApiHandler.CreatedExtend | azure-version/functions/api_handler/__init__.py:247-279 | Creating the next job keeps the loop invariant |
| ApiHandler.BatchStep | azure-version/functions/api_handler/__init__.py:247-279 | An entry that is not a dictionary raises on .get. An entry without a filename is skipped. A named entry whose URL cannot be signed raises the signer's error. Otherwise it raises the conflict iff its id is already stored, and else its job is created and returned in order |
| ApiHandler.DistinctUuidsDistinctBatchIds | azure-version/functions/api_handler/__init__.py:242-266 | Distinct 128-bit uuids give the jobs of a batch distinct ids |
| ApiHandler.NamedPrefix | azure-version/functions/api_handler/__init__.py:247-252 | The files a prefix of the entries names are a prefix of the files all of them name |
| ApiHandler.SignFault | azure-version/functions/api_handler/__init__.py:252-262 | An entry raises a signing error iff it names a file and generate_blob_sas fails for that file |
| ApiHandler.SignFaultNotAll | azure-version/functions/api_handler/__init__.py:247-260 | An entry whose URL cannot be signed keeps the batch from having every named file signed |
| ApiHandler.ConfinedWiden | azure-version/functions/api_handler/__init__.py:247-279 | A store confined to the first n batch ids is confined to the first n' for n <= n' |
| ApiHandler.TakenNotFresh | azure-version/functions/api_handler/__init__.py:266-273 | When the next id of a batch is an old job's id or repeats an earlier id of the batch, the batch's ids were not all fresh |
| ApiHandler.FreshExtend | azure-version/functions/api_handler/__init__.py:266-273 | When the next batch id is not stored, the batch ids so far together with it are fresh: none was stored before and no two are equal |
| ApiHandler.BatchNext | azure-version/functions/api_handler/__init__.py:247-279 | One entry either keeps the loop invariant or stops the loop. A stop leaves the store exactly as before the entry, so the earlier entries' jobs stay stored. The fault is that entry's: the missing `get` of a non-dictionary, its signing error, or the conflict of its taken id. After a stop the batch cannot succeed |
| ApiHandler.BatchStopped | azure-version/functions/api_handler/__init__.py:247-279 | A stop at a non-dictionary, a signing failure or a taken id keeps the store confined and shows that the batch cannot succeed |
| ApiHandler.StopFault | azure-version/functions/api_handler/__init__.py:247-297 | The error an entry raises when the loop stops at it: the AttributeError of a non-dictionary, else the signing error of its file, else the id conflict |
| ApiHandler.BatchDoneStep | azure-version/functions/api_handler/__init__.py:247-279 | A dictionary entry processed without error keeps the loop invariant |
| ApiHandler.BatchLoop | azure-version/functions/api_handler/__init__.py:247-279 | The loop succeeds iff every entry is a dictionary, every named file's URL is signed, and the ids of the named entries are distinct and not stored. Then each named entry has a stored job, an id and a URL, in input order. On a fault there is an entry k at which the loop stopped: the entries before k are dictionaries whose jobs all stay stored, and the fault is entry k's missing `get`, signing error or id conflict. Old items are kept and only batch ids are added |
| ApiHandler.BatchBody | azure-version/functions/api_handler/__init__.py:281-289 | The body has exactly uploadUrls, jobIds and batchJobId |
| ApiHandler.HandleBatchUpload | azure-version/functions/api_handler/__init__.py:206-297 | A failing prelude answers its error and changes nothing. Otherwise 200 iff every entry is a dictionary, every named file is signed and the batch ids are distinct and not stored. Any other answer is 500 with the message of the entry at which the loop stopped: a non-dictionary's missing `get`, a signing error or the conflict. The jobs of the entries before that one stay stored. On 200: one job per named entry sharing one batchJobId, with equal-length uploadUrls and jobIds in input order. Old jobs are kept and only batch ids are added |
| ApiHandler.MapStatus | azure-version/functions/api_handler/__init__.py:151-157 | extracted→Complete, pending→In Progress, failed→Failed, and any other status unchanged |
| ApiHandler.Normalize | azure-version/functions/api_handler/__init__.py:140-157 | uploadTimestamp = timestamp = createdAt and originalFilename = filename when present, and those keys are left as they were when their source is absent. batchId = batchJobId, else jobId, else id, else "unknown". The status is mapped. Every other key is kept, and only those derived keys may be added |
| ApiHandler.MapStatusIdempotent | azure-version/functions/api_handler/__init__.py:151-157 | Mapping a mapped status changes nothing |
| ApiHandler.NormalizeIdempotent | azure-version/functions/api_handler/__init__.py:140-157 | Normalising a normalised item changes nothing |
| ApiHandler.BatchIdStable | azure-version/functions/api_handler/__init__.py:144-150 | A second normalisation finds the same batchId |
| ApiHandler.OtherKeyStable | azure-version/functions/api_handler/__init__.py:140-150 | A second normalisation keeps every key other than status and batchId |
| ApiHandler.HandleGetJobs | azure-version/functions/api_handler/__init__.py:135-161 | 200 with every item, normalised, in query order |
| ApiHandler.HandleGetJob | azure-version/functions/api_handler/__init__.py:171-204 | The normalised item iff it exists, otherwise 404 carrying the read error |
| ApiHandler.HandleGetDocumentUrl | azure-version/functions/api_handler/__init__.py:299-353 | 200 with a read URL for the job's file iff the job exists with a filename, storage opens and the URL is signed. A job without a filename gives 404 "Filename not found in job". A signing failure gives 404 with its message |
| ApiHandler.Dispatch | azure-version/functions/api_handler/__init__.py:17-61 | OPTIONS answers 200 and changes nothing. An unmatched route gives 404. Each route gives exactly its handler's answer: the same response for upload, list, document URL and one job, and for the batch route the whole of the batch handler's contract (status, errors, body and stored jobs). The listing is built from exactly the stored jobs. Only POST routes change the store, and they never change an existing job. CORS headers always |
| DocumentExtract.FileNameOf | azure-version/functions/document_extract/__init__.py:35 | The file name is the suffix of the blob name after its last '/': it has no '/', and it is the whole name or is preceded by a '/' |
| DocumentExtract.BlobNameRoundTrip | azure-version/functions/document_extract/__init__.py:35 | The blob documents/<filename> gives back the filename |
| DocumentExtract.AnalyzePage | azure-version/functions/document_extract/__init__.py:75-111 | Never raises: the parsed reply, {"raw_analysis": reply} when it does not parse or is null, {"error": message} when the call fails |
| DocumentExtract.ExtractedData | azure-version/functions/document_extract/__init__.py:44-57 | One entry per page, entry i numbered i+1 with page i's text, in order |
| DocumentExtract.PagesNumberedInOrder | azure-version/functions/document_extract/__init__.py:44-57 | Page numbers of the extracted data are 1..n, each entry carrying its own page's text |
| DocumentExtract.FirstMatch | azure-version/functions/document_extract/__init__.py:61-64 | The first job whose filename matches, or none iff no job matches |
| DocumentExtract.Extract | azure-version/functions/document_extract/__init__.py:30-73 | A PDF read failure or an upsert failure is re-raised. With no matching job nothing changes. Otherwise only the first match becomes `extracted` with the pages |
| DocumentExtract.OnlyFirstMatchUpdated | azure-version/functions/document_extract/__init__.py:64-69 | Any job that changed is the first match, now `extracted` with the extracted data |
| TriggerWorkflow.Stamp | cdk/lambda-functions/trigger-workflow/index.py:43 | The timestamp holds only digits and '-' |
| TriggerWorkflow.Index | cdk/lambda-functions/trigger-workflow/index.py:23-24 | Indexing a dictionary succeeds iff the key is present. A missing key raises KeyError naming it |
| TriggerWorkflow.Dashed | cdk/lambda-functions/trigger-workflow/index.py:44 | Replacing '/' and '.' keeps the length and leaves neither character |
| TriggerWorkflow.ExecutionName | cdk/lambda-functions/trigger-workflow/index.py:43-44 | The name is the prefix of "upload-" + stamp + "-" + the dashed key of length min(80, that length). It has no '/' or '.' |
| TriggerWorkflow.ExecutionNamesCollide | cdk/lambda-functions/trigger-workflow/index.py:44 | Two keys differing only in '.' against '-' get the same name in the same second |
| TriggerWorkflow.ExecutionInput | cdk/lambda-functions/trigger-workflow/index.py:50-56 | The input carries the bucket, the decoded key and classification OTHER |
| TriggerWorkflow.ProcessRecord | cdk/lambda-functions/trigger-workflow/index.py:21-66 | A record is skipped iff its decoded key is not a PDF under uploads/. An unreadable record or a failed start is an error with the "Error processing record: " prefix. A started record names a clean execution |
| TriggerWorkflow.StartedNameClean | cdk/lambda-functions/trigger-workflow/index.py:43-47 | A started execution's name has at most 80 characters and no '/' or '.' |
| TriggerWorkflow.TalliesStep | cdk/lambda-functions/trigger-workflow/index.py:60-65 | One more record adds one to the count iff started, and its message to errors iff failed |
| TriggerWorkflow.OutcomesPartition | cdk/lambda-functions/trigger-workflow/index.py:20-66 | Started, skipped and failed records add up to all records |
| TriggerWorkflow.ErrorsEmpty | cdk/lambda-functions/trigger-workflow/index.py:65-73 | The error list is empty iff no record failed |
| TriggerWorkflow.Summary | cdk/lambda-functions/trigger-workflow/index.py:68-75 | 200 iff no errors, else 207. The body carries executionsStarted, and errors is null iff there are none |
| TriggerWorkflow.Outcomes | cdk/lambda-functions/trigger-workflow/index.py:20-66 | One outcome per record |
| TriggerWorkflow.LambdaHandler | cdk/lambda-functions/trigger-workflow/index.py:10-78 | The result summarises the per-record outcomes. Every record is processed whatever failed before it. The executions started are exactly the started records' names in record order, and every name is clean |
| TriggerWorkflow.StartedNamesCount | cdk/lambda-functions/trigger-workflow/index.py:58-63 | One name per started execution |
| TriggerWorkflow.StartedNamesClean | cdk/lambda-functions/trigger-workflow/index.py:43-63 | The started names are clean when each started outcome's name is |
| TriggerWorkflow.NoRecordsSucceed | cdk/lambda-functions/trigger-workflow/index.py:20-75 | An event without records answers 200 with 0 executions and null errors |
| DevApi.Put | dev_api.py:38 | `jobs[id] = job` stores job under id and changes no other entry. A new key goes last and an existing key keeps its place |
| DevApi.JobId | dev_api.py:34 | "job-" and 32 hex digits, 36 characters, no '/' |
| DevApi.JobIdInjective | dev_api.py:34 | Equal job ids come from equal uuids |
| DevApi.StorageRoute | dev_api.py:79-80 | A URL the mock-storage route accepts is the storage prefix, a non-empty job id, '/', and a non-empty filename, neither holding '/' |
| DevApi.UploadUrlRoundTrip | dev_api.py:36 | The returned upload URL routes back to the new job and its file |
| DevApi.SlashedFilenameUnroutable | dev_api.py:36 | A filename with '/' gives an upload URL the storage route does not read back as that file |
| DevApi.NewJob | dev_api.py:27-46 | A new job is upload_pending with the URL of its file. insuranceType is "life" when omitted and as given otherwise |
| DevApi.Upload | dev_api.py:32-48 | The job is stored under a fresh id, and the answer is exactly that id and its upload URL. No other job changes |
| DevApi.ListJobs | dev_api.py:69-71 | The stored jobs in insertion order |
| DevApi.DistinctCount | dev_api.py:69-71 | A repetition-free key order counts as many keys as its length |
| DevApi.ListJobsExact | dev_api.py:69-71 | Every stored job is listed, and the listing is as long as the store |
| DevApi.ListAfterUpload | dev_api.py:32-71 | An upload with a fresh id appends its job to the listing |
| DevApi.GetJob | dev_api.py:73-77 | 404 iff the id is absent, otherwise the stored record |
| DevApi.GetAfterUpload | dev_api.py:32-77 | Getting a new job's id returns the job the upload created |
| DevApi.MockUpload | dev_api.py:79-94 | An unknown job gives 404. Otherwise only that job becomes in_progress, and the keys and their order stay |
| DevApi.Complete | dev_api.py:96-99 | Only that job becomes completed with the mock extracted data |
| DevApi.UploadLifecycle | dev_api.py:32-101 | Upload, PUT, completion: the new job ends completed with the mock data and its id and URL, and no other job moves |
| DevApi.BatchIds | dev_api.py:53-54 | The k-th request's id comes from the k-th uuid |
| DevApi.DistinctUuidsFreshIds | dev_api.py:53-54 | Distinct uuids give the requests of a batch distinct, unstored ids |
| DevApi.KeysAddedStep | dev_api.py:53-57 | Storing the next job adds exactly its id |
| DevApi.OthersKeptStep | dev_api.py:53-57 | Storing the next job keeps every other job |
| DevApi.AppendedStep | dev_api.py:53-57 | Storing the next fresh job appends it after the earlier ones |
| DevApi.AnsweredStep | dev_api.py:66 | The next result is appended for the next request |
| DevApi.StoredStep | dev_api.py:53-66 | Storing the next job keeps the loop invariant |
| DevApi.UploadBatch | dev_api.py:50-67 | One result per request in input order, each echoing its filename with its own id and URL. Exactly the batch ids are added and every other job is kept. With fresh ids the jobs follow the old ones in request order |
| DevApi.ListAfterBatch | dev_api.py:50-71 | With fresh ids, a batch's jobs are listed after the old ones in request order |
| UploadPage.InvalidFiles | frontend/src/App.tsx:53-55 | Only non-PDF files of the selection are kept, and every non-PDF file is kept |
| UploadPage.InvalidFilesInOrder | frontend/src/App.tsx:53-55 | The filter equals the front-to-back list of non-PDF files: same order, same multiplicity |
| UploadPage.NonPdfFilesAppend | frontend/src/App.tsx:53-55 | Filtering a concatenation filters each part |
| UploadPage.InvalidFilesEmpty | frontend/src/App.tsx:53-56 | No file is invalid iff every file's type contains "pdf" |
| UploadPage.Names | frontend/src/App.tsx:57-60 | The names of the files, in order |
| UploadPage.OccursShift | frontend/src/App.tsx:57-60 | A piece found in the tail of a string is found at the shifted place |
| UploadPage.JoinContainsEach | frontend/src/App.tsx:57-60 | Every name joined with ", " occurs in the join |
| UploadPage.InvalidSelectionNamesEach | frontend/src/App.tsx:53-64 | The error message names every non-PDF file |
| UploadPage.FileChange | frontend/src/App.tsx:45-68 | An empty choice only clears the error. A selection with a non-PDF file sets the error and keeps the files. A valid selection replaces the files and clears the error and the progress |
| UploadPage.Drop | frontend/src/App.tsx:70-90 | Any non-PDF rejects the drop with the error, and otherwise the drop replaces the files and clears the progress |
| UploadPage.SelectionAllOrNothing | frontend/src/App.tsx:53-89 | Either the whole selection is accepted or the files are unchanged |
| UploadPage.RejectionNamesOffenders | frontend/src/App.tsx:53-85 | A rejected selection keeps the files, and the error names each non-PDF |
| UploadPage.EmptySelectionDiffers | frontend/src/App.tsx:45-90 | Choosing nothing keeps the files, while dropping nothing clears them |
| UploadPage.PlanUpload | frontend/src/App.tsx:96-117 | No files gives the error and no request. One file takes the single path and more take the batch path with all files |
| UploadPage.StartUpload | frontend/src/App.tsx:96-103 | The error is "Please select at least one file" iff there are no files, and it is cleared otherwise. The files and progress are kept |
| UploadPage.Property | frontend/src/App.tsx:153 | Reading a property of null throws, and otherwise gives the field or undefined |
| UploadPage.SingleTarget | frontend/src/App.tsx:153-156 | Accepted iff uploadUrl and jobId are both truthy. Otherwise "Invalid response", or a TypeError for a null body |
| UploadPage.MockUploadAnswerAccepted | frontend/src/App.tsx:153-156 | The mock API's upload answer passes the check with its URL and job id |
| UploadPage.NamesFile | frontend/src/App.tsx:204 | An entry names a file iff its filename equals the name. A null entry throws |
| UploadPage.FindInfo | frontend/src/App.tsx:204 | The first entry naming the file, none iff no entry does, or the throw of a null entry before it |
| UploadPage.PlanBatch | frontend/src/App.tsx:203-207 | Each file gets the entry its lookup finds, and a file without an entry raises "No upload URL returned for" its name |
| UploadPage.PlanBatchAnswer | frontend/src/App.tsx:200-207 | An array answer is planned entry by entry. Any other answer throws a TypeError at the first file's lookup, and succeeds only for no files |
| UploadPage.AzureBatchAnswerRejected | frontend/src/App.tsx:200-204 | Compares the two answer shapes only. The Azure handler's 200 body, a dictionary of uploadUrls, jobIds and batchJobId, would make every non-empty batch plan throw a TypeError. In the program the page's request does not reach that handler (`UploadPage.PageBatchRequestRefused`) |
| UploadPage.BatchOutcome | frontend/src/App.tsx:186-204 | An answer that is not ok throws "Failed to get upload URLs: " with its status text before any lookup. An ok answer is planned file by file |
| UploadPage.PageBatchRequestRefused | frontend/src/App.tsx:186-192 | The page posts to documents/upload_batch, which the Azure router does not serve (404). The array of entries it sends would also be refused with 500 on the batch-upload route, since a list has no `get` |
| UploadPage.LookupProblem | frontend/src/App.tsx:203-207 | A lookup that throws gives the TypeError, and one that finds nothing gives "No upload URL returned for" the name |
| UploadPage.PlanBatchOutcome | frontend/src/App.tsx:200-207 | The plan succeeds iff every file's lookup finds an entry. Otherwise it fails with the problem of the first file whose lookup does not |
| UploadPage.SameNameSameTarget | frontend/src/App.tsx:203-207 | Two files with the same name go to the same entry |
| UploadPage.PlanFindsOwnEntry | frontend/src/App.tsx:204 | With distinct names and an answer in file order, each file finds the entry at its own index |
| UploadPage.MockBatchAnswerPlanned | frontend/src/App.tsx:200-207 | The mock API's batch answer for distinct names plans every file onto its own job |
| UploadPage.PlanAll | frontend/src/App.tsx:203-207 | When each lookup finds its own index, the plan is the answer itself |
| UploadPage.PlanSuffix | frontend/src/App.tsx:203-207 | The same holds for every suffix of the files |
| UploadPage.PlanCons | frontend/src/App.tsx:203-207 | A plan is the first file's entry followed by the plan of the rest |
| UploadPage.DateGroupStatus | frontend/src/App.tsx:590-595 | A group's status is Failed, In Progress or Complete. A status other than Complete is one of the jobs' statuses, and it is at least as bad as every job's |
| UploadPage.GroupStatusWorstOf | frontend/src/App.tsx:590-595 | A group's status is the worse of its parts' statuses, so the order of the jobs does not matter |
| UploadPage.GroupStatusCases | frontend/src/App.tsx:590-595 | Failed iff some job failed. In Progress iff none failed and some is in progress. Complete otherwise, including for an empty group |
| CognitoOAuth.Run | frontend/src/utils/cognitoOAuth.ts:9-10 | A run of n consecutive characters from a first one |
| CognitoOAuth.CharsetIsUnreserved | frontend/src/utils/cognitoOAuth.ts:9-10 | The alphabet has 66 characters, and a character is in it iff it is unreserved (ALPHA / DIGIT / "-" / "." / "_" / "~") |
| CognitoOAuth.RandomString | frontend/src/utils/cognitoOAuth.ts:8-18 | Exactly one character per random byte, character i being charset[byte i mod 66], and every character unreserved |
| CognitoOAuth.Pad | frontend/src/utils/cognitoOAuth.ts:25 | n '=' characters |
| CognitoOAuth.UrlAlphabet | frontend/src/utils/cognitoOAuth.ts:26 | The alphabet swap keeps the length |
| CognitoOAuth.UrlSafe | frontend/src/utils/cognitoOAuth.ts:26 | No '+', '/' or '=' remains, and the length is the input's minus its '=' count |
| CognitoOAuth.CountReplace | frontend/src/utils/cognitoOAuth.ts:26 | Swapping two other characters keeps the number of '=' |
| CognitoOAuth.RemoveAbsent | frontend/src/utils/cognitoOAuth.ts:26 | Dropping an absent character changes nothing |
| CognitoOAuth.RemovePadding | frontend/src/utils/cognitoOAuth.ts:26 | Dropping '=' from padded text drops exactly the padding |
| CognitoOAuth.Restore | frontend/src/utils/cognitoOAuth.ts:26 | Decoding direction: re-padding gives a length that is a multiple of four |
| CognitoOAuth.UrlSafeOfPadded | frontend/src/utils/cognitoOAuth.ts:25-26 | On `btoa` output, the step swaps the alphabet and drops the padding, leaving only base64url characters |
| CognitoOAuth.SwapBack | frontend/src/utils/cognitoOAuth.ts:26 | Swapping back recovers the standard alphabet |
| CognitoOAuth.UrlSafeRoundTrip | frontend/src/utils/cognitoOAuth.ts:25-26 | The step loses nothing: restoring its output gives back the `btoa` string |
| CognitoOAuth.PadLength | frontend/src/utils/cognitoOAuth.ts:26 | The padding restored is the padding dropped |
| CognitoOAuth.ChallengeLength | frontend/src/utils/cognitoOAuth.ts:21-27 | A SHA-256 digest gives a 43-character challenge |
| CognitoOAuth.SignIn | frontend/src/utils/cognitoOAuth.ts:30-51 | A 32-character state and a 128-character unreserved verifier are stored and nothing else changes. The request carries the state and the S256 challenge of that verifier |
| CognitoOAuth.Keep | frontend/src/utils/cognitoOAuth.ts:98-105 | The three tokens and expiry = now + expires_in·1000 are stored |
| CognitoOAuth.HandleCallback | frontend/src/utils/cognitoOAuth.ts:54-112 | A token request is sent iff code, state and the stored verifier are present and the state is the stored one. Otherwise nothing changes and null is returned. State and verifier are removed only after the check. Tokens are stored iff the exchange is granted |
| CognitoOAuth.CallbackUsesOwnVerifier | frontend/src/utils/cognitoOAuth.ts:65-81 | The callback of a sign-in exchanges the code with that sign-in's verifier |
| CognitoOAuth.ForeignStateRefused | frontend/src/utils/cognitoOAuth.ts:65-72 | A foreign state sends nothing and changes nothing, and a replayed callback is refused |
| CognitoOAuth.IsAuthenticated | frontend/src/utils/cognitoOAuth.ts:130-139 | Signed in iff id_token and token_expiry are present and non-empty and now is before the expiry |
| CognitoOAuth.SignedInUntilExpiry | frontend/src/utils/cognitoOAuth.ts:98-139 | After a granted exchange the user is signed in until the stored expiry and not after |
| CognitoOAuth.GetIdToken | frontend/src/utils/cognitoOAuth.ts:142-147 | The stored id token iff signed in |
| CognitoOAuth.GetAccessToken | frontend/src/utils/cognitoOAuth.ts:150-155 | The stored access token while signed in, otherwise null |
| CognitoOAuth.SignOut | frontend/src/utils/cognitoOAuth.ts:115-127 | The four token keys are removed and every other key stays |
| CognitoOAuth.SignedOutStaysOut | frontend/src/utils/cognitoOAuth.ts:115-155 | After sign-out nobody is signed in and neither token is handed out |
| CognitoOAuth.RefreshTokens | frontend/src/utils/cognitoOAuth.ts:158-198 | A request is sent iff a refresh token is stored, and it sends that token. Success iff granted, and then the new tokens and expiry are stored. Failure changes nothing. refresh_token is never overwritten |
| CognitoOAuth.RefreshUsesLoginToken | frontend/src/utils/cognitoOAuth.ts:98-198 | A refresh after sign-in sends that sign-in's refresh token, and sign-out ends refreshes |
| AzureConfig.ResolveRedirectUri | frontend/src/config/azure.ts:7-19 | The build-time URI iff it is set, parses, and does not point at localhost while the app runs elsewhere. Otherwise origin + fallback path |
| AzureConfig.ResolvesToOneOfTwo | frontend/src/config/azure.ts:7-19 | The result is always the build-time URI or origin + fallback path |
| AzureConfig.NoLocalhostInProduction | frontend/src/config/azure.ts:11-14 | Away from localhost the result is the fallback or a URI whose parsed host does not mention localhost |
| AzureConfig.LocalhostKeepsParsedUri | frontend/src/config/azure.ts:9-15 | On localhost any parsing build-time URI is kept |
| AzureConfig.Redirects | frontend/src/config/azure.ts:21-22 | Unset variables give origin + /auth/callback and origin + / |
| AzureConfig.UnsetVariablesUseOrigin | frontend/src/config/azure.ts:21-22 | Without build-time variables, sign-in returns to /auth/callback and sign-out to the root of the same origin |

## Left out

- Cloud SDK calls are oracles that answer or fail: Cosmos, Blob/SAS, Service Bus, Azure OpenAI, Step Functions and Cognito's token endpoint. The SAS signers return a failure as well as a token, so a key `generate_blob_sas` cannot decode reaches each handler's error path. Their internal behaviour is not the repository's.
- The worker's Service Bus receive loop, signal handling and liveness file (worker.py:463-534) are I/O around `process_job` with no logic of their own.
- `time.sleep` is not performed. `Retry.WithRetries` reports the delays as exact reals instead of floats.
- Worker.UpdateJobStatus: models one read-merge-upsert and not its wrapping in `with_retries`. A retried update that finally succeeds has the same effect.
- Infrastructure (`cdk/lib/cdk-stack.ts`), the Step Functions stage chain, `app.py` and `azure-version/delete_pending_jobs.py` are not part of this model.
- The authentication wrappers and pages (`AuthContext.tsx`, `azureAuth.ts`, `OAuthContext.tsx`, the forms) and React rendering are UI or thin wrappers over Cognito, MSAL or Amplify.
- `Promise.all` concurrency of the batch upload in App.tsx: `UploadPage.PlanBatch` models the lookups in file order, with the first failure reported.
- Date grouping and `Intl` date formatting in App.tsx: only `getDateGroupStatus` is modelled.
- dev_api.py file writes and the file-serving route: I/O only.
- The delayed completion task in dev_api.py is not scheduled. `DevApi.Complete` is that task's effect as a separate step.
- pydantic's 422 for a malformed request body: requests are taken as already validated.
- `api-server.py` `list_jobs` (an ORDER BY query), the Cosmos/Service Bus client caching and the chat endpoint's model call after its status guard: database and network work.
- ApiHandler.HandleGetJobs: the 500 answer when `read_all_items` fails is not modelled. The items are given.
- Strings.Lower: ASCII case only. The trigger's `.lower()` is Unicode-aware, which matters only for non-ASCII keys.
- JavaScript coercion when the token endpoint omits a field (stored as "undefined", expiry NaN): the token set is taken as complete.
- The modulo bias of `% 66` over random bytes is a statistical property and is not stated.
- Percent-encoding by `URLSearchParams`, and the unescaped interpolation of the file name into the extractor's Cosmos query: query strings are not modelled as text.
- The browser `URL` parser is an oracle in AzureConfig. The constant client and tenant ids and the MSAL configuration object are data.
- Prompt wording sent to the language model.
- TriggerWorkflow.LambdaHandler: `event.get('Records', [])` is taken as the given record list, and an event whose Records is not a list is not modelled.
- Time is one `now` per operation. The source calls `utcnow()` at each write, so a pending job's createdAt and updatedAt can differ by microseconds. In the model the worker's writes within one run share a stamp, and the jobs of one batch share a createdAt.
- Cosmos failures are modelled only as a missing item (NotFound) and an existing id (Conflict). Throttling, timeouts and other service errors are not modelled.
- Worker.Write: a failing `upsert_item`, or a read failure other than a missing item, is not modelled. Every write to an existing job goes through.
- ApiServer.GetJob: FastAPI's `response_model=JobResponse` filtering is not modelled. The body is the stored item, including keys the response model would drop.
- ApiHandler.Dispatch: the job listing is `read_all_items` over the container, given as items that hold exactly the stored jobs. Their order is the container's and is not modelled.
- The texts of the Cosmos SDK exceptions (`ApiServer.Conflict`, `Worker.NotFound`) are stand-ins with the exception's shape. The SDK's exact wording, and its status and sub-status fields, are not modelled. The Python built-in errors (`SearchNone`, `LoadsNoneFault`, the AttributeError texts) follow CPython's wording.
- JSON numbers are integers. Floating-point values, which Python reports as `float`, are not represented.
- The trigger handler's body is `json.dumps` of a dictionary. The model keeps the JSON value and does not serialise it to text.
- Worker.ProcessJob: the message's jobId, blobPath and filename are taken as present strings. `message_body.get` yields None for a missing key. A message without blobPath then raises "'NoneType' object has no attribute 'split'" in `download_pdf`, after the processing write, and this path is not modelled.
- Strings.ParseInt: decimal digits only. JavaScript's `parseInt` skips leading whitespace, and without a radix it also reads a `0x` hex prefix (`parseInt("0x1F")` is 31, where this gives 0). The stored expiry that `CognitoOAuth.IsAuthenticated` parses is written by `String(Date.now() + expires_in * 1000)`, in decimal and without whitespace.
