/**
 * The local mock API (`dev_api.py`): a dictionary of jobs kept in memory,
 * filled by the upload endpoints, read by the job endpoints, and moved to
 * `in_progress` by the mock storage PUT and to `completed` by the delayed
 * task that PUT schedules.
 *
 * `uuid.uuid4()` is an oracle (`u` or `uuid(i)`, a number below 2^128);
 * the file written under `dev_storage` and the two-second sleep are not
 * modelled, and the delayed completion is its own step.
 */
module DevApi {
  import opened Wrappers
  import opened Strings
  import opened Json

  /**
   * The module-level `jobs` dict: its entries and the order in which their
   * keys were first inserted, which is the order `jobs.values()` lists them.
   */
  datatype Store = Store(order: seq<string>, jobs: map<string, Record>)

  /** No key is listed twice, and the listed keys are exactly the stored ones. */
  ghost predicate Valid(s: Store)
  {
    && (forall i, j :: 0 <= i < j < |s.order| ==> s.order[i] != s.order[j])
    && (forall id :: id in s.jobs <==> id in s.order)
  }

  /** The dictionary at start-up. */
  const Empty := Store([], map[])

  /** `jobs[id] = job`: a new key goes last, an existing key keeps its place. */
  function Put(s: Store, id: string, job: Record): (t: Store)
    ensures Valid(s) ==> Valid(t)
    ensures id in t.jobs && t.jobs[id] == job
    ensures forall k :: k != id ==> (k in t.jobs <==> k in s.jobs)
    ensures forall k :: k != id && k in s.jobs ==> t.jobs[k] == s.jobs[k]
    ensures id in s.jobs ==> t.order == s.order
    ensures id !in s.jobs ==> t.order == s.order + [id]
  {
    Store(if id in s.jobs then s.order else s.order + [id], s.jobs[id := job])
  }

  /** `f"job-{uuid.uuid4().hex}"`. */
  function JobId(u: nat): (id: string)
    ensures |id| == 36 && StartsWith(id, "job-")
    ensures '/' !in id
  {
    var h := HexDigits(u, 32);
    assert forall k :: 0 <= k < |h| ==> IsHexChar(h[k]);
    "job-" + h
  }

  /** Distinct uuids give distinct job ids. */
  lemma JobIdInjective(u: nat, v: nat)
    requires u < Pow16(32) && v < Pow16(32)
    requires JobId(u) == JobId(v)
    ensures u == v
  {
    assert JobId(u)[4..] == HexDigits(u, 32);
    assert JobId(v)[4..] == HexDigits(v, 32);
    HexDigitsInjective(u, v, 32);
  }

  const StoragePrefix := "http://localhost:8080/mock-storage/"

  /** The URL the client PUTs the file to. */
  function UploadUrl(id: string, filename: string): string
  {
    StoragePrefix + id + "/" + filename
  }

  /**
   * The `{job_id}/{filename}` path parameters of the mock storage route, if
   * `url` addresses it: two non-empty segments after the prefix.
   */
  function StorageRoute(url: string): (r: Option<(string, string)>)
    ensures r.Some? ==> r.value.0 != "" && r.value.1 != ""
    ensures r.Some? ==> '/' !in r.value.0 && '/' !in r.value.1
    ensures r.Some? ==> url == StoragePrefix + r.value.0 + "/" + r.value.1
  {
    if !StartsWith(url, StoragePrefix) then None
    else
      var rest := url[|StoragePrefix|..];
      var parts := SplitOnce(rest, '/');
      if |parts| == 2 && parts[0] != "" && parts[1] != "" && '/' !in parts[1] then
        assert url == StoragePrefix + rest;
        Some((parts[0], parts[1]))
      else None
  }

  /** The returned upload URL leads back to the new job and its file, unless the filename is empty or holds a '/'. */
  lemma UploadUrlRoundTrip(u: nat, filename: string)
    requires filename != "" && '/' !in filename
    ensures StorageRoute(UploadUrl(JobId(u), filename)) == Some((JobId(u), filename))
  {
    var id := JobId(u);
    var url := UploadUrl(id, filename);
    assert url[|StoragePrefix|..] == id + ['/'] + filename;
    SplitOnceCons(id, filename, '/');
  }

  /** A filename with a '/' yields a URL the mock storage route does not read back as that filename. */
  lemma SlashedFilenameUnroutable(u: nat, filename: string)
    requires '/' in filename
    ensures StorageRoute(UploadUrl(JobId(u), filename)) != Some((JobId(u), filename))
  {
  }

  /** `insuranceType` as the request gives it: left out, or given (possibly as `null`). */
  datatype InsuranceType = Omitted | Given(value: Option<string>)

  /** `UploadRequest`; `contentType` is accepted and ignored. */
  datatype UploadRequest = UploadRequest(filename: string, contentType: Option<string>, insuranceType: InsuranceType)

  /** The value the pydantic model gives `insuranceType`: `"life"` when omitted. */
  function InsuranceTypeOf(t: InsuranceType): Json
  {
    match t
    case Omitted => Str("life")
    case Given(v) => OptStr(v)
  }

  const JobKeys := {"jobId", "filename", "insuranceType", "status", "createdAt", "updatedAt", "uploadUrl"}

  /** The job stored for a new upload. */
  function NewJob(id: string, req: UploadRequest): (job: Record)
    ensures job.Keys == JobKeys
    ensures job["jobId"] == Str(id) && job["filename"] == Str(req.filename)
    ensures job["status"] == Str("upload_pending")
    ensures job["uploadUrl"] == Str(UploadUrl(id, req.filename))
    ensures req.insuranceType.Omitted? ==> job["insuranceType"] == Str("life")
    ensures req.insuranceType.Given? ==> job["insuranceType"] == OptStr(req.insuranceType.value)
  {
    map["jobId" := Str(id),
        "filename" := Str(req.filename),
        "insuranceType" := InsuranceTypeOf(req.insuranceType),
        "status" := Str("upload_pending"),
        "createdAt" := Str(""),
        "updatedAt" := Str(""),
        "uploadUrl" := Str(UploadUrl(id, req.filename))]
  }

  /** `upload_document` with `u` as the uuid: the new store and the response body. */
  function Upload(s: Store, req: UploadRequest, u: nat): (out: (Store, Json))
    ensures var id := JobId(u);
      && id in out.0.jobs && out.0.jobs[id] == NewJob(id, req)
      && (forall k :: k != id ==> (k in out.0.jobs <==> k in s.jobs))
      && (forall k :: k != id && k in s.jobs ==> out.0.jobs[k] == s.jobs[k])
      && (Valid(s) ==> Valid(out.0))
      && out.1 == Obj(map["uploadUrl" := Str(UploadUrl(id, req.filename)), "jobId" := Str(id)])
  {
    var id := JobId(u);
    (Put(s, id, NewJob(id, req)), Obj(map["uploadUrl" := Str(UploadUrl(id, req.filename)), "jobId" := Str(id)]))
  }

  /** `list(jobs.values())`. */
  function ListJobs(s: Store): (r: seq<Record>)
    requires Valid(s)
    ensures |r| == |s.order|
    ensures forall i :: 0 <= i < |r| ==> r[i] == s.jobs[s.order[i]]
  {
    seq(|s.order|, i requires 0 <= i < |s.order| => s.jobs[s.order[i]])
  }

  /** The keys of a store listed without repetition number as many as its entries. */
  lemma {:induction false} DistinctCount(order: seq<string>)
    requires forall i, j :: 0 <= i < j < |order| ==> order[i] != order[j]
    ensures |set id | id in order| == |order|
  {
    if |order| > 0 {
      var init := order[..|order| - 1];
      var last := order[|order| - 1];
      DistinctCount(init);
      assert (set id | id in order) == (set id | id in init) + {last};
      assert last !in init;
    }
  }

  /** `list_jobs` lists every stored job exactly once: one element per key, and each stored job among them. */
  lemma ListJobsExact(s: Store)
    requires Valid(s)
    ensures |ListJobs(s)| == |s.jobs|
    ensures forall id :: id in s.jobs ==> s.jobs[id] in ListJobs(s)
  {
    DistinctCount(s.order);
    assert s.jobs.Keys == set id | id in s.order;
    forall id | id in s.jobs
      ensures s.jobs[id] in ListJobs(s)
    {
      var i :| 0 <= i < |s.order| && s.order[i] == id;
      assert ListJobs(s)[i] == s.jobs[id];
    }
  }

  /** An upload with a fresh id appends its job to the listing and leaves the rest as it was. */
  lemma ListAfterUpload(s: Store, req: UploadRequest, u: nat)
    requires Valid(s) && JobId(u) !in s.jobs
    ensures ListJobs(Upload(s, req, u).0) == ListJobs(s) + [NewJob(JobId(u), req)]
  {
    var t := Upload(s, req, u).0;
    assert t.order == s.order + [JobId(u)];
    assert forall i :: 0 <= i < |s.order| ==> s.order[i] != JobId(u);
  }

  /** The error `HTTPException` carries. */
  datatype HttpError = HttpError(status: nat, detail: string)

  const JobNotFound := HttpError(404, "Job not found")

  /** `get_job`. */
  function GetJob(s: Store, id: string): (r: Result<Record, HttpError>)
    ensures r.Failure? <==> id !in s.jobs
    ensures r.Failure? ==> r.error == JobNotFound
    ensures r.Success? ==> r.value == s.jobs[id]
  {
    if id !in s.jobs then Failure(JobNotFound) else Success(s.jobs[id])
  }

  /** The job an upload creates is what `get_job` returns for its id. */
  lemma GetAfterUpload(s: Store, req: UploadRequest, u: nat)
    ensures GetJob(Upload(s, req, u).0, JobId(u)) == Success(NewJob(JobId(u), req))
  {
  }

  /** `mock_upload`: 404 for an unknown job, otherwise that job moves to `in_progress`. */
  function MockUpload(s: Store, id: string): (r: Result<Store, HttpError>)
    ensures r.Failure? <==> id !in s.jobs
    ensures r.Failure? ==> r.error == JobNotFound
    ensures r.Success? ==>
      && r.value.order == s.order
      && r.value.jobs.Keys == s.jobs.Keys
      && r.value.jobs[id] == s.jobs[id]["status" := Str("in_progress")]
      && (forall k :: k in s.jobs && k != id ==> r.value.jobs[k] == s.jobs[k])
      && (Valid(s) ==> Valid(r.value))
  {
    if id !in s.jobs then Failure(JobNotFound)
    else Success(Put(s, id, s.jobs[id]["status" := Str("in_progress")]))
  }

  const MockExtractedData := Obj(map["summary" := Str("This is mock extracted data.")])

  /**
   * `complete_job_after_delay`, run as its own step.  The job is still
   * there (the store never removes one); were it not, the coroutine's `KeyError`
   * would leave the store as it is.
   */
  function Complete(s: Store, id: string): (t: Store)
    ensures id !in s.jobs ==> t == s
    ensures id in s.jobs ==>
      && t.order == s.order
      && t.jobs.Keys == s.jobs.Keys
      && t.jobs[id] == s.jobs[id]["status" := Str("completed")]["extractedData" := MockExtractedData]
      && (forall k :: k in s.jobs && k != id ==> t.jobs[k] == s.jobs[k])
    ensures Valid(s) ==> Valid(t)
  {
    if id !in s.jobs then s
    else Put(s, id, s.jobs[id]["status" := Str("completed")]["extractedData" := MockExtractedData])
  }

  /**
   * Upload, PUT the file, let the completion coroutine run: the new job ends `completed`
   * with the mock data and its upload fields kept, and no other job moves.
   */
  lemma UploadLifecycle(s: Store, req: UploadRequest, u: nat)
    ensures var id := JobId(u);
      var t := Upload(s, req, u).0;
      var m := MockUpload(t, id);
      && m.Success?
      && var done := Complete(m.value, id);
      && done.jobs[id]["status"] == Str("completed")
      && done.jobs[id]["extractedData"] == MockExtractedData
      && done.jobs[id]["jobId"] == Str(id)
      && done.jobs[id]["uploadUrl"] == Str(UploadUrl(id, req.filename))
      && (forall k :: k != id ==> (k in done.jobs <==> k in s.jobs))
      && (forall k :: k != id && k in s.jobs ==> done.jobs[k] == s.jobs[k])
  {
  }

  /** One element of the `upload_batch` response. */
  function BatchEntry(req: UploadRequest, id: string): Json
  {
    Obj(map["filename" := Str(req.filename), "uploadUrl" := Str(UploadUrl(id, req.filename)), "jobId" := Str(id)])
  }

  /** The ids the first `n` requests of a batch get. */
  function BatchIds(uuid: nat -> nat, n: nat): (ids: seq<string>)
    ensures |ids| == n
    ensures forall k :: 0 <= k < n ==> ids[k] == JobId(uuid(k))
  {
    seq(n, k requires 0 <= k < n => JobId(uuid(k)))
  }

  /** Every request of the batch gets an id not yet stored and not shared with another request. */
  ghost predicate FreshIds(s: Store, ids: seq<string>)
  {
    && (forall k :: 0 <= k < |ids| ==> ids[k] !in s.jobs)
    && (forall k, l :: 0 <= k < l < |ids| ==> ids[k] != ids[l])
  }

  /** Distinct uuids below 2^128 for the requests of a batch make its ids distinct. */
  lemma DistinctUuidsFreshIds(s: Store, uuid: nat -> nat, n: nat)
    requires forall k :: 0 <= k < n ==> uuid(k) < Pow16(32) && JobId(uuid(k)) !in s.jobs
    requires forall k, l :: 0 <= k < l < n ==> uuid(k) != uuid(l)
    ensures FreshIds(s, BatchIds(uuid, n))
  {
    var ids := BatchIds(uuid, n);
    forall k, l | 0 <= k < l < n
      ensures ids[k] != ids[l]
    {
      if ids[k] == ids[l] {
        JobIdInjective(uuid(k), uuid(l));
      }
    }
  }

  /** The stored keys are the old ones and `added`. */
  ghost predicate KeysAdded(s: Store, out: Store, added: seq<string>)
  {
    forall k :: k in out.jobs <==> k in s.jobs || k in added
  }

  /** A stored job whose key is not among `added` is as it was. */
  ghost predicate OthersKept(s: Store, out: Store, added: seq<string>)
  {
    forall k :: k in s.jobs && k !in added ==> k in out.jobs && out.jobs[k] == s.jobs[k]
  }

  /** The first `n` ids follow the old keys in request order, each holding its request's job. */
  ghost predicate AppendedInOrder(s: Store, out: Store, reqs: seq<UploadRequest>, ids: seq<string>, n: nat)
    requires n <= |reqs| && n <= |ids|
  {
    && out.order == s.order + ids[..n]
    && forall k :: 0 <= k < n ==> ids[k] in out.jobs && out.jobs[ids[k]] == NewJob(ids[k], reqs[k])
  }

  lemma KeysAddedStep(s: Store, out: Store, ids: seq<string>, i: nat, job: Record)
    requires i < |ids|
    requires KeysAdded(s, out, ids[..i])
    ensures KeysAdded(s, Put(out, ids[i], job), ids[..i + 1])
  {
    assert ids[..i + 1] == ids[..i] + [ids[i]];
  }

  lemma OthersKeptStep(s: Store, out: Store, ids: seq<string>, i: nat, job: Record)
    requires i < |ids|
    requires OthersKept(s, out, ids[..i])
    ensures OthersKept(s, Put(out, ids[i], job), ids[..i + 1])
  {
    assert ids[..i + 1] == ids[..i] + [ids[i]];
  }

  lemma AppendedStep(s: Store, out: Store, reqs: seq<UploadRequest>, ids: seq<string>, i: nat)
    requires i < |reqs| && i < |ids|
    requires FreshIds(s, ids)
    requires KeysAdded(s, out, ids[..i])
    requires AppendedInOrder(s, out, reqs, ids, i)
    ensures AppendedInOrder(s, Put(out, ids[i], NewJob(ids[i], reqs[i])), reqs, ids, i + 1)
  {
    var id := ids[i];
    assert id !in ids[..i];
    assert id !in out.jobs;
    assert ids[..i + 1] == ids[..i] + [id];
  }

  /** The response of `upload_batch` after `n` requests. */
  ghost predicate Answered(results: seq<Json>, reqs: seq<UploadRequest>, ids: seq<string>, n: nat)
    requires n <= |reqs| && n <= |ids|
  {
    && |results| == n
    && forall k :: 0 <= k < n ==> results[k] == BatchEntry(reqs[k], ids[k])
  }

  /** The store of `upload_batch` after `n` requests. */
  ghost predicate Stored(s: Store, out: Store, reqs: seq<UploadRequest>, ids: seq<string>, n: nat)
    requires n <= |reqs| && n <= |ids|
  {
    && KeysAdded(s, out, ids[..n])
    && OthersKept(s, out, ids[..n])
    && (Valid(s) ==> Valid(out))
    && (FreshIds(s, ids) ==> AppendedInOrder(s, out, reqs, ids, n))
  }

  lemma AnsweredStep(results: seq<Json>, reqs: seq<UploadRequest>, ids: seq<string>, n: nat)
    requires n < |reqs| && n < |ids|
    requires Answered(results, reqs, ids, n)
    ensures Answered(results + [BatchEntry(reqs[n], ids[n])], reqs, ids, n + 1)
  {
    assert forall k :: 0 <= k < n ==> (results + [BatchEntry(reqs[n], ids[n])])[k] == results[k];
  }

  lemma StoredStep(s: Store, out: Store, reqs: seq<UploadRequest>, ids: seq<string>, n: nat)
    requires n < |reqs| && n < |ids|
    requires Stored(s, out, reqs, ids, n)
    ensures Stored(s, Put(out, ids[n], NewJob(ids[n], reqs[n])), reqs, ids, n + 1)
  {
    var job := NewJob(ids[n], reqs[n]);
    KeysAddedStep(s, out, ids, n, job);
    OthersKeptStep(s, out, ids, n, job);
    if FreshIds(s, ids) {
      AppendedStep(s, out, reqs, ids, n);
    }
  }

  /**
   * `upload_batch` with `uuid(i)` as the uuid of the `i`-th request: one
   * response entry per request in request order, each naming its job and
   * echoing its filename; with fresh ids every request's job is stored and
   * listed after the jobs that were there, in request order.
   */
  method UploadBatch(s: Store, reqs: seq<UploadRequest>, uuid: nat -> nat) returns (out: Store, results: seq<Json>)
    ensures |results| == |reqs|
    ensures forall i :: 0 <= i < |reqs| ==> results[i] == BatchEntry(reqs[i], JobId(uuid(i)))
    ensures KeysAdded(s, out, BatchIds(uuid, |reqs|))
    ensures OthersKept(s, out, BatchIds(uuid, |reqs|))
    ensures Valid(s) ==> Valid(out)
    ensures FreshIds(s, BatchIds(uuid, |reqs|)) ==> AppendedInOrder(s, out, reqs, BatchIds(uuid, |reqs|), |reqs|)
  {
    var ids := BatchIds(uuid, |reqs|);
    out := s;
    results := [];
    var i := 0;
    assert ids[..0] == [];
    while i < |reqs|
      invariant 0 <= i <= |reqs|
      invariant Answered(results, reqs, ids, i)
      invariant Stored(s, out, reqs, ids, i)
    {
      AnsweredStep(results, reqs, ids, i);
      StoredStep(s, out, reqs, ids, i);
      out := Put(out, ids[i], NewJob(ids[i], reqs[i]));
      results := results + [BatchEntry(reqs[i], ids[i])];
      i := i + 1;
    }
    assert ids[..i] == ids;
  }

  /** With fresh ids a batch's jobs are listed after the old ones, in request order. */
  lemma ListAfterBatch(s: Store, out: Store, reqs: seq<UploadRequest>, ids: seq<string>)
    requires |ids| == |reqs|
    requires Valid(s) && Valid(out) && FreshIds(s, ids)
    requires OthersKept(s, out, ids)
    requires AppendedInOrder(s, out, reqs, ids, |reqs|)
    ensures ListJobs(out) == ListJobs(s) + seq(|reqs|, i requires 0 <= i < |reqs| => NewJob(ids[i], reqs[i]))
  {
    assert ids[..|reqs|] == ids;
    var listed := ListJobs(out);
    var expected := ListJobs(s) + seq(|reqs|, i requires 0 <= i < |reqs| => NewJob(ids[i], reqs[i]));
    assert |listed| == |expected|;
    forall i | 0 <= i < |listed|
      ensures listed[i] == expected[i]
    {
      if i < |s.order| {
        var k := s.order[i];
        assert out.order[i] == k;
        assert k !in ids;
      } else {
        assert out.order[i] == ids[i - |s.order|];
      }
    }
  }
}
