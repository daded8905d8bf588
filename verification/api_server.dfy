/**
 * The FastAPI upload service (`api-server.py`): storage connection-string
 * parsing, the credential checks before a SAS URL is signed, job creation
 * on upload with the message queued for the worker, and the read-side
 * guards of the analysis and chat endpoints.
 *
 * The Cosmos container is `Worker.Store`.  The environment is a value;
 * SAS signing, the blob client's URL and the Service Bus send are oracles;
 * `uuid4().int` and `utcnow().isoformat()` are inputs.
 */
module ApiServer {
  import opened Wrappers
  import opened Strings
  import opened Json
  import opened Http
  import Worker
  import Inference

  /** The key a `key=value` segment assigns: the text before the first '='. */
  function KeyOf(seg: string): string
    requires '=' in seg
  {
    SplitOnce(seg, '=')[0]
  }

  /** The value a `key=value` segment assigns: everything after the first '=', further '=' included. */
  function ValueOf(seg: string): string
    requires '=' in seg
  {
    SplitOnce(seg, '=')[1]
  }

  /** Segment `seg` of a connection string assigns `key`. */
  predicate Defines(seg: string, key: string)
  {
    '=' in seg && KeyOf(seg) == key
  }

  /** `dict(p.split('=', 1) for p in segs if '=' in p)`: built left to right, so a later segment overwrites. */
  function SegmentDict(segs: seq<string>): map<string, string>
  {
    if |segs| == 0 then map[]
    else
      var d := SegmentDict(segs[..|segs| - 1]);
      var p := segs[|segs| - 1];
      if '=' in p then d[KeyOf(p) := ValueOf(p)] else d
  }

  /** The dictionary's keys are exactly the keys the segments with an '=' assign. */
  lemma {:induction false} SegmentDictKeys(segs: seq<string>)
    ensures forall i :: 0 <= i < |segs| && '=' in segs[i] ==> KeyOf(segs[i]) in SegmentDict(segs)
    ensures forall key :: key in SegmentDict(segs) ==> exists i :: 0 <= i < |segs| && Defines(segs[i], key)
  {
    if |segs| > 0 {
      var pre := segs[..|segs| - 1];
      SegmentDictKeys(pre);
      assert forall i :: 0 <= i < |pre| ==> pre[i] == segs[i];
    }
  }

  /** `o` is what the last segment assigning `key` assigns, or `None` when no segment assigns it. */
  ghost predicate IsLastValue(segs: seq<string>, key: string, o: Option<string>)
  {
    match o
    case None => forall i :: 0 <= i < |segs| ==> !Defines(segs[i], key)
    case Some(v) =>
      exists i :: 0 <= i < |segs| && Defines(segs[i], key) && ValueOf(segs[i]) == v
        && forall j :: i < j < |segs| ==> !Defines(segs[j], key)
  }

  function Lookup(d: map<string, string>, key: string): Option<string>
  {
    if key in d then Some(d[key]) else None
  }

  /** One more segment: it decides `key` when it assigns it, and leaves it alone otherwise. */
  lemma SegmentDictStep(segs: seq<string>, key: string)
    requires |segs| > 0
    ensures Defines(segs[|segs| - 1], key) ==> Lookup(SegmentDict(segs), key) == Some(ValueOf(segs[|segs| - 1]))
    ensures !Defines(segs[|segs| - 1], key) ==>
      Lookup(SegmentDict(segs), key) == Lookup(SegmentDict(segs[..|segs| - 1]), key)
  {
  }

  /** A last segment that does not assign `key` keeps what the earlier segments decided. */
  lemma LastValueExtend(segs: seq<string>, key: string, o: Option<string>)
    requires |segs| > 0 && !Defines(segs[|segs| - 1], key)
    requires IsLastValue(segs[..|segs| - 1], key, o)
    ensures IsLastValue(segs, key, o)
  {
    var pre := segs[..|segs| - 1];
    match o
    case None =>
      assert forall i :: 0 <= i < |pre| ==> pre[i] == segs[i];
    case Some(v) =>
      var i :| 0 <= i < |pre| && Defines(pre[i], key) && ValueOf(pre[i]) == v
        && forall j :: i < j < |pre| ==> !Defines(pre[j], key);
      LastSomeExtend(segs, pre, key, i);
  }

  /** The segment `i` that was the last to assign `key` stays the last when a segment not assigning it follows. */
  lemma LastSomeExtend(segs: seq<string>, pre: seq<string>, key: string, i: nat)
    requires |segs| > 0 && pre == segs[..|segs| - 1]
    requires i < |pre| && !Defines(segs[|segs| - 1], key) && Defines(segs[i], key)
    requires forall j :: i < j < |pre| ==> !Defines(pre[j], key)
    ensures IsLastValue(segs, key, Some(ValueOf(segs[i])))
  {
    forall j | i < j < |segs|
      ensures !Defines(segs[j], key)
    {
      if j < |pre| {
        assert pre[j] == segs[j];
      }
    }
  }

  /** A last segment that assigns `key` decides it. */
  lemma LastValueOwn(segs: seq<string>, key: string)
    requires |segs| > 0 && Defines(segs[|segs| - 1], key)
    ensures IsLastValue(segs, key, Some(ValueOf(segs[|segs| - 1])))
  {
    var i := |segs| - 1;
    assert Defines(segs[i], key) && ValueOf(segs[i]) == ValueOf(segs[|segs| - 1]);
  }

  /** The dictionary holds, for every key, the value of the last segment assigning it. */
  lemma {:induction false} SegmentDictLastWins(segs: seq<string>, key: string)
    ensures IsLastValue(segs, key, Lookup(SegmentDict(segs), key))
  {
    if |segs| > 0 {
      var pre := segs[..|segs| - 1];
      SegmentDictLastWins(pre, key);
      SegmentDictStep(segs, key);
      if Defines(segs[|segs| - 1], key) {
        LastValueOwn(segs, key);
      } else {
        LastValueExtend(segs, key, Lookup(SegmentDict(pre), key));
      }
    }
  }

  /**
   * `parse_connection_string`: the account name and key of a storage
   * connection string, each the value of the last segment assigning it.
   */
  function ParseConnectionString(conn: string): (r: (Option<string>, Option<string>))
    ensures IsLastValue(Split(conn, ';'), "AccountName", r.0)
    ensures IsLastValue(Split(conn, ';'), "AccountKey", r.1)
  {
    var segs := Split(conn, ';');
    SegmentDictLastWins(segs, "AccountName");
    SegmentDictLastWins(segs, "AccountKey");
    (Lookup(SegmentDict(segs), "AccountName"), Lookup(SegmentDict(segs), "AccountKey"))
  }

  /** The connection string a storage account publishes, with only its name and key. */
  function ConnectionString(name: string, key: string): string
  {
    "AccountName=" + name + ";AccountKey=" + key
  }

  /** The segment `key=value`. */
  function Assign(key: string, value: string): string
  {
    key + "=" + value
  }

  /** A segment `key=value` with no '=' in the key assigns that key that value. */
  lemma AssignParts(key: string, value: string)
    requires '=' !in key
    ensures '=' in Assign(key, value) && KeyOf(Assign(key, value)) == key && ValueOf(Assign(key, value)) == value
  {
    assert Assign(key, value) == key + ['='] + value;
    SplitOnceCons(key, value, '=');
  }

  /** Two segments `k1=v1;k2=v2` make the dictionary with both, the second winning on a repeated key. */
  lemma TwoSegments(k1: string, v1: string, k2: string, v2: string)
    requires '=' !in k1 && '=' !in k2 && ';' !in k1 && ';' !in k2 && ';' !in v1 && ';' !in v2
    ensures SegmentDict(Split(Assign(k1, v1) + ";" + Assign(k2, v2), ';')) == map[k1 := v1][k2 := v2]
  {
    var a := Assign(k1, v1);
    var b := Assign(k2, v2);
    assert a + ";" + b == a + [';'] + b;
    assert ';' !in a by {
      assert a == k1 + ['='] + v1;
    }
    assert ';' !in b by {
      assert b == k2 + ['='] + v2;
    }
    SplitPair(a, b, ';');
    AssignParts(k1, v1);
    AssignParts(k2, v2);
    assert [a, b][..1] == [a];
    assert SegmentDict([a]) == map[k1 := v1];
  }

  /** Name and key come back out of their connection string, even a key with '=' padding. */
  lemma ConnectionStringRoundTrip(name: string, key: string)
    requires ';' !in name && ';' !in key
    ensures ParseConnectionString(ConnectionString(name, key)) == (Some(name), Some(key))
  {
    var conn := ConnectionString(name, key);
    assert conn == Assign("AccountName", name) + ";" + Assign("AccountKey", key);
    TwoSegments("AccountName", name, "AccountKey", key);
  }

  /** A repeated key resolves to its last value. */
  lemma RepeatedKeyLastWins(first: string, last: string)
    requires ';' !in first && ';' !in last
    ensures ParseConnectionString("AccountKey=" + first + ";AccountKey=" + last).1 == Some(last)
  {
    assert "AccountKey=" + first + ";AccountKey=" + last == Assign("AccountKey", first) + ";" + Assign("AccountKey", last);
    TwoSegments("AccountKey", first, "AccountKey", last);
  }

  /** Python truthiness of an environment variable: set and non-empty. */
  predicate IsSet(o: Option<string>)
  {
    o.Some? && o.value != ""
  }

  const NoConnectionString := Fault("STORAGE_CONNECTION_STRING required for SAS token generation")
  const BadCredentials := Fault("Could not parse storage account credentials")

  /**
   * The checks of `generate_sas_upload_url` before signing: a connection
   * string must be set, and both the account name and key parsed from it
   * must be non-empty.
   */
  function SasCredentials(conn: Option<string>): (r: Result<(string, string), Fault>)
    ensures !IsSet(conn) ==> r == Failure(NoConnectionString)
    ensures IsSet(conn) && r.Failure? ==> r == Failure(BadCredentials)
    ensures r.Success? <==>
      && IsSet(conn)
      && IsSet(ParseConnectionString(conn.value).0)
      && IsSet(ParseConnectionString(conn.value).1)
    ensures r.Success? ==> (Some(r.value.0), Some(r.value.1)) == ParseConnectionString(conn.value)
  {
    if !IsSet(conn) then Failure(NoConnectionString)
    else
      var (name, key) := ParseConnectionString(conn.value);
      if !IsSet(name) || !IsSet(key) then Failure(BadCredentials)
      else Success((name.value, key.value))
  }

  /**
   * The SAS signer `generate_blob_sas`: account name, account key,
   * container and blob name to a token, or what it raises (a key that is
   * not base64, say).
   */
  type Signer = (string, string, string, string) -> Result<string, Fault>

  /**
   * `generate_sas_upload_url`: the blob's URL, '?', and a token signed with
   * the parsed credentials.  A missing or unparsable connection string
   * raises before signing; a signing error is raised as it is.
   */
  function SasUploadUrl(conn: Option<string>, blobName: string, container: string,
                        blobUrl: (string, string) -> string, sign: Signer): (r: Result<string, Fault>)
    ensures SasCredentials(conn).Failure? ==> r == Failure(SasCredentials(conn).error)
    ensures SasCredentials(conn).Success? ==>
      var (name, key) := SasCredentials(conn).value;
      && (r.Success? <==> sign(name, key, container, blobName).Success?)
      && (r.Failure? ==> r == Failure(sign(name, key, container, blobName).error))
      && (r.Success? ==> r.value == blobUrl(container, blobName) + "?" + sign(name, key, container, blobName).value)
  {
    var (name, key) :- SasCredentials(conn);
    var token :- sign(name, key, container, blobName);
    Success(blobUrl(container, blobName) + "?" + token)
  }

  /** The environment variables the upload path reads. */
  datatype Env = Env(
    cosmosEndpoint: Option<string>,
    storageConnection: Option<string>,
    containerName: Option<string>,
    serviceBusNamespace: Option<string>,
    serviceBusConnection: Option<string>)

  /** `STORAGE_CONTAINER_NAME`, default `documents`. */
  function ContainerName(env: Env): string
  {
    env.containerName.GetOr("documents")
  }

  /** The validated request body; `insuranceType` is already defaulted to `life` when omitted, `None` for an explicit null. */
  datatype UploadRequest = UploadRequest(filename: string, insuranceType: Option<string>)

  /** `f"job-{uuid.uuid4().hex}"`. */
  function JobIdOf(uuid: nat): (id: string)
    ensures |id| == 36 && id[..4] == "job-"
    ensures forall k :: 4 <= k < 36 ==> IsHexChar(id[k])
  {
    "job-" + HexDigits(uuid, 32)
  }

  /** Two uuids give the same job id only when they are the same uuid. */
  lemma JobIdsDistinct(u: nat, v: nat)
    requires u < Pow16(32) && v < Pow16(32) && u != v
    ensures JobIdOf(u) != JobIdOf(v)
  {
    if JobIdOf(u) == JobIdOf(v) {
      assert HexDigits(u, 32) == JobIdOf(u)[4..];
      HexDigitsInjective(u, v, 32);
    }
  }

  /** The job item `upload_document` creates. */
  function PendingJob(jobId: string, req: UploadRequest, now: string): Record
  {
    map["id" := Str(jobId), "jobId" := Str(jobId), "filename" := Str(req.filename),
        "insuranceType" := OptStr(req.insuranceType), "status" := Str("pending"),
        "createdAt" := Str(now), "updatedAt" := Str(now)]
  }

  /** `f"{container_name}/{job_id}/{filename}"`: the path the worker downloads. */
  function BlobPath(container: string, jobId: string, filename: string): string
  {
    container + "/" + (jobId + "/" + filename)
  }

  /** The queue message body for the worker. */
  function UploadMessage(jobId: string, req: UploadRequest, container: string, now: string): Record
  {
    map["jobId" := Str(jobId), "filename" := Str(req.filename),
        "blobPath" := Str(BlobPath(container, jobId, req.filename)),
        "insuranceType" := OptStr(req.insuranceType), "timestamp" := Str(now)]
  }

  /** What creating an item whose id exists raises (the SDK's wording). */
  const Conflict := Fault("Entity with the specified id already exists in the system.")
  const NoCosmos := Fault("COSMOS_DB_ENDPOINT environment variable is required")
  const NoServiceBus := Fault("SERVICE_BUS_NAMESPACE or SERVICE_BUS_CONNECTION_STRING is required")

  /** The store after the request, the message queued (if any) and the response. */
  datatype Upload = Upload(store: Worker.Store, queued: Option<Record>, response: Response)

  /** `get_servicebus_client` needs a namespace or a connection string. */
  predicate ServiceBusConfigured(env: Env)
  {
    IsSet(env.serviceBusNamespace) || IsSet(env.serviceBusConnection)
  }

  /**
   * The part of `upload_document` after the job is created: sign the
   * upload URL for `container/jobId/filename` and queue the job.  The
   * store is left as it is whatever happens.
   */
  function Publish(created: Worker.Store, jobId: string, req: UploadRequest, now: string, env: Env,
                   blobUrl: (string, string) -> string, sign: Signer,
                   enqueue: Record -> Option<Fault>): (out: Upload)
    ensures out.store == created
    ensures out.response.status == 200 || out.response.status == 500
    ensures out.queued.Some? <==> out.response.status == 200
    ensures out.response.status == 200 <==>
      && SasUploadUrl(env.storageConnection, jobId + "/" + req.filename, ContainerName(env), blobUrl, sign).Success?
      && ServiceBusConfigured(env)
      && enqueue(UploadMessage(jobId, req, ContainerName(env), now)).None?
    ensures out.queued.Some? ==> out.queued.value == UploadMessage(jobId, req, ContainerName(env), now)
    ensures SasUploadUrl(env.storageConnection, jobId + "/" + req.filename, ContainerName(env), blobUrl, sign).Failure? ==>
      out.response == Detail(500, SasUploadUrl(env.storageConnection, jobId + "/" + req.filename, ContainerName(env), blobUrl, sign).error.message)
    ensures out.response.status == 200 ==>
      var url := SasUploadUrl(env.storageConnection, jobId + "/" + req.filename, ContainerName(env), blobUrl, sign).value;
      out.response == Ok(Obj(map["uploadUrl" := Str(url), "jobId" := Str(jobId)]))
  {
    var container := ContainerName(env);
    match SasUploadUrl(env.storageConnection, jobId + "/" + req.filename, container, blobUrl, sign)
    case Failure(f) => Upload(created, None, Detail(500, f.message))
    case Success(url) =>
      if !ServiceBusConfigured(env) then Upload(created, None, Detail(500, NoServiceBus.message))
      else
        var message := UploadMessage(jobId, req, container, now);
        match enqueue(message)
        case Some(f) => Upload(created, None, Detail(500, f.message))
        case None => Upload(created, Some(message), Ok(Obj(map["uploadUrl" := Str(url), "jobId" := Str(jobId)])))
  }

  /** The upload succeeds: every step of `upload_document` goes through. */
  ghost predicate UploadSucceeds(store: Worker.Store, req: UploadRequest, uuid: nat, now: string, env: Env,
                                 blobUrl: (string, string) -> string, sign: Signer, enqueue: Record -> Option<Fault>)
  {
    && req.filename != ""
    && IsSet(env.cosmosEndpoint)
    && JobIdOf(uuid) !in store
    && SasUploadUrl(env.storageConnection, JobIdOf(uuid) + "/" + req.filename, ContainerName(env), blobUrl, sign).Success?
    && ServiceBusConfigured(env)
    && enqueue(UploadMessage(JobIdOf(uuid), req, ContainerName(env), now)).None?
  }

  /**
   * `upload_document`: reject an empty filename; create the pending job;
   * sign the upload URL for `container/jobId/filename`; queue the job for
   * the worker.  A failure after the job was created answers 500 but
   * leaves the job in place.  `enqueue` is the retried Service Bus send:
   * `None` when it was delivered.
   */
  function UploadDocument(store: Worker.Store, req: UploadRequest, uuid: nat, now: string, env: Env,
                          blobUrl: (string, string) -> string, sign: Signer,
                          enqueue: Record -> Option<Fault>): (out: Upload)
    ensures req.filename == "" ==> out == Upload(store, None, Detail(400, "filename is required"))
    ensures out.response.status == 200 || out.response.status == 400 || out.response.status == 500
    ensures out.response.status == 200 <==> UploadSucceeds(store, req, uuid, now, env, blobUrl, sign, enqueue)
    ensures forall k :: k in store ==> k in out.store && out.store[k] == store[k]
    ensures out.store.Keys <= store.Keys + {JobIdOf(uuid)}
    ensures JobIdOf(uuid) !in store && JobIdOf(uuid) in out.store ==>
      out.store[JobIdOf(uuid)] == PendingJob(JobIdOf(uuid), req, now)
    ensures out.queued.Some? <==> out.response.status == 200
    ensures && req.filename != "" && IsSet(env.cosmosEndpoint) && JobIdOf(uuid) !in store
            && SasUploadUrl(env.storageConnection, JobIdOf(uuid) + "/" + req.filename, ContainerName(env), blobUrl, sign).Failure? ==>
      && out.store == store[JobIdOf(uuid) := PendingJob(JobIdOf(uuid), req, now)]
      && out.response == Detail(500, SasUploadUrl(env.storageConnection, JobIdOf(uuid) + "/" + req.filename,
                                                   ContainerName(env), blobUrl, sign).error.message)
    ensures out.response.status == 200 ==>
      && out.store == store[JobIdOf(uuid) := PendingJob(JobIdOf(uuid), req, now)]
      && out.queued == Some(UploadMessage(JobIdOf(uuid), req, ContainerName(env), now))
    ensures out.response.status == 200 ==>
      var url := SasUploadUrl(env.storageConnection, JobIdOf(uuid) + "/" + req.filename, ContainerName(env), blobUrl, sign).value;
      out.response == Ok(Obj(map["uploadUrl" := Str(url), "jobId" := Str(JobIdOf(uuid))]))
  {
    if req.filename == "" then Upload(store, None, Detail(400, "filename is required"))
    else if !IsSet(env.cosmosEndpoint) then Upload(store, None, Detail(500, NoCosmos.message))
    else
      var jobId := JobIdOf(uuid);
      if jobId in store then Upload(store, None, Detail(500, Conflict.message))
      else Publish(store[jobId := PendingJob(jobId, req, now)], jobId, req, now, env, blobUrl, sign, enqueue)
  }

  /**
   * The path an upload queues is the one the worker can split: the
   * container, and the job's blob name `jobId/filename`.  The job the
   * message names is in the store.
   */
  lemma UploadedBlobPathRoundTrip(store: Worker.Store, req: UploadRequest, uuid: nat, now: string, env: Env,
                                  blobUrl: (string, string) -> string, sign: Signer,
                                  enqueue: Record -> Option<Fault>)
    requires UploadDocument(store, req, uuid, now, env, blobUrl, sign, enqueue).queued.Some?
    requires '/' !in ContainerName(env)
    ensures var out := UploadDocument(store, req, uuid, now, env, blobUrl, sign, enqueue);
      && out.queued.value["blobPath"].Str?
      && Worker.ParseBlobPath(out.queued.value["blobPath"].s)
           == Success((ContainerName(env), JobIdOf(uuid) + "/" + req.filename))
      && out.queued.value["jobId"] == Str(JobIdOf(uuid))
      && JobIdOf(uuid) in out.store
  {
    var out := UploadDocument(store, req, uuid, now, env, blobUrl, sign, enqueue);
    var container := ContainerName(env);
    var id := JobIdOf(uuid);
    var msg := UploadMessage(id, req, container, now);
    assert out.queued == Some(msg) && id in out.store;
    var rest := id + "/" + req.filename;
    assert msg["blobPath"] == Str(container + ['/'] + rest);
    SplitOnceCons(container, rest, '/');
  }

  /** `get_job`: the stored item, or 404. */
  function GetJob(store: Worker.Store, jobId: string): (r: Response)
    ensures r.status == 200 <==> jobId in store
    ensures jobId in store ==> r.body == Obj(store[jobId])
    ensures jobId !in store ==> r == Detail(404, "Job " + jobId + " not found")
  {
    if jobId !in store then Detail(404, "Job " + jobId + " not found")
    else Ok(Obj(store[jobId]))
  }

  /** `get_job_analysis`: 404 for a missing job, 404 while the analysis is absent or empty, else the analysis. */
  function GetJobAnalysis(store: Worker.Store, jobId: string): (r: Response)
    ensures r.status == 200 || r.status == 404
    ensures r.status == 200 <==> jobId in store && "analysis" in store[jobId] && Truthy(store[jobId]["analysis"])
    ensures r.status == 200 ==> r.body == store[jobId]["analysis"]
    ensures jobId in store && r.status == 404 ==> r == Detail(404, "Analysis not available yet")
  {
    if jobId !in store then Detail(404, "Job " + jobId + " not found")
    else
      var job := store[jobId];
      if "analysis" !in job || !Truthy(job["analysis"]) then Detail(404, "Analysis not available yet")
      else Ok(job["analysis"])
  }

  /**
   * `chat_with_job`: 404 for a missing job; a job without `status` raises
   * `KeyError('status')`, answered 500; 400 unless the status is `completed`.
   */
  function ChatWithJob(store: Worker.Store, jobId: string): (r: Response)
    ensures r.status == 200 <==> jobId in store && HasStr(store[jobId], "status", "completed")
    ensures jobId !in store ==> r.status == 404
    ensures jobId in store && "status" !in store[jobId] ==> r == Detail(500, "'status'")
    ensures jobId in store && "status" in store[jobId] && !HasStr(store[jobId], "status", "completed") ==>
      r == Detail(400, "Job must be completed before chatting")
  {
    if jobId !in store then Detail(404, "Job " + jobId + " not found")
    else
      var job := store[jobId];
      if "status" !in job then Detail(500, "'status'")
      else if job["status"] != Str("completed") then Detail(400, "Job must be completed before chatting")
      else Ok(Obj(map["response" := Str("Chat functionality coming soon!"), "context" := Arr([])]))
  }

  /**
   * Once the worker has stored a comprehensive analysis, the analysis
   * endpoint serves it: a successful analysis is a non-empty object.
   */
  lemma CompletedAnalysisIsServed(store: Worker.Store, jobId: string, reply: Inference.Reply,
                                  parse: Inference.Parser, now: string)
    requires jobId in store && "analysis" in store[jobId]
    requires Worker.ComprehensiveAnalysis(reply, parse, now).Success?
    requires store[jobId]["analysis"] == Worker.ComprehensiveAnalysis(reply, parse, now).value
    ensures GetJobAnalysis(store, jobId) == Ok(store[jobId]["analysis"])
  {
    var fields := store[jobId]["analysis"].fields;
    assert "completedAt" in fields;
    assert |fields| > 0 by {
      assert "completedAt" in fields.Keys;
    }
  }
}
