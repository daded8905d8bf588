/**
 * The Azure Functions HTTP handler (`api_handler/__init__.py`): route
 * dispatch, the frontend-facing normalisation of job items, single and
 * batch upload with job creation, and document URLs.
 *
 * The Cosmos container is `Worker.Store`; `read_all_items` is a sequence
 * of items in the container's order.  The blob client's URL, SAS signing,
 * the storage client constructor and `uuid4` are oracles in `Services`;
 * the clock is the string `now`.  Every response carries the same CORS
 * headers.
 */
module ApiHandler {
  import opened Wrappers
  import opened Strings
  import opened Json
  import opened Inference
  import Worker
  import ApiServer

  /** A response of `main`: status, JSON body (`Null` for none) and headers. */
  datatype Response = Response(status: nat, body: Json, headers: map<string, string>)

  const CorsHeaders: map<string, string> := map[
    "Access-Control-Allow-Origin" := "*",
    "Access-Control-Allow-Methods" := "GET, POST, OPTIONS",
    "Access-Control-Allow-Headers" := "Content-Type"]

  function Answer(status: nat, body: Json): Response
  {
    Response(status, body, CorsHeaders)
  }

  function Error(status: nat, message: string): Response
  {
    Answer(status, Obj(map["error" := Str(message)]))
  }

  // ---------------------------------------------------------------- dispatch

  /** The handler `main` chooses. */
  datatype Handler =
    | Preflight
    | UploadOne
    | UploadBatch
    | ListJobs
    | DocumentUrl(jobId: string)
    | OneJob(jobId: string)
    | NoRoute

  /** For a route under `jobs/`: the second '/'-separated segment. */
  function JobIdOfRoute(route: string): string
    requires StartsWith(route, "jobs/")
  {
    assert route == "jobs" + ['/'] + route[5..];
    SplitCons("jobs", route[5..], '/');
    Split(route, '/')[1]
  }

  /** The job id of a `jobs/...` route is the text after `jobs/` up to the next '/', if any. */
  lemma JobIdOfRouteSpan(route: string)
    requires StartsWith(route, "jobs/")
    ensures var id := JobIdOfRoute(route);
      && '/' !in id
      && StartsWith(route, "jobs/" + id)
      && (|route| == 5 + |id| || route[5 + |id|] == '/')
  {
    var rest := route[5..];
    assert route == "jobs" + ['/'] + rest;
    SplitCons("jobs", rest, '/');
    var id := Split(rest, '/')[0];
    assert JobIdOfRoute(route) == id;
    if '/' in rest {
      var i := IndexOf(rest, '/');
      assert Split(rest, '/') == [rest[..i]] + Split(rest[i + 1..], '/');
      assert id == rest[..i];
      assert route[..5 + |id|] == "jobs/" + id;
    } else {
      assert route == "jobs/" + id;
    }
  }

  /** The dispatch of `main`, in the order its conditions are tried. */
  function Route(verb: string, route: string): (h: Handler)
    ensures verb == "OPTIONS" <==> h == Preflight
    ensures h == UploadOne <==> verb == "POST" && (route == "upload" || route == "documents/upload")
    ensures h == UploadBatch <==> verb == "POST" && route == "documents/batch-upload"
    ensures h == ListJobs <==> verb == "GET" && route == "jobs"
    ensures h.DocumentUrl? <==> verb == "GET" && StartsWith(route, "jobs/") && Contains(route, "/document-url")
    ensures h.OneJob? <==> verb == "GET" && StartsWith(route, "jobs/") && !Contains(route, "/document-url")
    ensures h.DocumentUrl? || h.OneJob? ==> h.jobId == JobIdOfRoute(route)
    ensures h == NoRoute <==>
      && verb != "OPTIONS"
      && !(verb == "POST" && route in {"upload", "documents/upload", "documents/batch-upload"})
      && !(verb == "GET" && (route == "jobs" || StartsWith(route, "jobs/")))
  {
    if verb == "OPTIONS" then Preflight
    else if (route == "upload" || route == "documents/upload") && verb == "POST" then UploadOne
    else if route == "documents/batch-upload" && verb == "POST" then UploadBatch
    else if route == "jobs" && verb == "GET" then ListJobs
    else if StartsWith(route, "jobs/") && Contains(route, "/document-url") && verb == "GET" then
      DocumentUrl(JobIdOfRoute(route))
    else if StartsWith(route, "jobs/") && verb == "GET" then OneJob(JobIdOfRoute(route))
    else NoRoute
  }

  // ------------------------------------------------------- connection string

  /** `re.search(p + "([^;]+)", s)` can match at `i`: `p`, then at least one character other than ';'. */
  predicate MatchAt(s: string, p: string, i: nat)
  {
    i + |p| < |s| && OccursAt(s, p, i) && s[i + |p|] != ';'
  }

  /** The group captured by a match at `i`: the longest run of non-';' characters after `p`. */
  function GroupAt(s: string, p: string, i: nat): string
    requires i + |p| <= |s|
  {
    SplitOnce(s[i + |p|..], ';')[0]
  }

  /** The leftmost match at or after `i`. */
  function SearchFrom(s: string, p: string, i: nat): (r: Option<nat>)
    ensures r.Some? ==> i <= r.value && MatchAt(s, p, r.value)
    ensures r.Some? ==> forall j :: i <= j < r.value ==> !MatchAt(s, p, j)
    ensures r.None? ==> forall j: nat :: i <= j ==> !MatchAt(s, p, j)
    decreases |s| - i
  {
    if i + |p| >= |s| then None
    else if MatchAt(s, p, i) then Some(i)
    else SearchFrom(s, p, i + 1)
  }

  /** A text that does not start with ';' has a non-empty first ';'-segment. */
  lemma FirstSegmentNonEmpty(rest: string)
    requires |rest| > 0 && rest[0] != ';'
    ensures SplitOnce(rest, ';')[0] != ""
  {
    var parts := SplitOnce(rest, ';');
    if |parts| == 2 {
      assert rest == parts[0] + [';'] + parts[1];
    }
  }

  /** `re.search(p + "([^;]+)", s).group(1)`, or `None` when the pattern does not occur. */
  function Search(s: string, p: string): (r: Option<string>)
    ensures r.Some? <==> exists i: nat :: MatchAt(s, p, i)
    ensures r.Some? ==> r.value != "" && ';' !in r.value
    ensures r.Some? ==> exists i: nat ::
      && MatchAt(s, p, i)
      && r.value == GroupAt(s, p, i)
      && forall j :: 0 <= j < i ==> !MatchAt(s, p, j)
  {
    match SearchFrom(s, p, 0)
    case None => None
    case Some(i) =>
      var rest := s[i + |p|..];
      var g := SplitOnce(rest, ';')[0];
      assert rest[0] == s[i + |p|];
      FirstSegmentNonEmpty(rest);
      Some(g)
  }

  /** The regular expressions take the first `AccountKey=`; the server's dictionary parser takes the last. */
  lemma RegexAndDictDisagreeOnRepeatedKey(first: string, last: string)
    requires first != "" && last != "" && first != last
    requires ';' !in first && ';' !in last
    ensures var conn := "AccountKey=" + first + ";AccountKey=" + last;
      && Search(conn, "AccountKey=") == Some(first)
      && ApiServer.ParseConnectionString(conn).1 == Some(last)
  {
    var conn := "AccountKey=" + first + ";AccountKey=" + last;
    var tail := "AccountKey=" + last;
    assert conn == "AccountKey=" + (first + [';'] + tail);
    assert conn[..11] == "AccountKey=";
    assert conn[11] == first[0];
    assert MatchAt(conn, "AccountKey=", 0);
    assert conn[11..] == first + [';'] + tail;
    SplitOnceCons(first, tail, ';');
    ApiServer.RepeatedKeyLastWins(first, last);
  }

  // ------------------------------------------------------------- services

  datatype Permission = WriteCreate | ReadOnly

  /** The environment and oracles a request meets. */
  datatype Services = Services(
    storageConnection: Option<string>,
    webJobsStorage: Option<string>,
    storageClient: Option<string> -> Option<Fault>,
    blobUrl: (string, Json) -> string,
    sign: (string, string, string, Json, Permission) -> Result<string, Fault>,
    uuid: nat -> nat,
    now: string)

  /** `STORAGE_CONNECTION_STRING`, or `AzureWebJobsStorage` when that is unset or empty. */
  function ConnectionOf(svc: Services): Option<string>
  {
    if ApiServer.IsSet(svc.storageConnection) then svc.storageConnection else svc.webJobsStorage
  }

  /** `re.search` on `None` raises this. */
  const SearchNone := Fault("expected string or bytes-like object, got 'NoneType'")

  /** The account key and name the two regular expressions find, when both match. */
  function AccountOf(conn: string): (r: Option<(string, string)>)
    ensures r.Some? <==> (exists i: nat :: MatchAt(conn, "AccountKey=", i)) && (exists i: nat :: MatchAt(conn, "AccountName=", i))
    ensures r.Some? ==> r.value == (Search(conn, "AccountName=").value, Search(conn, "AccountKey=").value)
    ensures r.Some? ==> r.value.0 != "" && r.value.1 != "" && ';' !in r.value.0 && ';' !in r.value.1
  {
    match (Search(conn, "AccountKey="), Search(conn, "AccountName="))
    case (Some(key), Some(name)) => Some((name, key))
    case _ => None
  }

  /**
   * The blob URL, signed when the account could be read from the
   * connection string; what `generate_blob_sas` raises when signing fails.
   */
  function MaybeSigned(svc: Services, account: Option<(string, string)>, filename: Json, p: Permission): (r: Result<string, Fault>)
    ensures account.None? ==> r == Success(svc.blobUrl("documents", filename))
    ensures account.Some? ==>
      var token := svc.sign(account.value.0, account.value.1, "documents", filename, p);
      && (r.Success? <==> token.Success?)
      && (r.Failure? ==> r.error == token.error)
      && (r.Success? ==> StartsWith(r.value, svc.blobUrl("documents", filename))
                         && r.value[|svc.blobUrl("documents", filename)|..] == "?" + token.value)
    ensures r.Success? ==> (r.value == svc.blobUrl("documents", filename) <==> account.None?)
  {
    match account
    case Some((name, key)) =>
      var token :- svc.sign(name, key, "documents", filename, p);
      Success(svc.blobUrl("documents", filename) + "?" + token)
    case None => Success(svc.blobUrl("documents", filename))
  }

  /** The storage client is made and the regular expressions run: the connection string, or the fault raised. */
  function OpenStorage(svc: Services): (r: Result<string, Fault>)
    ensures r.Success? ==> Some(r.value) == ConnectionOf(svc)
    ensures r.Success? <==> svc.storageClient(ConnectionOf(svc)).None? && ConnectionOf(svc).Some?
  {
    var conn := ConnectionOf(svc);
    match svc.storageClient(conn)
    case Some(f) => Failure(f)
    case None => if conn.None? then Failure(SearchNone) else Success(conn.value)
  }

  /** 32 characters grouped 8-4-4-4-12 by dashes. */
  function Group(h: string): string
    requires |h| == 32
  {
    h[..8] + "-" + h[8..12] + "-" + h[12..16] + "-" + h[16..20] + "-" + h[20..]
  }

  /** Where the dashes of a grouping of hex digits are, and that dropping them gives the digits back. */
  lemma GroupLayout(h: string)
    requires |h| == 32 && forall k :: 0 <= k < |h| ==> IsHexChar(h[k])
    ensures var s := Group(h);
      && |s| == 36
      && (forall i :: 0 <= i < |s| ==> (s[i] == '-' <==> i == 8 || i == 13 || i == 18 || i == 23))
      && s[..8] + s[9..13] + s[14..18] + s[19..23] + s[24..] == h
  {
    var s := Group(h);
    forall i | 0 <= i < |s|
      ensures s[i] == '-' <==> i == 8 || i == 13 || i == 18 || i == 23
    {
      if i < 8 { assert s[i] == h[i]; }
      else if 8 < i < 13 { assert s[i] == h[i - 1]; }
      else if 13 < i < 18 { assert s[i] == h[i - 2]; }
      else if 18 < i < 23 { assert s[i] == h[i - 3]; }
      else if 23 < i { assert s[i] == h[i - 4]; }
    }
    assert s[..8] == h[..8] && s[9..13] == h[8..12] && s[14..18] == h[12..16];
    assert s[19..23] == h[16..20] && s[24..] == h[20..];
    assert h == h[..8] + h[8..12] + h[12..16] + h[16..20] + h[20..];
  }

  /**
   * `str(uuid.uuid4())`: the 32 hex digits of the uuid grouped 8-4-4-4-12
   * by dashes.
   */
  function UuidString(u: nat): (s: string)
    ensures |s| == 36
    ensures forall i :: 0 <= i < |s| ==> (s[i] == '-' <==> i == 8 || i == 13 || i == 18 || i == 23)
    ensures s[..8] + s[9..13] + s[14..18] + s[19..23] + s[24..] == HexDigits(u, 32)
  {
    GroupLayout(HexDigits(u, 32));
    Group(HexDigits(u, 32))
  }

  /** Distinct 128-bit uuids give distinct strings. */
  lemma UuidStringInjective(u: nat, v: nat)
    requires u < Pow16(32) && v < Pow16(32)
    requires UuidString(u) == UuidString(v)
    ensures u == v
  {
    HexDigitsInjective(u, v, 32);
  }

  function JobIdFor(u: nat): string
  {
    "job-" + UuidString(u)
  }

  /** The Cosmos error for an id that already exists. */
  const Conflict := ApiServer.Conflict

  /** `req.get_json()` on a body that is not JSON. */
  const NotJson := Fault("HTTP request does not contain valid JSON data")

  /** `.get` on a value that is not a dictionary. */
  function NoGet(j: Json): Fault
  {
    Fault("'" + TypeName(j) + "' object has no attribute 'get'")
  }

  // ------------------------------------------------------------- single upload

  /** The job item of a single upload. */
  function UploadJob(jobId: string, filename: Json, now: string): Record
  {
    map["id" := Str(jobId), "jobId" := Str(jobId), "filename" := filename,
        "status" := Str("pending"), "createdAt" := Str(now)]
  }

  /**
   * `handle_upload`: a truthy `filename` is required; the upload URL is
   * signed when both account regexes match and is the bare blob URL
   * otherwise; a pending job is created under a fresh id.
   */
  function HandleUpload(store: Worker.Store, body: Option<Json>, svc: Services): (out: (Worker.Store, Response))
    ensures out.1.headers == CorsHeaders
    ensures out.1.status == 200 || out.1.status == 400 || out.1.status == 500
    ensures out.1.status != 200 ==> out.0 == store
    ensures body.Some? && body.value.Obj? && !Truthy(Get(body.value.fields, "filename", Null)) ==>
      out == (store, Error(400, "filename is required"))
    ensures out.1.status == 200 <==>
      && body.Some? && body.value.Obj? && Truthy(Get(body.value.fields, "filename", Null))
      && OpenStorage(svc).Success?
      && MaybeSigned(svc, AccountOf(OpenStorage(svc).value), body.value.fields["filename"], WriteCreate).Success?
      && JobIdFor(svc.uuid(0)) !in store
    ensures && body.Some? && body.value.Obj? && Truthy(Get(body.value.fields, "filename", Null)) && OpenStorage(svc).Success?
            && MaybeSigned(svc, AccountOf(OpenStorage(svc).value), body.value.fields["filename"], WriteCreate).Failure? ==>
      out == (store, Error(500, MaybeSigned(svc, AccountOf(OpenStorage(svc).value), body.value.fields["filename"], WriteCreate).error.message))
    ensures out.1.status == 200 ==>
      var filename := body.value.fields["filename"];
      var url := MaybeSigned(svc, AccountOf(OpenStorage(svc).value), filename, WriteCreate);
      && url.Success?
      && out.0 == store[JobIdFor(svc.uuid(0)) := UploadJob(JobIdFor(svc.uuid(0)), filename, svc.now)]
      && out.1.body == Obj(map["uploadUrl" := Str(url.value), "jobId" := Str(JobIdFor(svc.uuid(0)))])
  {
    if body.None? then (store, Error(500, NotJson.message))
    else if !body.value.Obj? then (store, Error(500, NoGet(body.value).message))
    else
      var filename := Get(body.value.fields, "filename", Null);
      if !Truthy(filename) then (store, Error(400, "filename is required"))
      else
        match OpenStorage(svc)
        case Failure(f) => (store, Error(500, f.message))
        case Success(conn) =>
          match MaybeSigned(svc, AccountOf(conn), filename, WriteCreate)
          case Failure(f) => (store, Error(500, f.message))
          case Success(url) =>
            var jobId := JobIdFor(svc.uuid(0));
            if jobId in store then (store, Error(500, Conflict.message))
            else
              (store[jobId := UploadJob(jobId, filename, svc.now)],
               Answer(200, Obj(map["uploadUrl" := Str(url), "jobId" := Str(jobId)])))
  }

  /** When the account cannot be read, a single upload still answers, with the unsigned blob URL. */
  lemma UploadFallsBackToUnsignedUrl(store: Worker.Store, filename: string, svc: Services)
    requires filename != ""
    requires OpenStorage(svc).Success? && AccountOf(OpenStorage(svc).value).None?
    requires JobIdFor(svc.uuid(0)) !in store
    ensures var out := HandleUpload(store, Some(Obj(map["filename" := Str(filename)])), svc);
      && out.1.status == 200
      && out.1.body.fields["uploadUrl"] == Str(svc.blobUrl("documents", Str(filename)))
  {
  }

  // ------------------------------------------------------------- batch upload

  /** The job item of one file of a batch. */
  function BatchJob(jobId: string, filename: Json, insuranceType: Json, batchId: string, now: string): Record
  {
    map["id" := Str(jobId), "jobId" := Str(jobId), "filename" := filename, "status" := Str("pending"),
        "insuranceType" := insuranceType, "batchJobId" := Str(batchId), "createdAt" := Str(now)]
  }

  /** The filename an entry contributes to a batch: its truthy `filename`, if it is a dictionary with one. */
  function NameOf(f: Json): seq<Json>
  {
    if f.Obj? && Truthy(Get(f.fields, "filename", Null)) then [f.fields["filename"]] else []
  }

  /** The filenames of the entries a batch creates jobs for, in order. */
  function Named(files: seq<Json>): (names: seq<Json>)
    ensures |names| <= |files|
    ensures forall m :: 0 <= m < |names| ==> Truthy(names[m])
  {
    if |files| == 0 then [] else Named(files[..|files| - 1]) + NameOf(files[|files| - 1])
  }

  /** The id of the `m`-th job of a batch: the batch id takes the first uuid. */
  function BatchJobId(svc: Services, m: nat): string
  {
    JobIdFor(svc.uuid(m + 1))
  }

  lemma NamedStep(items: seq<Json>, k: nat)
    requires k < |items|
    ensures Named(items[..k + 1]) == Named(items[..k]) + NameOf(items[k])
  {
    assert items[..k + 1][..k] == items[..k];
  }

  /** Every entry can be asked for its filename. */
  ghost predicate AllDicts(files: seq<Json>)
  {
    forall k :: 0 <= k < |files| ==> files[k].Obj?
  }

  /** The checks of `handle_batch_upload` before the loop: the account or the error response. */
  function BatchPrelude(body: Option<Json>, svc: Services): (r: Result<(seq<Json>, Json, (string, string)), Response>)
    ensures r.Failure? ==> (r.error.status == 400 || r.error.status == 500) && r.error.headers == CorsHeaders
    ensures body.Some? && body.value.Obj? && !Truthy(Get(body.value.fields, "files", Arr([]))) ==>
      r == Failure(Error(400, "files array is required"))
    ensures r.Success? <==>
      && body.Some? && body.value.Obj? && Truthy(Get(body.value.fields, "files", Arr([])))
      && OpenStorage(svc).Success? && AccountOf(OpenStorage(svc).value).Some?
      && Get(body.value.fields, "files", Arr([])).Arr?
    ensures r.Success? ==>
      && r.value.0 == Get(body.value.fields, "files", Arr([])).items
      && r.value.1 == Get(body.value.fields, "insuranceType", Str("life"))
      && Some(r.value.2) == AccountOf(OpenStorage(svc).value)
    ensures body.Some? && body.value.Obj? && Truthy(Get(body.value.fields, "files", Arr([]))) ==>
      && (OpenStorage(svc).Failure? ==> r == Failure(Error(500, OpenStorage(svc).error.message)))
      && (OpenStorage(svc).Success? && AccountOf(OpenStorage(svc).value).None? ==>
            r == Failure(Error(500, "Storage account configuration error")))
  {
    if body.None? then Failure(Error(500, NotJson.message))
    else if !body.value.Obj? then Failure(Error(500, NoGet(body.value).message))
    else
      var files := Get(body.value.fields, "files", Arr([]));
      var insuranceType := Get(body.value.fields, "insuranceType", Str("life"));
      if !Truthy(files) then Failure(Error(400, "files array is required"))
      else
        match OpenStorage(svc)
        case Failure(f) => Failure(Error(500, f.message))
        case Success(conn) =>
          match AccountOf(conn)
          case None => Failure(Error(500, "Storage account configuration error"))
          case Some(account) =>
            if files.Arr? then Success((files.items, insuranceType, account))
            // iterating a dictionary or a string yields strings, which have no `get`
            else if files.Obj? || files.Str? then Failure(Error(500, NoGet(Str("")).message))
            else Failure(Error(500, "'" + TypeName(files) + "' object is not iterable"))
  }

  /** `url` is the upload URL `filename` was signed with. */
  predicate SignedAs(url: Json, svc: Services, account: (string, string), filename: Json)
  {
    var r := MaybeSigned(svc, Some(account), filename, WriteCreate);
    r.Success? && url == Str(r.value)
  }

  /** The upload URL of every file in `names` can be signed. */
  ghost predicate AllSign(svc: Services, account: (string, string), names: seq<Json>)
  {
    forall m :: 0 <= m < |names| ==> MaybeSigned(svc, Some(account), names[m], WriteCreate).Success?
  }

  /** What signing the upload URL of an entry with a filename raises, if anything. */
  function SignFault(svc: Services, account: (string, string), item: Json): (f: Option<Fault>)
    ensures f.Some? <==> NameOf(item) != [] && MaybeSigned(svc, Some(account), NameOf(item)[0], WriteCreate).Failure?
  {
    if NameOf(item) == [] then None
    else
      match MaybeSigned(svc, Some(account), NameOf(item)[0], WriteCreate)
      case Failure(f) => Some(f)
      case Success(_) => None
  }

  /** The ids and upload URLs returned for `names`, one each, in order. */
  ghost predicate Returned(names: seq<Json>, urls: seq<Json>, ids: seq<Json>, account: (string, string), svc: Services)
  {
    && |urls| == |names| && |ids| == |names|
    && forall m :: 0 <= m < |names| ==> ids[m] == Str(BatchJobId(svc, m)) && SignedAs(urls[m], svc, account, names[m])
  }

  /** The job of every name in `names` is stored under its id. */
  ghost predicate Stored(out: Worker.Store, names: seq<Json>, insuranceType: Json, batchId: string, svc: Services)
  {
    forall m :: 0 <= m < |names| ==>
      BatchJobId(svc, m) in out && out[BatchJobId(svc, m)] == BatchJob(BatchJobId(svc, m), names[m], insuranceType, batchId, svc.now)
  }

  /** `out` keeps every entry of `store` and adds nothing but the first `n` batch job ids. */
  ghost predicate Confined(store: Worker.Store, out: Worker.Store, n: nat, svc: Services)
  {
    && (forall j :: j in store ==> j in out && out[j] == store[j])
    && (forall j :: j in out ==> j in store || exists m :: 0 <= m < n && j == BatchJobId(svc, m))
  }

  /** After the jobs for `names` were created. */
  ghost predicate Created(store: Worker.Store, out: Worker.Store, names: seq<Json>, urls: seq<Json>, ids: seq<Json>,
                          insuranceType: Json, account: (string, string), batchId: string, svc: Services)
  {
    && Returned(names, urls, ids, account, svc)
    && Stored(out, names, insuranceType, batchId, svc)
    && Confined(store, out, |names|, svc)
  }

  lemma ReturnedExtend(names: seq<Json>, urls: seq<Json>, ids: seq<Json>, filename: Json, url: Json,
                       account: (string, string), svc: Services)
    requires Returned(names, urls, ids, account, svc)
    requires SignedAs(url, svc, account, filename)
    ensures Returned(names + [filename], urls + [url], ids + [Str(BatchJobId(svc, |names|))], account, svc)
  {
    var names' := names + [filename];
    var urls' := urls + [url];
    var ids' := ids + [Str(BatchJobId(svc, |names|))];
    forall m | 0 <= m < |names'|
      ensures ids'[m] == Str(BatchJobId(svc, m)) && SignedAs(urls'[m], svc, account, names'[m])
    {
      if m < |names| {
        assert ids'[m] == ids[m] && urls'[m] == urls[m] && names'[m] == names[m];
      } else {
        assert m == |names| && names'[m] == filename;
      }
    }
    assert |urls'| == |names'| && |ids'| == |names'|;
  }

  lemma StoredExtend(out: Worker.Store, names: seq<Json>, filename: Json, insuranceType: Json, batchId: string, svc: Services)
    requires Stored(out, names, insuranceType, batchId, svc)
    requires BatchJobId(svc, |names|) !in out
    ensures var id := BatchJobId(svc, |names|);
      Stored(out[id := BatchJob(id, filename, insuranceType, batchId, svc.now)], names + [filename], insuranceType, batchId, svc)
  {
    var id := BatchJobId(svc, |names|);
    var out' := out[id := BatchJob(id, filename, insuranceType, batchId, svc.now)];
    forall m | 0 <= m < |names| + 1
      ensures BatchJobId(svc, m) in out'
      ensures out'[BatchJobId(svc, m)] == BatchJob(BatchJobId(svc, m), (names + [filename])[m], insuranceType, batchId, svc.now)
    {
      if m < |names| {
        assert BatchJobId(svc, m) in out;
      }
    }
  }

  lemma ConfinedExtend(store: Worker.Store, out: Worker.Store, n: nat, job: Record, svc: Services)
    requires Confined(store, out, n, svc)
    requires BatchJobId(svc, n) !in out
    ensures Confined(store, out[BatchJobId(svc, n) := job], n + 1, svc)
  {
    var out' := out[BatchJobId(svc, n) := job];
    forall j | j in out'
      ensures j in store || exists m :: 0 <= m < n + 1 && j == BatchJobId(svc, m)
    {
      if j !in out {
        assert j == BatchJobId(svc, n);
      } else if j !in store {
        var m :| 0 <= m < n && j == BatchJobId(svc, m);
        assert 0 <= m < n + 1;
      }
    }
  }

  lemma CreatedNothing(store: Worker.Store, insuranceType: Json, account: (string, string), batchId: string, svc: Services)
    ensures Created(store, store, [], [], [], insuranceType, account, batchId, svc)
  {
  }

  /** Creating the job for the next name keeps `Created`. */
  lemma CreatedExtend(store: Worker.Store, out0: Worker.Store, names: seq<Json>, urls0: seq<Json>, ids0: seq<Json>,
                      filename: Json, url: Json, insuranceType: Json, account: (string, string), batchId: string, svc: Services)
    requires Created(store, out0, names, urls0, ids0, insuranceType, account, batchId, svc)
    requires SignedAs(url, svc, account, filename)
    requires BatchJobId(svc, |names|) !in out0
    ensures var id := BatchJobId(svc, |names|);
      Created(store, out0[id := BatchJob(id, filename, insuranceType, batchId, svc.now)], names + [filename],
              urls0 + [url], ids0 + [Str(id)], insuranceType, account, batchId, svc)
  {
    var id := BatchJobId(svc, |names|);
    ReturnedExtend(names, urls0, ids0, filename, url, account, svc);
    StoredExtend(out0, names, filename, insuranceType, batchId, svc);
    ConfinedExtend(store, out0, |names|, BatchJob(id, filename, insuranceType, batchId, svc.now), svc);
    assert |names + [filename]| == |names| + 1;
  }

  /** The first `n` batch job ids are all different and none is stored yet. */
  ghost predicate FreshIds(store: Worker.Store, n: nat, svc: Services)
  {
    && (forall m :: 0 <= m < n ==> BatchJobId(svc, m) !in store)
    && (forall m, m' :: 0 <= m < m' < n ==> BatchJobId(svc, m) != BatchJobId(svc, m'))
  }

  /** Distinct 128-bit uuids make the ids of a batch distinct, as `FreshIds` asks. */
  lemma DistinctUuidsDistinctBatchIds(svc: Services, n: nat)
    requires forall m :: 0 < m <= n ==> svc.uuid(m) < Pow16(32)
    requires forall m, m' :: 0 < m < m' <= n ==> svc.uuid(m) != svc.uuid(m')
    ensures forall m, m' :: 0 <= m < m' < n ==> BatchJobId(svc, m) != BatchJobId(svc, m')
  {
    forall m, m' | 0 <= m < m' < n
      ensures BatchJobId(svc, m) != BatchJobId(svc, m')
    {
      if BatchJobId(svc, m) == BatchJobId(svc, m') {
        assert BatchJobId(svc, m)[4..] == UuidString(svc.uuid(m + 1));
        assert BatchJobId(svc, m')[4..] == UuidString(svc.uuid(m' + 1));
        UuidStringInjective(svc.uuid(m + 1), svc.uuid(m' + 1));
      }
    }
  }

  /** The files a prefix of the entries names are a prefix of the files all of them name. */
  lemma {:induction false} NamedPrefix(items: seq<Json>, k: nat)
    requires k <= |items|
    ensures Named(items[..k]) <= Named(items)
    decreases |items| - k
  {
    if k < |items| {
      NamedStep(items, k);
      NamedPrefix(items, k + 1);
      var a, b, c := Named(items[..k]), Named(items[..k + 1]), Named(items);
      assert b[..|a|] == a;
      assert c[..|b|] == b;
      assert c[..|a|] == b[..|a|];
    } else {
      assert items[..k] == items;
    }
  }

  /** An entry whose upload URL cannot be signed keeps the batch's files from all being signed. */
  lemma SignFaultNotAll(svc: Services, account: (string, string), items: seq<Json>, k: nat)
    requires k < |items| && SignFault(svc, account, items[k]).Some?
    ensures !AllSign(svc, account, Named(items))
  {
    NamedStep(items, k);
    NamedPrefix(items, k + 1);
    var n := |Named(items[..k])|;
    assert Named(items)[n] == Named(items[..k + 1])[n] == NameOf(items[k])[0];
  }

  lemma ConfinedWiden(store: Worker.Store, out: Worker.Store, n: nat, n': nat, svc: Services)
    requires Confined(store, out, n, svc) && n <= n'
    ensures Confined(store, out, n', svc)
  {
    forall j | j in out && j !in store
      ensures exists m :: 0 <= m < n' && j == BatchJobId(svc, m)
    {
      var m :| 0 <= m < n && j == BatchJobId(svc, m);
    }
  }

  /** The next id of a batch being taken, by an old job or by an earlier id `m` of the batch, shows that
      the batch's ids were not all fresh. */
  lemma TakenNotFresh(store: Worker.Store, n: nat, n': nat, m: nat, svc: Services)
    requires n < n'
    requires BatchJobId(svc, n) in store || (m < n && BatchJobId(svc, m) == BatchJobId(svc, n))
    ensures !FreshIds(store, n', svc)
  {
  }

  /** Creating the job under the next id, which was free, keeps the created ids fresh. */
  lemma FreshExtend(store: Worker.Store, out: Worker.Store, names: seq<Json>, insuranceType: Json, batchId: string,
                    svc: Services)
    requires FreshIds(store, |names|, svc)
    requires Stored(out, names, insuranceType, batchId, svc)
    requires Confined(store, out, |names|, svc)
    requires BatchJobId(svc, |names|) !in out
    ensures FreshIds(store, |names| + 1, svc)
  {
    var n := |names|;
    forall m, m' | 0 <= m < m' < n + 1
      ensures BatchJobId(svc, m) != BatchJobId(svc, m')
    {
      if m' == n {
        assert BatchJobId(svc, m) in out;
      }
    }
  }

  /** One iteration of the batch loop. */
  method BatchStep(store: Worker.Store, out0: Worker.Store, ghost names: seq<Json>, urls0: seq<Json>, ids0: seq<Json>,
                   item: Json, insuranceType: Json, account: (string, string), batchId: string, svc: Services)
    returns (out: Worker.Store, urls: seq<Json>, ids: seq<Json>, fault: Option<Fault>)
    requires Created(store, out0, names, urls0, ids0, insuranceType, account, batchId, svc)
    ensures forall j :: j in store ==> j in out && out[j] == store[j]
    ensures !item.Obj? ==> fault == Some(NoGet(item))
    ensures fault.Some? ==> out == out0
    ensures item.Obj? && NameOf(item) == [] ==> out == out0 && urls == urls0 && ids == ids0 && fault.None?
    ensures item.Obj? && SignFault(svc, account, item).Some? ==> fault == SignFault(svc, account, item)
    ensures item.Obj? && NameOf(item) != [] && SignFault(svc, account, item).None? ==>
      && (fault.Some? <==> BatchJobId(svc, |names|) in out0)
      && (fault.Some? ==> fault == Some(Conflict))
    ensures fault.None? ==> Created(store, out, names + NameOf(item), urls, ids, insuranceType, account, batchId, svc)
  {
    out, urls, ids, fault := out0, urls0, ids0, None;
    if !item.Obj? {
      fault := Some(NoGet(item));
      return;
    }
    var filename := Get(item.fields, "filename", Null);
    if !Truthy(filename) {
      assert NameOf(item) == [];
      assert names + NameOf(item) == names;
      return;
    }
    assert NameOf(item) == [filename];
    var signed := MaybeSigned(svc, Some(account), filename, WriteCreate);
    if signed.Failure? {
      fault := Some(signed.error);
      return;
    }
    var url := Str(signed.value);
    var jobId := BatchJobId(svc, |ids|);
    if jobId in out {
      fault := Some(Conflict);
      return;
    }
    CreatedExtend(store, out0, names, urls0, ids0, filename, url, insuranceType, account, batchId, svc);
    out := out[jobId := BatchJob(jobId, filename, insuranceType, batchId, svc.now)];
    urls := urls + [url];
    ids := ids + [Str(jobId)];
  }

  /** The batch loop after the first `k` entries: all dictionaries, their jobs created under fresh ids. */
  ghost predicate BatchDone(store: Worker.Store, items: seq<Json>, k: nat, out: Worker.Store, urls: seq<Json>, ids: seq<Json>,
                            insuranceType: Json, account: (string, string), batchId: string, svc: Services)
  {
    && k <= |items|
    && (forall i :: 0 <= i < k ==> items[i].Obj?)
    && FreshIds(store, |Named(items[..k])|, svc)
    && Created(store, out, Named(items[..k]), urls, ids, insuranceType, account, batchId, svc)
  }

  /**
   * What a batch needs to answer 200: every entry is a dictionary, and
   * every file it names gets a signed upload URL and a fresh job id.
   */
  ghost predicate BatchSucceeds(store: Worker.Store, items: seq<Json>, account: (string, string), svc: Services)
  {
    AllDicts(items) && AllSign(svc, account, Named(items)) && FreshIds(store, |Named(items)|, svc)
  }

  /**
   * What entry `item` raises when the batch loop stops at it: the missing
   * `get` of a non-dictionary, the signing error of its file, or else the
   * conflict of its job id.
   */
  function StopFault(item: Json, account: (string, string), svc: Services): (f: Fault)
    ensures !item.Obj? ==> f == NoGet(item)
    ensures item.Obj? && SignFault(svc, account, item).Some? ==> f == SignFault(svc, account, item).value
    ensures item.Obj? && SignFault(svc, account, item).None? ==> f == Conflict
  {
    if !item.Obj? then NoGet(item)
    else if SignFault(svc, account, item).Some? then SignFault(svc, account, item).value
    else Conflict
  }

  /**
   * The batch loop stopped at entry `k`: the entries before it were
   * dictionaries whose jobs all stay stored in `out`, and entry `k` is not a
   * dictionary, cannot be signed, or names a file whose job id `out` already
   * holds.
   */
  ghost predicate StoppedAt(store: Worker.Store, items: seq<Json>, k: nat, out: Worker.Store,
                            insuranceType: Json, account: (string, string), batchId: string, svc: Services)
  {
    && k < |items|
    && (forall i :: 0 <= i < k ==> items[i].Obj?)
    && Stored(out, Named(items[..k]), insuranceType, batchId, svc)
    && (|| !items[k].Obj?
        || SignFault(svc, account, items[k]).Some?
        || (NameOf(items[k]) != [] && BatchJobId(svc, |Named(items[..k])|) in out))
  }

  /** The batch loop on entry `k`: it continues, or it stops because the batch cannot succeed. */
  method BatchNext(store: Worker.Store, items: seq<Json>, k: nat, out0: Worker.Store, urls0: seq<Json>, ids0: seq<Json>,
                   insuranceType: Json, account: (string, string), batchId: string, svc: Services)
    returns (out: Worker.Store, urls: seq<Json>, ids: seq<Json>, fault: Option<Fault>)
    requires k < |items| && BatchDone(store, items, k, out0, urls0, ids0, insuranceType, account, batchId, svc)
    ensures fault.None? ==> BatchDone(store, items, k + 1, out, urls, ids, insuranceType, account, batchId, svc)
    ensures fault.Some? ==> Confined(store, out, |Named(items)|, svc) && !BatchSucceeds(store, items, account, svc)
    ensures fault.Some? ==> out == out0 && fault == Some(StopFault(items[k], account, svc))
    ensures fault.Some? ==> StoppedAt(store, items, k, out, insuranceType, account, batchId, svc)
    ensures AllDicts(items) && fault.Some? ==> fault == Some(Conflict) || fault == SignFault(svc, account, items[k])
    ensures AllDicts(items) && AllSign(svc, account, Named(items)) && fault.Some? ==> fault == Some(Conflict)
  {
    out, urls, ids, fault := BatchStep(store, out0, Named(items[..k]), urls0, ids0, items[k], insuranceType, account, batchId, svc);
    if fault.Some? {
      BatchStopped(store, items, k, out0, urls0, ids0, insuranceType, account, batchId, svc);
      return;
    }
    BatchDoneStep(store, items, k, out0, urls0, ids0, out, urls, ids, insuranceType, account, batchId, svc);
  }

  lemma BatchStopped(store: Worker.Store, items: seq<Json>, k: nat, out0: Worker.Store, urls0: seq<Json>, ids0: seq<Json>,
                     insuranceType: Json, account: (string, string), batchId: string, svc: Services)
    requires k < |items| && BatchDone(store, items, k, out0, urls0, ids0, insuranceType, account, batchId, svc)
    requires || !items[k].Obj?
             || SignFault(svc, account, items[k]).Some?
             || (NameOf(items[k]) != [] && BatchJobId(svc, |Named(items[..k])|) in out0)
    ensures Confined(store, out0, |Named(items)|, svc) && !BatchSucceeds(store, items, account, svc)
    ensures SignFault(svc, account, items[k]).Some? ==> !AllSign(svc, account, Named(items))
  {
    var names := Named(items[..k]);
    NamedStep(items, k);
    NamedPrefix(items, k + 1);
    ConfinedWiden(store, out0, |names|, |Named(items)|, svc);
    if SignFault(svc, account, items[k]).Some? {
      SignFaultNotAll(svc, account, items, k);
    } else if items[k].Obj? {
      var j := BatchJobId(svc, |names|);
      if j in store {
        TakenNotFresh(store, |names|, |Named(items)|, 0, svc);
      } else {
        var m :| 0 <= m < |names| && j == BatchJobId(svc, m);
        TakenNotFresh(store, |names|, |Named(items)|, m, svc);
      }
    }
  }

  lemma BatchDoneStep(store: Worker.Store, items: seq<Json>, k: nat, out0: Worker.Store, urls0: seq<Json>, ids0: seq<Json>,
                      out: Worker.Store, urls: seq<Json>, ids: seq<Json>,
                      insuranceType: Json, account: (string, string), batchId: string, svc: Services)
    requires k < |items| && BatchDone(store, items, k, out0, urls0, ids0, insuranceType, account, batchId, svc)
    requires items[k].Obj?
    requires Created(store, out, Named(items[..k]) + NameOf(items[k]), urls, ids, insuranceType, account, batchId, svc)
    requires NameOf(items[k]) != [] ==> BatchJobId(svc, |Named(items[..k])|) !in out0
    ensures BatchDone(store, items, k + 1, out, urls, ids, insuranceType, account, batchId, svc)
  {
    NamedStep(items, k);
    if NameOf(items[k]) != [] {
      FreshExtend(store, out0, Named(items[..k]), insuranceType, batchId, svc);
    }
  }

  /**
   * The loop of `handle_batch_upload`: for each entry with a truthy
   * filename, sign its URL and create its job with the next uuid.  The
   * first entry that is not a dictionary, whose URL cannot be signed, or
   * whose job id is already taken, answers 500 and keeps the jobs created
   * so far.
   */
  method BatchLoop(store: Worker.Store, items: seq<Json>, insuranceType: Json, account: (string, string),
                   batchId: string, svc: Services)
    returns (out: Worker.Store, urls: seq<Json>, ids: seq<Json>, fault: Option<Fault>)
    ensures forall j :: j in store ==> j in out && out[j] == store[j]
    ensures fault.None? <==> BatchSucceeds(store, items, account, svc)
    ensures AllDicts(items) && fault.Some? ==>
      fault == Some(Conflict) || exists k :: 0 <= k < |items| && fault == SignFault(svc, account, items[k]) && fault.Some?
    ensures AllDicts(items) && AllSign(svc, account, Named(items)) && fault.Some? ==> fault == Some(Conflict)
    ensures Confined(store, out, |Named(items)|, svc)
    ensures fault.None? ==> Created(store, out, Named(items), urls, ids, insuranceType, account, batchId, svc)
    ensures fault.Some? ==> exists k :: 0 <= k < |items| && StoppedAt(store, items, k, out, insuranceType, account, batchId, svc)
                                        && fault == Some(StopFault(items[k], account, svc))
  {
    out, urls, ids, fault := store, [], [], None;
    var k := 0;
    CreatedNothing(store, insuranceType, account, batchId, svc);
    assert items[..0] == [];
    while k < |items|
      invariant fault.None?
      invariant BatchDone(store, items, k, out, urls, ids, insuranceType, account, batchId, svc)
    {
      out, urls, ids, fault := BatchNext(store, items, k, out, urls, ids, insuranceType, account, batchId, svc);
      if fault.Some? {
        assert AllDicts(items) && fault != Some(Conflict) ==> fault == SignFault(svc, account, items[k]);
        assert StoppedAt(store, items, k, out, insuranceType, account, batchId, svc);
        return;
      }
      k := k + 1;
    }
    assert items[..k] == items;
    assert BatchSucceeds(store, items, account, svc);
  }

  /** The body of a successful batch upload. */
  function BatchBody(urls: seq<Json>, ids: seq<Json>, batchId: string): (j: Json)
    ensures j.Obj? && j.fields.Keys == {"uploadUrls", "jobIds", "batchJobId"}
    ensures j.fields["uploadUrls"] == Arr(urls) && j.fields["jobIds"] == Arr(ids) && j.fields["batchJobId"] == Str(batchId)
  {
    Obj(map["uploadUrls" := Arr(urls), "jobIds" := Arr(ids), "batchJobId" := Str(batchId)])
  }

  /**
   * The answer of `handle_batch_upload` and the store after it: 400
   * without files and 500 when the account cannot be read, with nothing
   * changed; otherwise 200 exactly when the batch can succeed, else 500
   * with the conflict or the signing error, keeping the jobs created
   * before it.  A 200 carries one upload URL and one job id per named file
   * in file order under a shared batch id, and every such job is stored.
   */
  ghost predicate BatchAnswer(store: Worker.Store, body: Option<Json>, svc: Services, out: Worker.Store, resp: Response)
  {
    && (resp.status == 200 || resp.status == 400 || resp.status == 500)
    && resp.headers == CorsHeaders
    && (forall j :: j in store ==> j in out && out[j] == store[j])
    && (BatchPrelude(body, svc).Failure? ==> out == store && resp == BatchPrelude(body, svc).error)
    && (BatchPrelude(body, svc).Success? ==>
          var (items, insuranceType, account) := BatchPrelude(body, svc).value;
          var names := Named(items);
          var batchId := "batch-" + UuidString(svc.uuid(0));
          && (resp.status == 200 <==> BatchSucceeds(store, items, account, svc))
          && Confined(store, out, |names|, svc)
          && (resp.status != 200 ==>
                exists k :: 0 <= k < |items| && StoppedAt(store, items, k, out, insuranceType, account, batchId, svc)
                            && resp == Error(500, StopFault(items[k], account, svc).message))
          && (AllDicts(items) && AllSign(svc, account, names) && resp.status != 200 ==> resp == Error(500, Conflict.message))
          && (AllDicts(items) && resp.status != 200 ==>
                || resp == Error(500, Conflict.message)
                || exists k :: 0 <= k < |items| && SignFault(svc, account, items[k]).Some?
                                && resp == Error(500, SignFault(svc, account, items[k]).value.message))
          && (resp.status == 200 ==>
                && resp.body.Obj? && resp.body.fields.Keys == {"uploadUrls", "jobIds", "batchJobId"}
                && resp.body.fields["batchJobId"] == Str(batchId)
                && resp.body.fields["jobIds"].Arr? && resp.body.fields["uploadUrls"].Arr?
                && |resp.body.fields["jobIds"].items| == |names| == |resp.body.fields["uploadUrls"].items|
                && forall m :: 0 <= m < |names| ==>
                     && resp.body.fields["jobIds"].items[m] == Str(BatchJobId(svc, m))
                     && SignedAs(resp.body.fields["uploadUrls"].items[m], svc, account, names[m])
                     && BatchJobId(svc, m) in out
                     && out[BatchJobId(svc, m)] == BatchJob(BatchJobId(svc, m), names[m], insuranceType, batchId, svc.now)))
  }

  /** `handle_batch_upload`: see `BatchAnswer`. */
  method HandleBatchUpload(store: Worker.Store, body: Option<Json>, svc: Services)
    returns (out: Worker.Store, resp: Response)
    ensures BatchAnswer(store, body, svc, out, resp)
  {
    var prelude := BatchPrelude(body, svc);
    if prelude.Failure? {
      return store, prelude.error;
    }
    var (items, insuranceType, account) := prelude.value;
    var batchId := "batch-" + UuidString(svc.uuid(0));
    var urls, ids, fault;
    out, urls, ids, fault := BatchLoop(store, items, insuranceType, account, batchId, svc);
    if fault.Some? {
      return out, Error(500, fault.value.message);
    }
    resp := Answer(200, BatchBody(urls, ids, batchId));
  }

  // ------------------------------------------------------------- reading jobs

  /** The frontend's names for the stored statuses. */
  const FrontendStatus: map<string, string> := map["extracted" := "Complete", "pending" := "In Progress", "failed" := "Failed"]

  /** The status mapping of `handle_get_jobs`/`handle_get_job`. */
  function MapStatus(s: Json): (r: Json)
    ensures s.Str? && s.s in FrontendStatus ==> r == Str(FrontendStatus[s.s])
    ensures !(s.Str? && s.s in FrontendStatus) ==> r == s
  {
    if s == Str("extracted") then Str("Complete")
    else if s == Str("pending") then Str("In Progress")
    else if s == Str("failed") then Str("Failed")
    else s
  }

  /** The keys normalisation may write. */
  const Derived: set<string> := {"uploadTimestamp", "timestamp", "originalFilename", "batchId", "status"}

  /**
   * The frontend-compatible fields of a job item: timestamps from
   * `createdAt`, `originalFilename` from `filename`, a `batchId`, and the
   * mapped status.
   */
  function Normalize(item: Record): (r: Record)
    ensures "createdAt" in item ==>
      && "uploadTimestamp" in r && r["uploadTimestamp"] == item["createdAt"]
      && "timestamp" in r && r["timestamp"] == item["createdAt"]
    ensures "createdAt" !in item ==>
      && ("uploadTimestamp" in r <==> "uploadTimestamp" in item)
      && ("uploadTimestamp" in item ==> r["uploadTimestamp"] == item["uploadTimestamp"])
      && ("timestamp" in r <==> "timestamp" in item)
      && ("timestamp" in item ==> r["timestamp"] == item["timestamp"])
    ensures "filename" in item ==> "originalFilename" in r && r["originalFilename"] == item["filename"]
    ensures "filename" !in item ==>
      && ("originalFilename" in r <==> "originalFilename" in item)
      && ("originalFilename" in item ==> r["originalFilename"] == item["originalFilename"])
    ensures "batchId" in r
    ensures "batchJobId" in item ==> r["batchId"] == item["batchJobId"]
    ensures "batchJobId" !in item && "jobId" in item ==> r["batchId"] == item["jobId"]
    ensures "batchJobId" !in item && "jobId" !in item && "id" in item ==> r["batchId"] == item["id"]
    ensures "batchJobId" !in item && "jobId" !in item && "id" !in item ==> r["batchId"] == Str("unknown")
    ensures "status" in r <==> "status" in item
    ensures "status" in item ==> r["status"] == MapStatus(item["status"])
    ensures forall k :: k in item && k !in Derived ==> k in r && r[k] == item[k]
    ensures forall k :: k in r ==> k in item || k in Derived
  {
    var stamped :=
      if "createdAt" in item then item["uploadTimestamp" := item["createdAt"]]["timestamp" := item["createdAt"]]
      else item;
    var named := if "filename" in item then stamped["originalFilename" := item["filename"]] else stamped;
    var batched := named["batchId" := if "batchJobId" in item then item["batchJobId"]
                                      else Get(item, "jobId", Get(item, "id", Str("unknown")))];
    if "status" in item then batched["status" := MapStatus(item["status"])] else batched
  }

  /** Mapping a mapped status changes nothing more. */
  lemma MapStatusIdempotent(s: Json)
    ensures MapStatus(MapStatus(s)) == MapStatus(s)
  {
  }

  /** Normalising twice is normalising once: the frontend may receive an already normalised item. */
  lemma NormalizeIdempotent(item: Record)
    ensures Normalize(Normalize(item)) == Normalize(item)
  {
    var once := Normalize(item);
    var twice := Normalize(once);
    forall k | k in once
      ensures k in twice && twice[k] == once[k]
    {
      if k == "status" {
        MapStatusIdempotent(item["status"]);
      } else if k == "batchId" {
        BatchIdStable(item);
      } else {
        OtherKeyStable(item, k);
      }
    }
    assert once.Keys == twice.Keys;
  }

  /** A second normalisation finds the same `batchId`. */
  lemma BatchIdStable(item: Record)
    ensures Normalize(Normalize(item))["batchId"] == Normalize(item)["batchId"]
  {
    var once := Normalize(item);
    if "batchJobId" in item {
      assert once["batchJobId"] == item["batchJobId"];
    } else if "jobId" in item {
      assert "batchJobId" !in once && once["jobId"] == item["jobId"];
    } else if "id" in item {
      assert "batchJobId" !in once && "jobId" !in once && once["id"] == item["id"];
    } else {
      assert "batchJobId" !in once && "jobId" !in once && "id" !in once;
    }
  }

  /** A second normalisation keeps every key other than `status` and `batchId`. */
  lemma OtherKeyStable(item: Record, k: string)
    requires k in Normalize(item) && k != "status" && k != "batchId"
    ensures k in Normalize(Normalize(item)) && Normalize(Normalize(item))[k] == Normalize(item)[k]
  {
    var once := Normalize(item);
    if k !in Derived {
      assert k in item && once[k] == item[k];
    }
  }

  /** `handle_get_jobs`: every item, normalised, in the container's order. */
  function HandleGetJobs(items: seq<Record>): (r: Response)
    ensures r.headers == CorsHeaders
    ensures r.status == 200 && r.body.Obj? && "jobs" in r.body.fields && r.body.fields["jobs"].Arr?
    ensures |r.body.fields["jobs"].items| == |items|
    ensures forall i :: 0 <= i < |items| ==> r.body.fields["jobs"].items[i] == Obj(Normalize(items[i]))
  {
    Answer(200, Obj(map["jobs" := Arr(seq(|items|, i requires 0 <= i < |items| => Obj(Normalize(items[i]))))]))
  }

  /** `handle_get_job`: the normalised item, or 404 carrying the read error. */
  function HandleGetJob(store: Worker.Store, jobId: string): (r: Response)
    ensures r.headers == CorsHeaders
    ensures r.status == 200 <==> jobId in store
    ensures jobId in store ==> r.body == Obj(Normalize(store[jobId]))
    ensures jobId !in store ==> r == Error(404, Worker.NotFound(jobId).message)
  {
    if jobId !in store then Error(404, Worker.NotFound(jobId).message)
    else Answer(200, Obj(Normalize(store[jobId])))
  }

  /**
   * `handle_get_document_url`: a read URL for the job's file, signed when
   * the account can be read.  Every failure, a missing job included,
   * answers 404.
   */
  function HandleGetDocumentUrl(store: Worker.Store, jobId: string, svc: Services): (r: Response)
    ensures r.headers == CorsHeaders
    ensures r.status == 200 || r.status == 404
    ensures r.status == 200 <==>
      && jobId in store && Truthy(Get(store[jobId], "filename", Null)) && OpenStorage(svc).Success?
      && MaybeSigned(svc, AccountOf(OpenStorage(svc).value), store[jobId]["filename"], ReadOnly).Success?
    ensures r.status == 200 ==>
      var url := MaybeSigned(svc, AccountOf(OpenStorage(svc).value), store[jobId]["filename"], ReadOnly);
      url.Success? && r.body == Obj(map["url" := Str(url.value)])
    ensures && jobId in store && Truthy(Get(store[jobId], "filename", Null)) && OpenStorage(svc).Success?
            && MaybeSigned(svc, AccountOf(OpenStorage(svc).value), store[jobId]["filename"], ReadOnly).Failure? ==>
      r == Error(404, MaybeSigned(svc, AccountOf(OpenStorage(svc).value), store[jobId]["filename"], ReadOnly).error.message)
    ensures jobId in store && !Truthy(Get(store[jobId], "filename", Null)) ==> r == Error(404, "Filename not found in job")
  {
    if jobId !in store then Error(404, Worker.NotFound(jobId).message)
    else
      var filename := Get(store[jobId], "filename", Null);
      if !Truthy(filename) then Error(404, "Filename not found in job")
      else
        match OpenStorage(svc)
        case Failure(f) => Error(404, f.message)
        case Success(conn) =>
          match MaybeSigned(svc, AccountOf(conn), filename, ReadOnly)
          case Failure(f) => Error(404, f.message)
          case Success(url) => Answer(200, Obj(map["url" := Str(url)]))
  }

  // ------------------------------------------------------------- main

  /** An HTTP request: method, the `route` parameter (empty when absent) and the JSON body (`None` when not JSON). */
  datatype Request = Request(verb: string, route: string, body: Option<Json>)

  /**
   * `main`: preflight, then the first matching route.  Reads leave the
   * store as it is; every response carries the CORS headers.  `items` is
   * what `read_all_items` returns: the stored jobs, in the container's order.
   */
  method Dispatch(store: Worker.Store, req: Request, svc: Services, items: seq<Record>)
    returns (out: Worker.Store, resp: Response)
    requires forall x :: x in items <==> x in store.Values
    ensures resp.headers == CorsHeaders
    ensures req.verb == "OPTIONS" ==> out == store && resp == Answer(200, Null)
    ensures Route(req.verb, req.route) == NoRoute ==>
      out == store && resp == Error(404, "Route not found: " + req.route)
    ensures req.verb != "POST" ==> out == store
    ensures forall j :: j in store ==> j in out && out[j] == store[j]
    ensures Route(req.verb, req.route) == UploadOne ==> (out, resp) == HandleUpload(store, req.body, svc)
    ensures Route(req.verb, req.route) == UploadBatch ==> BatchAnswer(store, req.body, svc, out, resp)
    ensures Route(req.verb, req.route) == ListJobs ==> resp == HandleGetJobs(items)
    ensures Route(req.verb, req.route).DocumentUrl? ==>
      resp == HandleGetDocumentUrl(store, JobIdOfRoute(req.route), svc)
    ensures Route(req.verb, req.route).OneJob? ==> resp == HandleGetJob(store, JobIdOfRoute(req.route))
  {
    match Route(req.verb, req.route)
    case Preflight =>
      return store, Answer(200, Null);
    case UploadOne =>
      var r := HandleUpload(store, req.body, svc);
      return r.0, r.1;
    case UploadBatch =>
      out, resp := HandleBatchUpload(store, req.body, svc);
    case ListJobs =>
      return store, HandleGetJobs(items);
    case DocumentUrl(jobId) =>
      return store, HandleGetDocumentUrl(store, jobId, svc);
    case OneJob(jobId) =>
      return store, HandleGetJob(store, jobId);
    case NoRoute =>
      return store, Error(404, "Route not found: " + req.route);
  }
}
