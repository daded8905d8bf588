/**
 * The document-processing worker (`worker.py`): for one queued job it marks
 * the record `processing`, downloads the PDF named by the blob path, extracts
 * one entry per page, analyses each page, stores the pages, asks for a
 * comprehensive analysis and marks the record `completed`; any exception
 * marks it `failed` and is re-raised.
 *
 * The Cosmos container is a map from item id to record.  Blob download, PDF
 * text extraction, the language model and JSON parsing are oracles carried
 * in `Services`; the clock is the single timestamp `now`.  A run is
 * observed as the final store, the ordered list of durable writes and
 * service calls, and the exception (if any) that escapes.
 */
module Worker {
  import opened Wrappers
  import opened Strings
  import opened Json
  import opened Inference

  /** The Cosmos DB jobs container: item id to item (the partition key is the id). */
  type Store = map<string, Record>

  type Bytes = seq<bv8>

  /** The arguments of one `update_job_status` call after `job_id`. */
  datatype StatusUpdate = StatusUpdate(
    status: string,
    progress: Option<Json>,
    extractedData: Option<Json>,
    analysis: Option<Json>,
    error: Option<Json>)

  /** The only record keys `update_job_status` may write. */
  const MergedKeys: set<string> := {"status", "updatedAt", "progress", "extractedData", "analysis", "error"}

  /** Key `k` of `r` holds `o`'s value when one is given and is as in `job` otherwise. */
  ghost predicate Overwrites(job: Record, r: Record, k: string, o: Option<Json>)
  {
    match o
    case Some(v) => k in r && r[k] == v
    case None => (k in r <==> k in job) && (k in job ==> r[k] == job[k])
  }

  function SetIf(job: Record, k: string, o: Option<Json>): Record
  {
    match o
    case Some(v) => job[k := v]
    case None => job
  }

  /**
   * The read-modify-write of `update_job_status` on one record: `status`
   * and `updatedAt` are always written, the four optional fields only when
   * given, and every other field is kept.
   */
  function MergeStatus(job: Record, u: StatusUpdate, now: string): (r: Record)
    ensures HasStr(r, "status", u.status) && HasStr(r, "updatedAt", now)
    ensures Overwrites(job, r, "progress", u.progress)
    ensures Overwrites(job, r, "extractedData", u.extractedData)
    ensures Overwrites(job, r, "analysis", u.analysis)
    ensures Overwrites(job, r, "error", u.error)
    ensures forall k :: k in job && k !in MergedKeys ==> k in r && r[k] == job[k]
    ensures forall k :: k in r ==> k in job || k in MergedKeys
  {
    var stamped := job["status" := Str(u.status)]["updatedAt" := Str(now)];
    SetIf(SetIf(SetIf(SetIf(stamped, "progress", u.progress), "extractedData", u.extractedData),
      "analysis", u.analysis), "error", u.error)
  }

  /** What `read_item` raises for an id the container does not hold. */
  function NotFound(id: string): Fault
  {
    Fault("Entity with the specified id does not exist in the system: " + id)
  }

  /** `update_job_status`: read the item, merge, upsert; a missing item raises. */
  function UpdateJobStatus(store: Store, jobId: string, u: StatusUpdate, now: string): (r: Result<Store, Fault>)
    ensures r.Failure? <==> jobId !in store
    ensures r.Failure? ==> r.error == NotFound(jobId)
    ensures r.Success? ==>
      && r.value.Keys == store.Keys
      && r.value[jobId] == MergeStatus(store[jobId], u, now)
      && forall k :: k in store && k != jobId ==> r.value[k] == store[k]
  {
    if jobId !in store then Failure(NotFound(jobId))
    else Success(store[jobId := MergeStatus(store[jobId], u, now)])
  }

  /**
   * The blob-path split of `download_pdf`: `container/blob`, cut at the
   * first '/'; the blob name keeps any further '/'.
   */
  function ParseBlobPath(path: string): (r: Result<(string, string), Fault>)
    ensures r.Failure? <==> '/' !in path
    ensures r.Failure? ==> r.error == Fault("Invalid blob path format: " + path)
    ensures r.Success? ==> '/' !in r.value.0 && r.value.0 + "/" + r.value.1 == path
  {
    var parts := SplitOnce(path, '/');
    if |parts| != 2 then Failure(Fault("Invalid blob path format: " + path))
    else Success((parts[0], parts[1]))
  }

  /** The entry `extract_text_from_pdf` makes for page number `n`: page type not yet known. */
  function PageEntry(n: nat, text: string): (e: Record)
    ensures e.Keys == {"page", "text", "pageType"}
    ensures e["page"] == Num(n) && e["text"] == Str(text) && e["pageType"] == Str("unknown")
  {
    map["page" := Num(n), "text" := Str(text), "pageType" := Str("unknown")]
  }

  /** `extract_text_from_pdf` after the PDF reader produced the page texts: one entry per page, numbered from 1. */
  function ExtractPages(texts: seq<string>): (pages: seq<Record>)
    ensures |pages| == |texts|
    ensures forall i :: 0 <= i < |texts| ==> pages[i] == PageEntry(i + 1, texts[i])
  {
    if |texts| == 0 then []
    else ExtractPages(texts[..|texts| - 1]) + [PageEntry(|texts|, texts[|texts| - 1])]
  }

  /**
   * `analyze_page_with_openai`: the parsed reply, or a fallback object; it
   * never raises.  Only a reply that parses to something other than a
   * dictionary yields a value that is not a dictionary.
   */
  function AnalyzePage(reply: Reply, parse: Parser): (a: Json)
    ensures !a.Obj? <==>
      reply.Replied? && reply.content.Some? && parse(reply.content.value).Some? && !parse(reply.content.value).value.Obj?
    ensures reply.CallFailed? ==> a == Single("error", Str(reply.fault.message))
    ensures reply == Replied(None) ==> a == Single("error", Str(LoadsNoneFault.message))
    ensures reply.Replied? && reply.content.Some? ==>
      a == (if parse(reply.content.value).Some? then parse(reply.content.value).value
            else Single("raw_analysis", Str(reply.content.value)))
  {
    match reply
    case CallFailed(f) => Single("error", Str(f.message))
    case Replied(None) => Single("error", Str(LoadsNoneFault.message))
    case Replied(Some(c)) =>
      match parse(c)
      case Some(j) => j
      case None => Single("raw_analysis", Str(c))
  }

  function Fields(j: Json): Record
  {
    if j.Obj? then j.fields else map[]
  }

  /** A page entry after its analysis is attached (`process_job`, per page). */
  function Annotated(page: Record, analysis: Json): Record
  {
    var fields := Fields(analysis);
    page["analysis" := analysis]
        ["pageType" := Get(fields, "documentType", Str("unknown"))]
        ["keyValues" := Get(fields, "keyValues", Obj(map[]))]
  }

  /**
   * Attaching an analysis calls `.get` on it, which raises unless it is a
   * dictionary; the entry gains the analysis, its `documentType` as page
   * type (default `unknown`) and its `keyValues` (default empty), and keeps
   * every other key.
   */
  function AnnotatePage(page: Record, analysis: Json): (r: Result<Record, Fault>)
    ensures r.Success? <==> analysis.Obj?
    ensures r.Failure? ==> r.error == Fault("'" + TypeName(analysis) + "' object has no attribute 'get'")
    ensures r.Success? ==>
      && r.value.Keys == page.Keys + {"analysis", "pageType", "keyValues"}
      && r.value["analysis"] == analysis
      && r.value["pageType"] == (if "documentType" in analysis.fields then analysis.fields["documentType"] else Str("unknown"))
      && r.value["keyValues"] == (if "keyValues" in analysis.fields then analysis.fields["keyValues"] else Obj(map[]))
      && forall k :: k in page && k !in {"analysis", "pageType", "keyValues"} ==> r.value[k] == page[k]
  {
    if analysis.Obj? then Success(Annotated(page, analysis))
    else Failure(Fault("'" + TypeName(analysis) + "' object has no attribute 'get'"))
  }

  /**
   * `perform_comprehensive_analysis`: the parsed reply stamped with
   * `completedAt`, or a summary-only fallback when the reply is not JSON.
   * A failed call, a `null` reply or a parsed value that is not a
   * dictionary raises.
   */
  function ComprehensiveAnalysis(reply: Reply, parse: Parser, now: string): (r: Result<Json, Fault>)
    ensures r.Success? ==> r.value.Obj? && "completedAt" in r.value.fields && r.value.fields["completedAt"] == Str(now)
    ensures r.Success? <==>
      reply.Replied? && reply.content.Some? && (parse(reply.content.value).None? || parse(reply.content.value).value.Obj?)
    ensures reply.CallFailed? ==> r == Failure(reply.fault)
    ensures reply == Replied(None) ==> r == Failure(LoadsNoneFault)
    ensures reply.Replied? && reply.content.Some? && parse(reply.content.value).None? ==>
      && r.Success? && r.value.fields.Keys == {"summary", "risks", "recommendations", "completedAt"}
      && r.value.fields["summary"] == Str(reply.content.value)
      && r.value.fields["risks"] == Arr([]) && r.value.fields["recommendations"] == Arr([])
    ensures reply.Replied? && reply.content.Some? && parse(reply.content.value).Some? && parse(reply.content.value).value.Obj? ==>
      var m := parse(reply.content.value).value.fields;
      && r.Success? && r.value.fields.Keys == m.Keys + {"completedAt"}
      && forall k :: k in m && k != "completedAt" ==> r.value.fields[k] == m[k]
    ensures reply.Replied? && reply.content.Some? && parse(reply.content.value).Some? && parse(reply.content.value).value.Arr? ==>
      r == Failure(Fault("list indices must be integers or slices, not str"))
  {
    match reply
    case CallFailed(f) => Failure(f)
    case Replied(None) => Failure(LoadsNoneFault)
    case Replied(Some(c)) =>
      match parse(c)
      case None =>
        Success(Obj(map["summary" := Str(c), "risks" := Arr([]), "recommendations" := Arr([]),
                        "completedAt" := Str(now)]))
      case Some(Obj(m)) => Success(Obj(m["completedAt" := Str(now)]))
      case Some(Arr(_)) => Failure(Fault("list indices must be integers or slices, not str"))
      case Some(j) => Failure(Fault("'" + TypeName(j) + "' object does not support item assignment"))
  }

  /** One observable step of a run, in the order it happened. */
  datatype Event =
    | Wrote(update: StatusUpdate)
    | Download(container: string, blob: string)
    | AnalyzedPage(page: nat)
    | Summarised

  /** The store, the steps taken so far, and the exception raised (if any). */
  datatype Run = Run(store: Store, events: seq<Event>, fault: Option<Fault>)

  /** The external services a run talks to. */
  datatype Services = Services(
    download: (string, string) -> Result<Bytes, Fault>,
    readPages: Bytes -> Result<seq<string>, Fault>,
    askPage: (string, nat) -> Reply,
    askSummary: seq<Record> -> Reply,
    parse: Parser)

  /** The queue message body: `jobId`, `blobPath`, `filename`. */
  datatype JobMessage = JobMessage(jobId: string, blobPath: string, filename: string)

  function Progress(message: string, current: nat, total: nat): Json
  {
    Obj(map["message" := Str(message), "currentPage" := Num(current), "totalPages" := Num(total)])
  }

  function PagesJson(pages: seq<Record>): Json
  {
    Arr(seq(|pages|, i requires 0 <= i < |pages| => Obj(pages[i])))
  }

  const StartUpdate := StatusUpdate("processing", Some(Progress("Starting document processing", 0, 0)), None, None, None)

  function PageUpdate(i: nat, n: nat): StatusUpdate
  {
    StatusUpdate("processing",
      Some(Progress("Analyzing page " + NatToString(i) + " of " + NatToString(n), i, n)), None, None, None)
  }

  function StoreUpdate(pages: seq<Record>): StatusUpdate
  {
    StatusUpdate("processing", Some(Progress("Performing comprehensive analysis", |pages|, |pages|)),
      Some(PagesJson(pages)), None, None)
  }

  function CompleteUpdate(pages: seq<Record>, analysis: Json): StatusUpdate
  {
    StatusUpdate("completed", None, Some(PagesJson(pages)), Some(analysis), None)
  }

  function FailUpdate(f: Fault, now: string): StatusUpdate
  {
    StatusUpdate("failed", None, None, None, Some(Obj(map["message" := Str(f.message), "timestamp" := Str(now)])))
  }

  /** `out` keeps the stored ids of `r` and extends its steps. */
  ghost predicate Extends(r: Run, out: Run)
  {
    out.store.Keys == r.store.Keys && r.events <= out.events
  }

  lemma ExtendsTrans(a: Run, b: Run, c: Run)
    requires Extends(a, b) && Extends(b, c)
    ensures Extends(a, c)
  {
    assert c.events[..|a.events|] == c.events[..|b.events|][..|a.events|];
  }

  /**
   * A durable status write inside a run: `update_job_status`, whose
   * exception becomes the run's.  It succeeds exactly when the record
   * exists, and touches no other record.
   */
  method Write(r: Run, jobId: string, u: StatusUpdate, now: string) returns (out: Run)
    requires r.fault.None?
    ensures Extends(r, out)
    ensures forall k :: k in r.store && k != jobId ==> out.store[k] == r.store[k]
    ensures out.fault.None? <==> jobId in r.store
    ensures jobId !in r.store ==> out == r.(fault := Some(NotFound(jobId)))
    ensures jobId in r.store ==> out.events == r.events + [Wrote(u)]
    ensures jobId in r.store ==> out.store[jobId] == MergeStatus(r.store[jobId], u, now)
  {
    match UpdateJobStatus(r.store, jobId, u, now)
    case Failure(f) =>
      out := r.(fault := Some(f));
    case Success(s) =>
      out := Run(s, r.events + [Wrote(u)], None);
  }

  /** Recording a service call extends the steps. */
  lemma CallExtends(r: Run, e: Event)
    ensures Extends(r, r.(events := r.events + [e]))
  {
  }

  /** The analysed entry `process_job` builds for page index `i`. */
  function AnalyzedEntry(texts: seq<string>, i: nat, svc: Services): Record
    requires i < |texts|
  {
    Annotated(PageEntry(i + 1, texts[i]), AnalyzePage(svc.askPage(texts[i], i + 1), svc.parse))
  }

  function AnalyzedPages(texts: seq<string>, svc: Services): seq<Record>
  {
    seq(|texts|, i requires 0 <= i < |texts| => AnalyzedEntry(texts, i, svc))
  }

  /** Every page's analysis is a dictionary, so attaching it cannot raise. */
  ghost predicate AllPagesAnalysable(texts: seq<string>, svc: Services)
  {
    forall i :: 0 <= i < |texts| ==> AnalyzePage(svc.askPage(texts[i], i + 1), svc.parse).Obj?
  }

  /** The exception attaching page index `i`'s analysis raises, if any. */
  function PageFaultAt(texts: seq<string>, svc: Services, i: nat): (f: Option<Fault>)
    requires i < |texts|
    ensures f.None? <==> AnalyzePage(svc.askPage(texts[i], i + 1), svc.parse).Obj?
  {
    match AnnotatePage(PageEntry(i + 1, texts[i]), AnalyzePage(svc.askPage(texts[i], i + 1), svc.parse))
    case Failure(e) => Some(e)
    case Success(_) => None
  }

  /** The exception of the first page from index `k` on whose analysis cannot be attached. */
  function PageFault(texts: seq<string>, svc: Services, k: nat): (f: Option<Fault>)
    requires k <= |texts|
    ensures f.None? <==> forall i :: k <= i < |texts| ==> AnalyzePage(svc.askPage(texts[i], i + 1), svc.parse).Obj?
    ensures f.Some? ==> exists i :: k <= i < |texts| && f == PageFaultAt(texts, svc, i)
    decreases |texts| - k
  {
    if k == |texts| then None
    else if PageFaultAt(texts, svc, k).Some? then PageFaultAt(texts, svc, k)
    else PageFault(texts, svc, k + 1)
  }

  lemma EntriesExtend(texts: seq<string>, svc: Services, pages: seq<Record>, page: Record)
    requires |pages| < |texts|
    requires forall i :: 0 <= i < |pages| ==> pages[i] == AnalyzedEntry(texts, i, svc)
    requires page == AnalyzedEntry(texts, |pages|, svc)
    ensures forall i :: 0 <= i < |pages| + 1 ==> (pages + [page])[i] == AnalyzedEntry(texts, i, svc)
  {
  }

  lemma PageFaultUnfold(texts: seq<string>, svc: Services, k: nat)
    requires k < |texts|
    ensures PageFault(texts, svc, k) == if PageFaultAt(texts, svc, k).Some? then PageFaultAt(texts, svc, k) else PageFault(texts, svc, k + 1)
  {
  }

  /** The steps of the per-page loop for pages 1..k of n: a progress write, then the analysis call. */
  function PageEvents(n: nat, k: nat): seq<Event>
    requires k <= n
  {
    if k == 0 then [] else PageEvents(n, k - 1) + [Wrote(PageUpdate(k, n)), AnalyzedPage(k)]
  }

  /** Page progress runs 1..n in order: step 2j writes page j+1 of n, step 2j+1 analyses it. */
  lemma {:induction false} PageEventsInOrder(n: nat, k: nat)
    requires k <= n
    ensures |PageEvents(n, k)| == 2 * k
    ensures forall j :: 0 <= j < k ==>
      && PageEvents(n, k)[2 * j] == Wrote(PageUpdate(j + 1, n))
      && PageEvents(n, k)[2 * j + 1] == AnalyzedPage(j + 1)
  {
    if k > 0 {
      PageEventsInOrder(n, k - 1);
    }
  }

  /**
   * One iteration of the per-page loop of `process_job`: a `processing`
   * write with `currentPage` k+1 of n, the page's analysis, and the
   * analysis attached to the page entry.
   */
  method AnalyzeStep(r: Run, jobId: string, texts: seq<string>, k: nat, svc: Services, now: string)
    returns (out: Run, page: Record)
    requires r.fault.None? && k < |texts|
    ensures Extends(r, out)
    ensures forall j :: j in r.store && j != jobId ==> out.store[j] == r.store[j]
    ensures out.fault.None? ==>
      && out.events == r.events + [Wrote(PageUpdate(k + 1, |texts|)), AnalyzedPage(k + 1)]
      && page == AnalyzedEntry(texts, k, svc)
    ensures jobId in r.store ==> out.fault == PageFaultAt(texts, svc, k)
    ensures jobId !in r.store ==> out.fault == Some(NotFound(jobId))
  {
    page := map[];
    var r1 := Write(r, jobId, PageUpdate(k + 1, |texts|), now);
    if r1.fault.Some? {
      return r1, page;
    }
    out, page := AttachPage(r1, texts, k, svc);
    ExtendsTrans(r, r1, out);
    AppendTwo(r.events, Wrote(PageUpdate(k + 1, |texts|)), AnalyzedPage(k + 1));
  }

  lemma AppendTwo(s: seq<Event>, a: Event, b: Event)
    ensures s + [a] + [b] == s + [a, b]
  {
  }

  /**
   * The page's analysis call, recorded, and the analysis attached to the
   * page's entry; the exception of attaching it becomes the run's.
   */
  method AttachPage(r: Run, texts: seq<string>, k: nat, svc: Services) returns (out: Run, page: Record)
    requires r.fault.None? && k < |texts|
    ensures out.store == r.store && out.events == r.events + [AnalyzedPage(k + 1)]
    ensures Extends(r, out)
    ensures out.fault == PageFaultAt(texts, svc, k)
    ensures out.fault.None? ==> page == AnalyzedEntry(texts, k, svc)
  {
    page := map[];
    var analysis := AnalyzePage(svc.askPage(texts[k], k + 1), svc.parse);
    out := r.(events := r.events + [AnalyzedPage(k + 1)]);
    CallExtends(r, AnalyzedPage(k + 1));
    var entry := ExtractPages(texts)[k];
    assert entry == PageEntry(k + 1, texts[k]);
    var annotated := AnnotatePage(entry, analysis);
    if annotated.Failure? {
      out := out.(fault := Some(annotated.error));
      return;
    }
    page := annotated.value;
  }

  /** The per-page loop after `k` pages: all analysed, recorded and attached in order. */
  ghost predicate PagesDone(r: Run, out: Run, jobId: string, texts: seq<string>, svc: Services, k: nat, pages: seq<Record>)
  {
    && k <= |texts| && |pages| == k
    && out.fault.None?
    && (jobId in r.store ==> PageFault(texts, svc, 0) == PageFault(texts, svc, k))
    && (k > 0 ==> jobId in r.store)
    && Extends(r, out)
    && (forall j :: j in r.store && j != jobId ==> out.store[j] == r.store[j])
    && out.events == r.events + PageEvents(|texts|, k)
    && (forall i :: 0 <= i < k ==> pages[i] == AnalyzedEntry(texts, i, svc))
  }

  /** One more page of the loop: it is attached, or the loop stops with the exception the page raised. */
  method AnalyzeNext(r: Run, out: Run, jobId: string, texts: seq<string>, k: nat, pages: seq<Record>, svc: Services, now: string)
    returns (next: Run, pages': seq<Record>)
    requires k < |texts| && PagesDone(r, out, jobId, texts, svc, k, pages)
    ensures next.fault.None? ==> PagesDone(r, next, jobId, texts, svc, k + 1, pages')
    ensures Extends(r, next)
    ensures forall j :: j in r.store && j != jobId ==> next.store[j] == r.store[j]
    ensures next.fault.Some? && jobId in r.store ==> next.fault == PageFault(texts, svc, 0)
    ensures next.fault.Some? && jobId !in r.store ==> next.fault == Some(NotFound(jobId))
  {
    var page;
    next, page := AnalyzeStep(out, jobId, texts, k, svc, now);
    ExtendsTrans(r, out, next);
    PageFaultUnfold(texts, svc, k);
    if next.fault.Some? {
      return next, pages;
    }
    PagesDoneStep(r, out, next, jobId, texts, svc, k, pages, page);
    pages' := pages + [page];
  }

  lemma PagesDoneStep(r: Run, out: Run, next: Run, jobId: string, texts: seq<string>, svc: Services, k: nat,
                      pages: seq<Record>, page: Record)
    requires k < |texts| && PagesDone(r, out, jobId, texts, svc, k, pages)
    requires Extends(out, next) && next.fault.None? && jobId in out.store
    requires forall j :: j in out.store && j != jobId ==> next.store[j] == out.store[j]
    requires next.events == out.events + [Wrote(PageUpdate(k + 1, |texts|)), AnalyzedPage(k + 1)]
    requires page == AnalyzedEntry(texts, k, svc)
    requires PageFaultAt(texts, svc, k).None?
    ensures PagesDone(r, next, jobId, texts, svc, k + 1, pages + [page])
  {
    ExtendsTrans(r, out, next);
    PageFaultUnfold(texts, svc, k);
    EntriesExtend(texts, svc, pages, page);
    PageEventsStep(r.events, |texts|, k);
  }

  lemma PageEventsStep(base: seq<Event>, n: nat, k: nat)
    requires k < n
    ensures base + PageEvents(n, k) + [Wrote(PageUpdate(k + 1, n)), AnalyzedPage(k + 1)] == base + PageEvents(n, k + 1)
  {
  }

  /** The per-page loop of `process_job` over the extracted pages, in page order. */
  method AnalyzePages(r: Run, jobId: string, texts: seq<string>, svc: Services, now: string)
    returns (out: Run, pages: seq<Record>)
    requires r.fault.None?
    ensures Extends(r, out)
    ensures forall j :: j in r.store && j != jobId ==> out.store[j] == r.store[j]
    ensures out.fault.None? ==> out.events == r.events + PageEvents(|texts|, |texts|)
    ensures out.fault.None? ==> |pages| == |texts| && forall i :: 0 <= i < |texts| ==> pages[i] == AnalyzedEntry(texts, i, svc)
    ensures jobId in r.store ==> out.fault == PageFault(texts, svc, 0)
    ensures jobId !in r.store ==> out.fault == if |texts| == 0 then None else Some(NotFound(jobId))
  {
    pages := [];
    out := r;
    var k := 0;
    while k < |texts|
      invariant PagesDone(r, out, jobId, texts, svc, k, pages)
    {
      var next, pages' := AnalyzeNext(r, out, jobId, texts, k, pages, svc, now);
      if next.fault.Some? {
        return next, pages;
      }
      out, pages, k := next, pages', k + 1;
    }
  }

  /** The page texts of the job's PDF, when its blob path parses, it downloads and it reads. */
  function FetchedTexts(msg: JobMessage, svc: Services): Option<seq<string>>
  {
    match ParseBlobPath(msg.blobPath)
    case Failure(_) => None
    case Success(path) =>
      match svc.download(path.0, path.1)
      case Failure(_) => None
      case Success(bytes) =>
        match svc.readPages(bytes)
        case Failure(_) => None
        case Success(texts) => Some(texts)
  }

  /**
   * `download_pdf` and the PDF reader of `extract_text_from_pdf`: the blob
   * path is split, the download recorded, and the page texts read.  The
   * store is not touched.
   */
  method FetchPages(r: Run, msg: JobMessage, svc: Services, ghost now: string) returns (out: Run, texts: seq<string>)
    requires r.fault.None?
    ensures Extends(r, out) && out.store == r.store
    ensures out.fault.None? <==> FetchedTexts(msg, svc).Some?
    ensures out.fault.Some? ==> out.fault == StageFault(msg, svc, now)
    ensures out.fault.None? ==>
      && texts == FetchedTexts(msg, svc).value
      && out.events == r.events + [Download(ParseBlobPath(msg.blobPath).value.0, ParseBlobPath(msg.blobPath).value.1)]
  {
    texts := [];
    var path := ParseBlobPath(msg.blobPath);
    if path.Failure? {
      out := r.(fault := Some(path.error));
      return;
    }
    out := r.(events := r.events + [Download(path.value.0, path.value.1)]);
    var bytes := svc.download(path.value.0, path.value.1);
    if bytes.Failure? {
      out := out.(fault := Some(bytes.error));
      return;
    }
    var read := svc.readPages(bytes.value);
    if read.Failure? {
      out := out.(fault := Some(read.error));
      return;
    }
    texts := read.value;
  }

  /** The record holds the final `completed` write: status, pages and analysis. */
  ghost predicate CompletedRecord(job: Record)
  {
    HasStr(job, "status", "completed") && "extractedData" in job && "analysis" in job
  }

  /**
   * The tail of `process_job`: store the analysed pages, ask for the
   * comprehensive analysis and mark the record `completed` with both.
   */
  method Summarise(r: Run, jobId: string, pages: seq<Record>, svc: Services, now: string) returns (out: Run)
    requires r.fault.None?
    ensures Extends(r, out)
    ensures forall j :: j in r.store && j != jobId ==> out.store[j] == r.store[j]
    ensures out.fault.None? <==>
      jobId in r.store && ComprehensiveAnalysis(svc.askSummary(pages), svc.parse, now).Success?
    ensures jobId !in r.store ==> out.fault == Some(NotFound(jobId))
    ensures jobId in r.store && ComprehensiveAnalysis(svc.askSummary(pages), svc.parse, now).Failure? ==>
      out.fault == Some(ComprehensiveAnalysis(svc.askSummary(pages), svc.parse, now).error)
    ensures out.fault.None? ==>
      var analysis := ComprehensiveAnalysis(svc.askSummary(pages), svc.parse, now).value;
      && out.events == r.events + [Wrote(StoreUpdate(pages)), Summarised, Wrote(CompleteUpdate(pages, analysis))]
      && CompletedRecord(out.store[jobId])
      && out.store[jobId]["extractedData"] == PagesJson(pages)
      && out.store[jobId]["analysis"] == analysis
  {
    var r1 := Write(r, jobId, StoreUpdate(pages), now);
    if r1.fault.Some? {
      return r1;
    }
    var r2 := r1.(events := r1.events + [Summarised]);
    CallExtends(r1, Summarised);
    ExtendsTrans(r, r1, r2);
    var analysis := ComprehensiveAnalysis(svc.askSummary(pages), svc.parse, now);
    if analysis.Failure? {
      return r2.(fault := Some(analysis.error));
    }
    out := Write(r2, jobId, CompleteUpdate(pages, analysis.value), now);
    ExtendsTrans(r, r2, out);
  }

  /** The PDF is fetched and read, every page analysis is a dictionary and the comprehensive analysis succeeds. */
  ghost predicate Completes(msg: JobMessage, svc: Services, now: string)
  {
    && FetchedTexts(msg, svc).Some?
    && AllPagesAnalysable(FetchedTexts(msg, svc).value, svc)
    && ComprehensiveAnalysis(svc.askSummary(AnalyzedPages(FetchedTexts(msg, svc).value, svc)), svc.parse, now).Success?
  }

  /** Everything `process_job` depends on behaves: the run must complete. */
  ghost predicate Healthy(store: Store, msg: JobMessage, svc: Services, now: string)
  {
    msg.jobId in store && Completes(msg, svc, now)
  }

  /**
   * The exception the stages after the first write raise for a job whose
   * record exists: that of the first stage to fail, in the order blob path,
   * download, PDF reader, per-page analysis, comprehensive analysis.
   */
  function StageFault(msg: JobMessage, svc: Services, now: string): (f: Option<Fault>)
    ensures f.None? <==> Completes(msg, svc, now)
  {
    match ParseBlobPath(msg.blobPath)
    case Failure(e) => Some(e)
    case Success(path) =>
      match svc.download(path.0, path.1)
      case Failure(e) => Some(e)
      case Success(bytes) =>
        match svc.readPages(bytes)
        case Failure(e) => Some(e)
        case Success(texts) =>
          if PageFault(texts, svc, 0).Some? then PageFault(texts, svc, 0)
          else
            match ComprehensiveAnalysis(svc.askSummary(AnalyzedPages(texts, svc)), svc.parse, now)
            case Failure(e) => Some(e)
            case Success(_) => None
  }

  /** The analysed pages of a completing run. */
  ghost function CompletedPages(msg: JobMessage, svc: Services, now: string): seq<Record>
    requires Completes(msg, svc, now)
  {
    AnalyzedPages(FetchedTexts(msg, svc).value, svc)
  }

  /** The comprehensive analysis of a completing run. */
  ghost function CompletedAnalysis(msg: JobMessage, svc: Services, now: string): Json
    requires Completes(msg, svc, now)
  {
    ComprehensiveAnalysis(svc.askSummary(CompletedPages(msg, svc, now)), svc.parse, now).value
  }

  /** The steps of a completing run after its first write. */
  ghost function StageEvents(msg: JobMessage, svc: Services, now: string): seq<Event>
    requires Completes(msg, svc, now)
  {
    var path := ParseBlobPath(msg.blobPath).value;
    var n := |FetchedTexts(msg, svc).value|;
    var pages := CompletedPages(msg, svc, now);
    [Download(path.0, path.1)] + PageEvents(n, n)
      + [Wrote(StoreUpdate(pages)), Summarised, Wrote(CompleteUpdate(pages, CompletedAnalysis(msg, svc, now)))]
  }

  /** The exact steps of a completing run. */
  ghost function CompletedEvents(msg: JobMessage, svc: Services, now: string): seq<Event>
    requires Completes(msg, svc, now)
  {
    [Wrote(StartUpdate)] + StageEvents(msg, svc, now)
  }

  /** The stages after the first `processing` write: fetch, per-page analysis, summary. */
  method RunStages(r: Run, msg: JobMessage, svc: Services, now: string) returns (out: Run)
    requires r.fault.None?
    ensures Extends(r, out)
    ensures forall j :: j in r.store && j != msg.jobId ==> out.store[j] == r.store[j]
    ensures out.fault.None? ==> msg.jobId in r.store && CompletedRecord(out.store[msg.jobId])
    ensures msg.jobId in r.store ==> out.fault == StageFault(msg, svc, now)
    ensures out.fault.None? <==> msg.jobId in r.store && Completes(msg, svc, now)
    ensures msg.jobId in r.store && Completes(msg, svc, now) ==>
      && out.fault.None?
      && out.events == r.events + StageEvents(msg, svc, now)
      && out.store[msg.jobId]["extractedData"] == PagesJson(CompletedPages(msg, svc, now))
      && out.store[msg.jobId]["analysis"] == CompletedAnalysis(msg, svc, now)
  {
    var r1, texts := FetchPages(r, msg, svc, now);
    if r1.fault.Some? {
      return r1;
    }
    var r2, pages := AnalyzePages(r1, msg.jobId, texts, svc, now);
    ExtendsTrans(r, r1, r2);
    if r2.fault.Some? {
      return r2;
    }
    assert pages == AnalyzedPages(texts, svc);
    out := Summarise(r2, msg.jobId, pages, svc, now);
    ExtendsTrans(r, r2, out);
    if out.fault.None? {
      var path := ParseBlobPath(msg.blobPath).value;
      EventsRegroup(r.events, Download(path.0, path.1), PageEvents(|texts|, |texts|), out.events[|r2.events|..]);
    }
  }

  /** Regrouping the steps of a run: the earlier steps, then the stages' steps. */
  lemma EventsRegroup(before: seq<Event>, first: Event, middle: seq<Event>, last: seq<Event>)
    ensures before + [first] + middle + last == before + ([first] + middle + last)
  {
  }

  /**
   * The `try` block of `process_job`: mark `processing`, download, extract,
   * analyse every page, store the pages, run the comprehensive analysis and
   * mark `completed`.  The first exception stops it.
   */
  method Attempt(store: Store, msg: JobMessage, svc: Services, now: string) returns (out: Run)
    ensures out.store.Keys == store.Keys
    ensures forall j :: j in store && j != msg.jobId ==> out.store[j] == store[j]
    ensures msg.jobId !in store ==> out == Run(store, [], Some(NotFound(msg.jobId)))
    ensures msg.jobId in store ==> |out.events| >= 1 && out.events[0] == Wrote(StartUpdate)
    ensures out.fault.None? ==> msg.jobId in store && CompletedRecord(out.store[msg.jobId])
    ensures out.fault == if msg.jobId in store then StageFault(msg, svc, now) else Some(NotFound(msg.jobId))
    ensures out.fault.None? <==> Healthy(store, msg, svc, now)
    ensures Healthy(store, msg, svc, now) ==>
      && out.fault.None?
      && out.events == CompletedEvents(msg, svc, now)
      && out.store[msg.jobId]["extractedData"] == PagesJson(CompletedPages(msg, svc, now))
      && out.store[msg.jobId]["analysis"] == CompletedAnalysis(msg, svc, now)
  {
    var started := Write(Run(store, [], None), msg.jobId, StartUpdate, now);
    if started.fault.Some? {
      return started;
    }
    assert started.events == [Wrote(StartUpdate)];
    out := RunStages(started, msg, svc, now);
    assert out.events[0] == out.events[..1][0];
  }

  /**
   * `process_job`: the attempt, and when it raises, a `failed` write
   * carrying the exception's message before the exception is re-raised.
   */
  method ProcessJob(store: Store, msg: JobMessage, svc: Services, now: string) returns (r: Run)
    ensures r.store.Keys == store.Keys
    ensures forall j :: j in store && j != msg.jobId ==> r.store[j] == store[j]
    ensures msg.jobId !in store ==> r == Run(store, [], Some(NotFound(msg.jobId)))
    ensures msg.jobId in store ==> |r.events| >= 1 && r.events[0] == Wrote(StartUpdate)
    ensures r.fault.None? ==> msg.jobId in store && CompletedRecord(r.store[msg.jobId])
    ensures r.fault == if msg.jobId in store then StageFault(msg, svc, now) else Some(NotFound(msg.jobId))
    ensures r.fault.None? <==> Healthy(store, msg, svc, now)
    ensures r.fault.Some? && msg.jobId in store ==>
      && r.events[|r.events| - 1] == Wrote(FailUpdate(r.fault.value, now))
      && HasStr(r.store[msg.jobId], "status", "failed")
      && "error" in r.store[msg.jobId]
      && r.store[msg.jobId]["error"] == Obj(map["message" := Str(r.fault.value.message), "timestamp" := Str(now)])
    ensures Healthy(store, msg, svc, now) ==>
      && r.fault.None?
      && r.events == CompletedEvents(msg, svc, now)
      && r.store[msg.jobId]["extractedData"] == PagesJson(CompletedPages(msg, svc, now))
      && r.store[msg.jobId]["analysis"] == CompletedAnalysis(msg, svc, now)
  {
    var a := Attempt(store, msg, svc, now);
    if a.fault.None? {
      return a;
    }
    var f := a.fault.value;
    match UpdateJobStatus(a.store, msg.jobId, FailUpdate(f, now), now) {
      case Failure(g) =>
        r := a.(fault := Some(g));
      case Success(s) =>
        r := Run(s, a.events + [Wrote(FailUpdate(f, now))], Some(f));
    }
  }

  /** A page whose model call failed is still analysed: an error object, page type `unknown`. */
  lemma FailedPageCallKeepsPage(f: Fault, parse: Parser, texts: seq<string>, i: nat)
    requires i < |texts|
    ensures AnnotatePage(PageEntry(i + 1, texts[i]), AnalyzePage(CallFailed(f), parse)).Success?
    ensures var p := Annotated(PageEntry(i + 1, texts[i]), AnalyzePage(CallFailed(f), parse));
      && p["analysis"] == Single("error", Str(f.message))
      && p["pageType"] == Str("unknown")
      && p["keyValues"] == Obj(map[])
      && p["page"] == Num(i + 1)
  {
  }
}
