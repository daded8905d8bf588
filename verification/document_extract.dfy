/**
 * The blob-triggered extractor of the Azure deployment
 * (`document_extract/__init__.py`): read the uploaded PDF, analyse every
 * page, and attach the pages to the first job whose `filename` is the
 * blob's file name.
 *
 * The jobs container is a sequence of items in query order; PDF reading,
 * the language-model call, `json.loads` and `upsert_item` are oracles.
 */
module DocumentExtract {
  import opened Wrappers
  import opened Strings
  import opened Json
  import opened Inference

  /** `myblob.name.split('/')[-1]`: the text after the last '/'. */
  function FileNameOf(blobName: string): (f: string)
    ensures '/' !in f
    ensures EndsWith(blobName, f)
    ensures '/' !in blobName ==> f == blobName
    ensures |f| == |blobName| || blobName[|blobName| - |f| - 1] == '/'
  {
    LastSegmentIsSuffix(blobName, '/');
    LastSegment(blobName, '/')
  }

  /** The blob an upload URL of the handler names, `documents/<filename>`, leads back to that filename. */
  lemma BlobNameRoundTrip(filename: string)
    requires '/' !in filename
    ensures FileNameOf("documents/" + filename) == filename
  {
    assert "documents/" + filename == "documents" + ['/'] + filename;
    SplitCons("documents", filename, '/');
    assert Split(filename, '/') == [filename];
  }

  /**
   * `analyze_page_with_gpt4`: the parsed reply; `{"raw_analysis": reply}`
   * when it does not parse (a `null` reply included, since the bare
   * `except` also catches `json.loads(None)`); `{"error": message}` when
   * the call fails.  It never raises.
   */
  function AnalyzePage(reply: Reply, parse: Parser): (a: Json)
    ensures reply.CallFailed? ==> a == Single("error", Str(reply.fault.message))
    ensures reply.Replied? && reply.content.Some? && parse(reply.content.value).Some? ==>
      a == parse(reply.content.value).value
    ensures reply.Replied? && reply.content.Some? && parse(reply.content.value).None? ==>
      a == Single("raw_analysis", Str(reply.content.value))
    ensures reply == Replied(None) ==> a == Single("raw_analysis", Null)
  {
    match reply
    case CallFailed(f) => Single("error", Str(f.message))
    case Replied(None) => Single("raw_analysis", Null)
    case Replied(Some(c)) =>
      match parse(c)
      case Some(j) => j
      case None => Single("raw_analysis", Str(c))
  }

  /** The oracles: the model's reply for page `n` with text `t`, and the reply parser. */
  datatype Services = Services(chat: (nat, string) -> Reply, parse: Parser)

  /** The entry for page `n` (counting from 1) with text `text`. */
  function PageEntry(n: nat, text: string, svc: Services): Json
  {
    Obj(map["page" := Num(n), "text" := Str(text), "analysis" := AnalyzePage(svc.chat(n, text), svc.parse)])
  }

  /** `extracted_data`: one entry per page, numbered from 1, in page order. */
  function ExtractedData(texts: seq<string>, svc: Services): (data: seq<Json>)
    ensures |data| == |texts|
    ensures forall i :: 0 <= i < |data| ==> data[i] == PageEntry(i + 1, texts[i], svc)
  {
    if |texts| == 0 then []
    else ExtractedData(texts[..|texts| - 1], svc) + [PageEntry(|texts|, texts[|texts| - 1], svc)]
  }

  /** The page numbers of the extracted data are 1, 2, ..., n. */
  lemma PagesNumberedInOrder(texts: seq<string>, svc: Services)
    ensures var data := ExtractedData(texts, svc);
      forall i :: 0 <= i < |data| ==> data[i].Obj? && data[i].fields["page"] == Num(i + 1) && data[i].fields["text"] == Str(texts[i])
  {
  }

  /** The job matches the query `c.filename = '<filename>'`. */
  predicate Matches(job: Record, filename: string)
  {
    "filename" in job && job["filename"] == Str(filename)
  }

  /** The index of the first matching job, if any. */
  function FirstMatch(jobs: seq<Record>, filename: string): (r: Option<nat>)
    ensures r.Some? ==> r.value < |jobs| && Matches(jobs[r.value], filename)
    ensures r.Some? ==> forall j :: 0 <= j < r.value ==> !Matches(jobs[j], filename)
    ensures r.None? <==> forall j :: 0 <= j < |jobs| ==> !Matches(jobs[j], filename)
  {
    if |jobs| == 0 then None
    else if Matches(jobs[0], filename) then Some(0)
    else match FirstMatch(jobs[1..], filename)
      case None => None
      case Some(k) => Some(k + 1)
  }

  /** The job after the extracted pages are attached. */
  function Extracted(job: Record, data: seq<Json>): Record
  {
    job["extractedData" := Arr(data)]["status" := Str("extracted")]
  }

  /**
   * `main`: the PDF's page texts (or the fault reading it) and the upsert's
   * outcome are given.  The result is the new container or the fault that
   * `main` re-raises.
   */
  function Extract(jobs: seq<Record>, blobName: string, pages: Result<seq<string>, Fault>, upsert: Option<Fault>,
                svc: Services): (r: Result<seq<Record>, Fault>)
    ensures pages.Failure? ==> r == Failure(pages.error)
    ensures r.Success? ==> |r.value| == |jobs|
    ensures pages.Success? && FirstMatch(jobs, FileNameOf(blobName)).None? ==> r == Success(jobs)
    ensures pages.Success? && FirstMatch(jobs, FileNameOf(blobName)).Some? ==>
      var k := FirstMatch(jobs, FileNameOf(blobName)).value;
      && (upsert.Some? ==> r == Failure(upsert.value))
      && (upsert.None? ==> r == Success(jobs[k := Extracted(jobs[k], ExtractedData(pages.value, svc))]))
  {
    var texts :- pages;
    var data := ExtractedData(texts, svc);
    match FirstMatch(jobs, FileNameOf(blobName))
    case None => Success(jobs)
    case Some(k) =>
      if upsert.Some? then Failure(upsert.value)
      else Success(jobs[k := Extracted(jobs[k], data)])
  }

  /** Of several jobs with the same filename only the first changes; every other job is as it was. */
  lemma OnlyFirstMatchUpdated(jobs: seq<Record>, blobName: string, texts: seq<string>, svc: Services)
    ensures var r := Extract(jobs, blobName, Success(texts), None, svc);
      && r.Success?
      && forall j :: 0 <= j < |jobs| && r.value[j] != jobs[j] ==>
           && Matches(jobs[j], FileNameOf(blobName))
           && (forall i :: 0 <= i < j ==> !Matches(jobs[i], FileNameOf(blobName)))
           && r.value[j]["status"] == Str("extracted")
           && r.value[j]["extractedData"] == Arr(ExtractedData(texts, svc))
  {
  }
}
