/**
 * The upload page and job list of the React front end
 * (`frontend/src/App.tsx`): the PDF check on a chosen or dropped
 * selection, the choice between the single and the batch upload, the
 * checks on the server's answers, and the status shown for a group of jobs.
 *
 * React state is a value (`Page`); fetches, navigation and the files'
 * contents are not modelled.  A response body is the parsed JSON.
 */
module UploadPage {
  import opened Wrappers
  import opened Strings
  import opened Json
  import DevApi
  import ApiHandler

  /** A browser `File`: its name and its MIME type (`file.type`). */
  datatype File = File(name: string, mime: string)

  /** `file.type.includes("pdf")`. */
  predicate IsPdf(f: File)
  {
    Contains(f.mime, "pdf")
  }

  /** `files.filter((file) => !file.type.includes("pdf"))`. */
  function InvalidFiles(fs: seq<File>): (bad: seq<File>)
    ensures |bad| <= |fs|
    ensures forall k :: 0 <= k < |bad| ==> !IsPdf(bad[k]) && bad[k] in fs
    ensures forall k :: 0 <= k < |fs| && !IsPdf(fs[k]) ==> fs[k] in bad
  {
    if |fs| == 0 then []
    else
      var init := fs[..|fs| - 1];
      var last := fs[|fs| - 1];
      var rest := InvalidFiles(init);
      assert forall f :: f in init ==> f in fs;
      rest + (if IsPdf(last) then [] else [last])
  }

  /** The non-PDF files, read front to back: a reference for the filter. */
  function NonPdfFiles(fs: seq<File>): seq<File>
  {
    if |fs| == 0 then [] else (if IsPdf(fs[0]) then [] else [fs[0]]) + NonPdfFiles(fs[1..])
  }

  lemma {:induction false} NonPdfFilesAppend(a: seq<File>, b: seq<File>)
    ensures NonPdfFiles(a + b) == NonPdfFiles(a) + NonPdfFiles(b)
  {
    if |a| > 0 {
      assert (a + b)[0] == a[0] && (a + b)[1..] == a[1..] + b;
      NonPdfFilesAppend(a[1..], b);
    } else {
      assert a + b == b;
    }
  }

  /** The filter keeps the non-PDF files in their order, each as often as it occurs. */
  lemma {:induction false} InvalidFilesInOrder(fs: seq<File>)
    ensures InvalidFiles(fs) == NonPdfFiles(fs)
  {
    if |fs| > 0 {
      var init := fs[..|fs| - 1];
      InvalidFilesInOrder(init);
      assert fs == init + [fs[|fs| - 1]];
      NonPdfFilesAppend(init, [fs[|fs| - 1]]);
      assert [fs[|fs| - 1]][1..] == [];
    }
  }

  /** No file is rejected exactly when every file is a PDF. */
  lemma InvalidFilesEmpty(fs: seq<File>)
    ensures InvalidFiles(fs) == [] <==> forall k :: 0 <= k < |fs| ==> IsPdf(fs[k])
  {
    if InvalidFiles(fs) != [] {
      assert InvalidFiles(fs)[0] in fs;
    }
  }

  /** `.map((f) => f.name)`. */
  function Names(fs: seq<File>): (names: seq<string>)
    ensures |names| == |fs|
    ensures forall k :: 0 <= k < |fs| ==> names[k] == fs[k].name
  {
    seq(|fs|, k requires 0 <= k < |fs| => fs[k].name)
  }

  const PdfOnly := "Please select only PDF files. Invalid files: "

  /** The error shown for a selection with non-PDF files. */
  function InvalidSelection(fs: seq<File>): string
  {
    PdfOnly + Join(Names(InvalidFiles(fs)), ", ")
  }

  /** A piece found in `b` is found at the shifted place in `a + b`. */
  lemma OccursShift(a: string, b: string, sub: string, i: nat)
    requires OccursAt(b, sub, i)
    ensures OccursAt(a + b, sub, |a| + i)
  {
    assert (a + b)[|a| + i..|a| + i + |sub|] == b[i..i + |sub|];
  }

  /** Every piece of a join occurs in it. */
  lemma {:induction false} JoinContainsEach(parts: seq<string>, sep: string, k: nat)
    requires k < |parts|
    ensures Contains(Join(parts, sep), parts[k])
    decreases |parts|
  {
    var j := Join(parts, sep);
    if |parts| == 1 {
      assert OccursAt(j, parts[k], 0);
    } else if k == 0 {
      assert j == parts[0] + (sep + Join(parts[1..], sep));
      assert j[..|parts[0]|] == parts[0];
      assert OccursAt(j, parts[k], 0);
    } else {
      var rest := Join(parts[1..], sep);
      JoinContainsEach(parts[1..], sep, k - 1);
      var i: nat :| i <= |rest| && OccursAt(rest, parts[k], i);
      assert j == (parts[0] + sep) + rest;
      OccursShift(parts[0] + sep, rest, parts[k], i);
    }
  }

  /** The error names every file that is not a PDF. */
  lemma InvalidSelectionNamesEach(fs: seq<File>, f: File)
    requires f in fs && !IsPdf(f)
    ensures Contains(InvalidSelection(fs), f.name)
  {
    var bad := InvalidFiles(fs);
    var k :| 0 <= k < |bad| && bad[k] == f;
    var joined := Join(Names(bad), ", ");
    JoinContainsEach(Names(bad), ", ", k);
    var i: nat :| i <= |joined| && OccursAt(joined, f.name, i);
    OccursShift(PdfOnly, joined, f.name, i);
  }

  /** The part of the page's state these handlers touch. */
  datatype Page = Page(files: seq<File>, error: Option<string>, progress: map<string, string>)

  /**
   * `handleFileChange`: the error is cleared first; an empty choice changes
   * nothing else; a choice with a non-PDF is rejected as a whole; otherwise
   * it replaces the files and clears the progress.
   */
  function FileChange(p: Page, chosen: seq<File>): (q: Page)
    ensures |chosen| == 0 ==> q == p.(error := None)
    ensures |chosen| > 0 && InvalidFiles(chosen) != [] ==> q == p.(error := Some(InvalidSelection(chosen)))
    ensures |chosen| > 0 && InvalidFiles(chosen) == [] ==> q == Page(chosen, None, map[])
  {
    var cleared := p.(error := None);
    if |chosen| == 0 then cleared
    else if |InvalidFiles(chosen)| > 0 then cleared.(error := Some(InvalidSelection(chosen)))
    else Page(chosen, None, map[])
  }

  /**
   * `handleDrop`: a drop with a non-PDF is rejected as a whole; any other
   * drop, an empty one included, replaces the files, clears the progress
   * and clears the error.
   */
  function Drop(p: Page, dropped: seq<File>): (q: Page)
    ensures InvalidFiles(dropped) != [] ==> q == p.(error := Some(InvalidSelection(dropped)))
    ensures InvalidFiles(dropped) == [] ==> q == Page(dropped, None, map[])
  {
    if |InvalidFiles(dropped)| > 0 then p.(error := Some(InvalidSelection(dropped)))
    else Page(dropped, None, map[])
  }

  /**
   * Neither handler keeps part of a selection: the files are either as they
   * were, or exactly the new selection with every file a PDF and no progress.
   */
  lemma SelectionAllOrNothing(p: Page, sel: seq<File>)
    ensures var q := FileChange(p, sel);
      q.files == p.files || (q.files == sel && q.progress == map[] && forall k :: 0 <= k < |sel| ==> IsPdf(sel[k]))
    ensures var q := Drop(p, sel);
      q.files == p.files || (q.files == sel && q.progress == map[] && forall k :: 0 <= k < |sel| ==> IsPdf(sel[k]))
    ensures var q := Drop(p, sel);
      q.files == p.files ==> q.files == sel || q.error == Some(InvalidSelection(sel))
  {
    InvalidFilesEmpty(sel);
  }

  /** A rejected selection leaves the files alone and the error names each non-PDF. */
  lemma RejectionNamesOffenders(p: Page, sel: seq<File>, f: File)
    requires f in sel && !IsPdf(f)
    ensures FileChange(p, sel).files == p.files && Drop(p, sel).files == p.files
    ensures FileChange(p, sel).error.Some? && Contains(FileChange(p, sel).error.value, f.name)
    ensures Drop(p, sel).error == FileChange(p, sel).error
  {
    assert f in InvalidFiles(sel);
    InvalidSelectionNamesEach(sel, f);
  }

  /** The two handlers differ on an empty selection: choosing nothing keeps the files, dropping nothing clears them. */
  lemma EmptySelectionDiffers(p: Page)
    ensures FileChange(p, []).files == p.files
    ensures Drop(p, []).files == []
  {
  }

  /** Which request `handleUpload` sends. */
  datatype Plan = NeedFiles | SingleUpload(file: File) | BatchUpload(all: seq<File>)

  const NoFilesError := "Please select at least one file"

  /** `handleUpload`: no request without files, the single endpoint for one file, the batch endpoint otherwise. */
  function PlanUpload(files: seq<File>): (plan: Plan)
    ensures plan.NeedFiles? <==> |files| == 0
    ensures plan.SingleUpload? <==> |files| == 1
    ensures plan.BatchUpload? <==> |files| >= 2
    ensures plan.SingleUpload? ==> plan.file == files[0]
    ensures plan.BatchUpload? ==> plan.all == files
  {
    if |files| == 0 then NeedFiles
    else if |files| == 1 then SingleUpload(files[0])
    else BatchUpload(files)
  }

  /**
   * The start of `handleUpload`: with no files it only reports the error;
   * otherwise the previous error is cleared before the request the plan
   * names is sent.
   */
  function StartUpload(p: Page): (q: Page)
    ensures q.files == p.files && q.progress == p.progress
    ensures q.error == Some(NoFilesError) <==> PlanUpload(p.files).NeedFiles?
    ensures !PlanUpload(p.files).NeedFiles? ==> q.error.None?
  {
    if |p.files| == 0 then p.(error := Some(NoFilesError)) else p.(error := None)
  }

  /** What rejects an upload: an `Error` with its message, or a `TypeError` from reading a property of `null`. */
  datatype Problem = Says(message: string) | TypeError

  /** JavaScript truthiness of a JSON value; `undefined` is an absent field. */
  predicate JsTruthy(j: Json)
  {
    match j
    case Null => false
    case Bool(b) => b
    case Num(n) => n != 0
    case Str(s) => |s| > 0
    case Arr(_) => true
    case Obj(_) => true
  }

  /** `body.k` for a parsed JSON body other than `null`: the value, or `undefined` (None). */
  function Field(body: Json, k: string): Option<Json>
  {
    if body.Obj? && k in body.fields then Some(body.fields[k]) else None
  }

  /** `body.k` for any parsed JSON body: `null.k` throws a `TypeError`. */
  function Property(body: Json, k: string): (r: Result<Option<Json>, Problem>)
    ensures r.Failure? <==> body == Null
    ensures body.Obj? && k in body.fields ==> r == Success(Some(body.fields[k]))
    ensures body != Null && !(body.Obj? && k in body.fields) ==> r == Success(None)
  {
    if body == Null then Failure(TypeError) else Success(Field(body, k))
  }

  /** `x` is present and truthy. */
  predicate Given(x: Option<Json>)
  {
    x.Some? && JsTruthy(x.value)
  }

  const InvalidResponse := "Invalid response from upload URL generation endpoint."

  /** `const { uploadUrl, jobId } = await response.json()` and the check that both are truthy. */
  function SingleTarget(body: Json): (r: Result<(Json, Json), Problem>)
    ensures body == Null ==> r == Failure(TypeError)
    ensures r.Success? <==>
      body.Obj? && "uploadUrl" in body.fields && "jobId" in body.fields
      && JsTruthy(body.fields["uploadUrl"]) && JsTruthy(body.fields["jobId"])
    ensures r.Success? ==> r.value == (body.fields["uploadUrl"], body.fields["jobId"])
    ensures body != Null && r.Failure? ==> r.error == Says(InvalidResponse)
  {
    if body == Null then Failure(TypeError)
    else
      var url := Field(body, "uploadUrl");
      var id := Field(body, "jobId");
      if !Given(url) || !Given(id) then Failure(Says(InvalidResponse))
      else Success((url.value, id.value))
  }

  /** The mock API's answer to an upload passes the check and names the new job and its URL. */
  lemma MockUploadAnswerAccepted(s: DevApi.Store, req: DevApi.UploadRequest, u: nat)
    ensures var id := DevApi.JobId(u);
      SingleTarget(DevApi.Upload(s, req, u).1) == Success((Str(DevApi.UploadUrl(id, req.filename)), Str(id)))
  {
  }

  /** `j.filename === name` inside `find`; `null.filename` throws. */
  function NamesFile(j: Json, name: string): (r: Result<bool, Problem>)
    ensures r.Failure? <==> j == Null
    ensures r == Success(true) <==> j.Obj? && "filename" in j.fields && j.fields["filename"] == Str(name)
  {
    var f :- Property(j, "filename");
    Success(f == Some(Str(name)))
  }

  /** `infos.find((j) => j.filename === name)`: the first entry naming the file. */
  function FindInfo(infos: seq<Json>, name: string): (r: Result<Option<nat>, Problem>)
    ensures r.Success? && r.value.Some? ==>
      && r.value.value < |infos|
      && NamesFile(infos[r.value.value], name) == Success(true)
      && forall i :: 0 <= i < r.value.value ==> NamesFile(infos[i], name) == Success(false)
    ensures r.Success? && r.value.None? ==> forall i :: 0 <= i < |infos| ==> NamesFile(infos[i], name) == Success(false)
    ensures r.Failure? ==> r.error == TypeError
  {
    if |infos| == 0 then Success(None)
    else
      var hit :- NamesFile(infos[0], name);
      if hit then Success(Some(0))
      else
        var rest :- FindInfo(infos[1..], name);
        match rest
        case None => Success(None)
        case Some(k) => Success(Some(k + 1))
  }

  /** The lookup of `name` finds `entry`. */
  predicate Found(infos: seq<Json>, name: string, entry: Json)
  {
    var r := FindInfo(infos, name);
    r.Success? && r.value.Some? && r.value.value < |infos| && infos[r.value.value] == entry
  }

  /** The error for a file the batch answer has no entry for. */
  function NoUploadUrl(name: string): string
  {
    "No upload URL returned for " + name
  }

  /**
   * The lookup each file's task does before its upload, taken in file order:
   * the entry each file uploads with, or the first file's rejection, which
   * is the one `Promise.all` reports since each lookup runs before the
   * task's first `await`.
   */
  function PlanBatch(files: seq<File>, infos: seq<Json>): (r: Result<seq<Json>, Problem>)
    ensures r.Success? ==> |r.value| == |files|
    ensures r.Success? ==> forall i :: 0 <= i < |files| ==> Found(infos, files[i].name, r.value[i])
    ensures r == Success([]) <==> |files| == 0
    ensures r.Failure? && r.error.Says? ==> exists i :: 0 <= i < |files| && r.error == Says(NoUploadUrl(files[i].name))
  {
    if |files| == 0 then Success([])
    else
      var found :- FindInfo(infos, files[0].name);
      match found
      case None => Failure(Says(NoUploadUrl(files[0].name)))
      case Some(k) =>
        var rest :- PlanBatch(files[1..], infos);
        assert forall i :: 1 <= i < |files| ==> files[i] == files[1..][i - 1];
        Success([infos[k]] + rest)
  }

  /**
   * The batch answer `uploadMultipleFiles` receives, `uploadInfos`: only an
   * array has `find`, so any other answer throws a `TypeError` at the first
   * file's lookup.
   */
  function PlanBatchAnswer(files: seq<File>, answer: Json): (r: Result<seq<Json>, Problem>)
    ensures answer.Arr? ==> r == PlanBatch(files, answer.items)
    ensures !answer.Arr? ==> (r.Success? <==> |files| == 0)
    ensures !answer.Arr? && |files| > 0 ==> r == Failure(TypeError)
  {
    if answer.Arr? then PlanBatch(files, answer.items)
    else if |files| == 0 then Success([])
    else Failure(TypeError)
  }

  /**
   * The two answer shapes compared: the Azure handler's batch answer is a
   * dictionary of URL and id lists, not an array of entries, so planning a
   * non-empty selection against it would throw.  The page's own request
   * never receives that answer; see `PageBatchRequestRefused`.
   */
  lemma AzureBatchAnswerRejected(files: seq<File>, urls: seq<Json>, ids: seq<Json>, batchId: string)
    requires |files| > 0
    ensures PlanBatchAnswer(files, ApiHandler.BatchBody(urls, ids, batchId)) == Failure(TypeError)
  {
  }

  /** The route the page posts its batch request to. */
  const BatchPath: string := "documents/upload_batch"

  /**
   * The batch request's outcome on the page: an answer that is not ok
   * throws with its status text before any lookup, and an ok answer is
   * planned file by file.
   */
  function BatchOutcome(files: seq<File>, ok: bool, statusText: string, answer: Json): (r: Result<seq<Json>, Problem>)
    ensures !ok ==> r == Failure(Says("Failed to get upload URLs: " + statusText))
    ensures ok ==> r == PlanBatchAnswer(files, answer)
  {
    if !ok then Failure(Says("Failed to get upload URLs: " + statusText))
    else PlanBatchAnswer(files, answer)
  }

  /**
   * The Azure functions do not serve the page's batch request: its path
   * is not one of their routes, which answers 404, and even on their batch
   * route a body that is an array of entries has no `get` and answers 500.
   */
  lemma PageBatchRequestRefused(entries: seq<Json>, svc: ApiHandler.Services)
    ensures ApiHandler.Route("POST", BatchPath) == ApiHandler.NoRoute
    ensures ApiHandler.BatchPrelude(Some(Arr(entries)), svc).Failure?
    ensures ApiHandler.BatchPrelude(Some(Arr(entries)), svc).error.status == 500
  {
    assert BatchPath != "documents/batch-upload" && BatchPath != "upload" && BatchPath != "documents/upload";
    assert !StartsWith(BatchPath, "jobs/");
  }

  /** The lookup of `name` finds an entry. */
  predicate Located(infos: seq<Json>, name: string)
  {
    FindInfo(infos, name).Success? && FindInfo(infos, name).value.Some?
  }

  /** Why the lookup of `name` did not find an entry: the thrown error, or the missing URL. */
  function LookupProblem(infos: seq<Json>, name: string): (p: Problem)
    ensures FindInfo(infos, name).Failure? ==> p == TypeError
    ensures FindInfo(infos, name) == Success(None) ==> p == Says(NoUploadUrl(name))
  {
    match FindInfo(infos, name)
    case Failure(e) => e
    case Success(_) => Says(NoUploadUrl(name))
  }

  /**
   * A batch plan succeeds exactly when every file's lookup finds an entry;
   * otherwise it fails with the problem of the first file whose lookup
   * does not.
   */
  lemma {:induction false} PlanBatchOutcome(files: seq<File>, infos: seq<Json>)
    ensures PlanBatch(files, infos).Success? <==> forall i :: 0 <= i < |files| ==> Located(infos, files[i].name)
    ensures PlanBatch(files, infos).Failure? ==>
      exists i :: 0 <= i < |files| && !Located(infos, files[i].name)
        && (forall j :: 0 <= j < i ==> Located(infos, files[j].name))
        && PlanBatch(files, infos).error == LookupProblem(infos, files[i].name)
  {
    if |files| > 0 {
      var tail := files[1..];
      PlanBatchOutcome(tail, infos);
      assert forall i :: 1 <= i < |files| ==> files[i] == tail[i - 1];
      if !Located(infos, files[0].name) {
        assert PlanBatch(files, infos).Failure?;
      } else if PlanBatch(tail, infos).Failure? {
        var i' :| 0 <= i' < |tail|
          && !Located(infos, tail[i'].name)
          && (forall j :: 0 <= j < i' ==> Located(infos, tail[j].name))
          && PlanBatch(tail, infos).error == LookupProblem(infos, tail[i'].name);
        assert files[i' + 1] == tail[i'];
        assert forall j :: 1 <= j < i' + 1 ==> Located(infos, files[j].name);
      }
    }
  }

  /** Two selected files with the same name upload with the same entry: both go to the first job of that name. */
  lemma SameNameSameTarget(files: seq<File>, infos: seq<Json>, i: nat, j: nat)
    requires i < |files| && j < |files| && files[i].name == files[j].name
    requires PlanBatch(files, infos).Success?
    ensures PlanBatch(files, infos).value[i] == PlanBatch(files, infos).value[j]
  {
  }

  /** Distinct names paired with the mock API's batch answer: every file uploads with its own entry. */
  lemma {:induction false} PlanFindsOwnEntry(files: seq<File>, infos: seq<Json>, i: nat)
    requires |infos| == |files| && i < |files|
    requires forall k :: 0 <= k < |files| ==> infos[k].Obj? && "filename" in infos[k].fields && infos[k].fields["filename"] == Str(files[k].name)
    requires forall k, l :: 0 <= k < l < |files| ==> files[k].name != files[l].name
    ensures FindInfo(infos, files[i].name) == Success(Some(i))
    decreases i
  {
    if i > 0 {
      assert NamesFile(infos[0], files[i].name) == Success(false);
      var f' := files[1..];
      var i' := infos[1..];
      assert forall k :: 0 <= k < |f'| ==> f'[k] == files[k + 1] && i'[k] == infos[k + 1];
      PlanFindsOwnEntry(f', i', i - 1);
    }
  }

  /** The mock API's batch answer, for files with distinct names, plans every file onto its own job. */
  lemma MockBatchAnswerPlanned(s: DevApi.Store, files: seq<File>, reqs: seq<DevApi.UploadRequest>, uuid: nat -> nat, results: seq<Json>)
    requires |reqs| == |files| && |results| == |files|
    requires forall k :: 0 <= k < |files| ==> reqs[k].filename == files[k].name
    requires forall k :: 0 <= k < |files| ==> results[k] == DevApi.BatchEntry(reqs[k], DevApi.JobId(uuid(k)))
    requires forall k, l :: 0 <= k < l < |files| ==> files[k].name != files[l].name
    ensures PlanBatch(files, results) == Success(results)
  {
    forall i | 0 <= i < |files|
      ensures FindInfo(results, files[i].name) == Success(Some(i))
    {
      PlanFindsOwnEntry(files, results, i);
    }
    PlanAll(files, results);
  }

  /** When each file's lookup finds the entry at its own index, the plan is the entries themselves. */
  lemma {:induction false} PlanAll(files: seq<File>, infos: seq<Json>)
    requires |infos| == |files|
    requires forall i :: 0 <= i < |files| ==> FindInfo(infos, files[i].name) == Success(Some(i))
    ensures PlanBatch(files, infos) == Success(infos)
  {
    PlanSuffix(files, infos, 0);
    assert files[0..] == files && infos[0..] == infos;
  }

  lemma {:induction false} PlanSuffix(files: seq<File>, infos: seq<Json>, n: nat)
    requires |infos| == |files| && n <= |files|
    requires forall i :: 0 <= i < |files| ==> FindInfo(infos, files[i].name) == Success(Some(i))
    ensures PlanBatch(files[n..], infos) == Success(infos[n..])
    decreases |files| - n
  {
    if n < |files| {
      var tail := files[n..];
      PlanSuffix(files, infos, n + 1);
      assert tail[1..] == files[n + 1..];
      assert tail[0] == files[n];
      PlanCons(tail, infos, n, infos[n + 1..]);
      assert infos[n..] == [infos[n]] + infos[n + 1..];
    }
  }

  /** A plan is the first file's entry followed by the plan of the rest. */
  lemma PlanCons(files: seq<File>, infos: seq<Json>, k: nat, rest: seq<Json>)
    requires |files| > 0 && k < |infos|
    requires FindInfo(infos, files[0].name) == Success(Some(k))
    requires PlanBatch(files[1..], infos) == Success(rest)
    ensures PlanBatch(files, infos) == Success([infos[k]] + rest)
  {
  }

  /**
   * The status the job list shows for a group of jobs with these
   * statuses: the worst one, `Complete` when there is neither a failed nor
   * a running job.
   */
  function DateGroupStatus(statuses: seq<string>): (g: string)
    ensures g == "Failed" || g == "In Progress" || g == "Complete"
    ensures g != "Complete" ==> g in statuses
    ensures forall k :: 0 <= k < |statuses| ==> Severity(statuses[k]) <= Severity(g)
  {
    if "Failed" in statuses then "Failed"
    else if "In Progress" in statuses then "In Progress"
    else "Complete"
  }

  /** How bad a group status is. */
  function Severity(status: string): nat
  {
    if status == "Failed" then 2 else if status == "In Progress" then 1 else 0
  }

  /** A group shows the worse of the statuses its two parts show: the order of the jobs does not matter and an empty part changes nothing. */
  lemma {:induction false} GroupStatusWorstOf(a: seq<string>, b: seq<string>)
    ensures Severity(DateGroupStatus(a + b)) == if Severity(DateGroupStatus(a)) >= Severity(DateGroupStatus(b)) then Severity(DateGroupStatus(a)) else Severity(DateGroupStatus(b))
    ensures DateGroupStatus(a + b) == DateGroupStatus(b + a)
  {
    assert forall x :: x in a + b <==> x in a || x in b;
    assert forall x :: x in b + a <==> x in a || x in b;
  }

  /** A group shows `Failed` exactly when some job failed, `In Progress` exactly when none failed and some is in progress, and `Complete` otherwise, an empty group included. */
  lemma GroupStatusCases(statuses: seq<string>)
    ensures DateGroupStatus(statuses) == "Failed" <==> exists i :: 0 <= i < |statuses| && statuses[i] == "Failed"
    ensures DateGroupStatus(statuses) == "In Progress" <==>
      (forall i :: 0 <= i < |statuses| ==> statuses[i] != "Failed") && exists i :: 0 <= i < |statuses| && statuses[i] == "In Progress"
    ensures statuses == [] ==> DateGroupStatus(statuses) == "Complete"
  {
  }
}
