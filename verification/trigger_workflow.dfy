/**
 * The S3-triggered Lambda (`trigger-workflow/index.py`): for each record
 * of the event, decode the object key, skip anything that is not a PDF
 * under `uploads/`, and start a Step Functions execution with a name built
 * from the time and the key.  A failing record is reported and the rest
 * are still processed; the overall status is 200, or 207 when any record
 * failed.
 *
 * `unquote_plus`, the clock and `start_execution` are oracles; the
 * event's records are given as a parsed JSON list.
 */
module TriggerWorkflow {
  import opened Wrappers
  import opened Strings
  import opened Json
  import opened Inference

  /** A UTC time as `datetime.utcnow()` gives it. */
  datatype DateTime = DateTime(year: nat, month: nat, day: nat, hour: nat, minute: nat, second: nat)

  /** `strftime('%Y%m%d-%H%M%S')`: zero-padded digits and one '-'. */
  function Stamp(t: DateTime): (r: string)
    ensures forall k :: 0 <= k < |r| ==> IsDigit(r[k]) || r[k] == '-'
    ensures '/' !in r && '.' !in r
  {
    PadNat(t.year, 4) + PadNat(t.month, 2) + PadNat(t.day, 2) + "-" + PadNat(t.hour, 2) + PadNat(t.minute, 2) + PadNat(t.second, 2)
  }

  /** Python `j[k]` with a string key: the entry, or the exception it raises. */
  function Index(j: Json, k: string): (r: Result<Json, Fault>)
    ensures r.Success? <==> j.Obj? && k in j.fields
    ensures r.Success? ==> r.value == j.fields[k]
    ensures j.Obj? && k !in j.fields ==> r == Failure(Fault("'" + k + "'"))
  {
    match j
    case Obj(f) => if k in f then Success(f[k]) else Failure(Fault("'" + k + "'"))
    case Str(_) => Failure(Fault("string indices must be integers, not 'str'"))
    case Arr(_) => Failure(Fault("list indices must be integers or slices, not str"))
    case _ => Failure(Fault("'" + TypeName(j) + "' object is not subscriptable"))
  }

  /** `record['s3']['bucket']['name']` and `record['s3']['object']['key']`. */
  function Location(record: Json): Result<(Json, Json), Fault>
  {
    var s3 :- Index(record, "s3");
    var bucketInfo :- Index(s3, "bucket");
    var bucket :- Index(bucketInfo, "name");
    var objectInfo :- Index(s3, "object");
    var key :- Index(objectInfo, "key");
    Success((bucket, key))
  }

  /** Only PDFs under `uploads/` start a workflow; the suffix test ignores case. */
  predicate Wanted(key: string)
  {
    StartsWith(key, "uploads/") && EndsWith(Lower(key), ".pdf")
  }

  /** The key with '/' and then '.' replaced by '-'. */
  function Dashed(key: string): (r: string)
    ensures |r| == |key|
    ensures '/' !in r && '.' !in r
  {
    ReplaceChar(ReplaceChar(key, '/', '-'), '.', '-')
  }

  /**
   * `f"upload-{timestamp}-{key.replace('/', '-').replace('.', '-')}"[:80]`:
   * at most 80 characters, free of '/' and '.' whenever the timestamp is.
   */
  function ExecutionName(stamp: string, key: string): (name: string)
    ensures |name| <= 80
    ensures '/' !in stamp && '.' !in stamp ==> '/' !in name && '.' !in name
    ensures |stamp| + |key| <= 72 ==> name == "upload-" + stamp + "-" + Dashed(key)
    ensures name <= "upload-" + stamp + "-" + Dashed(key)
    ensures |name| == if |stamp| + |key| + 8 <= 80 then |stamp| + |key| + 8 else 80
  {
    var full := "upload-" + stamp + "-" + Dashed(key);
    var name := Truncate(full, 80);
    assert forall k :: 0 <= k < |name| ==> name[k] == full[k];
    name
  }

  /** Two different keys started in the same second get the same name: the naming is not injective. */
  lemma ExecutionNamesCollide(stamp: string)
    requires |stamp| <= 40
    ensures ExecutionName(stamp, "uploads/a.b.pdf") == ExecutionName(stamp, "uploads/a-b.pdf")
  {
    assert Dashed("uploads/a.b.pdf") == Dashed("uploads/a-b.pdf");
  }

  /** The input of the execution. */
  function ExecutionInput(bucket: Json, key: string): (input: Json)
    ensures input.Obj? && input.fields.Keys == {"detail", "classification"}
    ensures input.fields["classification"] == Str("OTHER")
    ensures input.fields["detail"] == Obj(map["bucket" := Obj(map["name" := bucket]), "object" := Obj(map["key" := Str(key)])])
  {
    Obj(map["detail" := Obj(map["bucket" := Obj(map["name" := bucket]), "object" := Obj(map["key" := Str(key)])]),
            "classification" := Str("OTHER")])
  }

  /** The oracles: `unquote_plus`, the clock at the `i`-th record, and `start_execution` for the `i`-th record. */
  datatype Services = Services(
    unquote: Json -> Result<string, Fault>,
    clock: nat -> DateTime,
    start: (nat, string, Json) -> Option<Fault>)

  /** What happened to one record. */
  datatype Outcome = Started(name: string, input: Json) | Skipped | Errored(message: string)

  const ErrorPrefix := "Error processing record: "

  /** The decoded key of a record whose location could be read. */
  function KeyOf(record: Json, svc: Services): Result<(Json, string), Fault>
  {
    var (bucket, encoded) :- Location(record);
    var key :- svc.unquote(encoded);
    Success((bucket, key))
  }

  /** The body of the `try` for the `i`-th record. */
  function ProcessRecord(i: nat, record: Json, svc: Services): (o: Outcome)
    ensures KeyOf(record, svc).Failure? ==> o == Errored(ErrorPrefix + KeyOf(record, svc).error.message)
    ensures o.Skipped? <==> KeyOf(record, svc).Success? && !Wanted(KeyOf(record, svc).value.1)
    ensures o.Started? ==>
      var (bucket, key) := KeyOf(record, svc).value;
      && Wanted(key)
      && o.name == ExecutionName(Stamp(svc.clock(i)), key)
      && o.input == ExecutionInput(bucket, key)
      && svc.start(i, o.name, o.input).None?
    ensures o.Errored? ==> StartsWith(o.message, ErrorPrefix)
  {
    match KeyOf(record, svc)
    case Failure(f) => Errored(ErrorPrefix + f.message)
    case Success((bucket, key)) =>
      if !Wanted(key) then Skipped
      else
        var name := ExecutionName(Stamp(svc.clock(i)), key);
        var input := ExecutionInput(bucket, key);
        match svc.start(i, name, input)
        case Some(f) => Errored(ErrorPrefix + f.message)
        case None => Started(name, input)
  }

  /** A started execution's name has at most 80 characters and no '/' or '.'. */
  lemma StartedNameClean(i: nat, record: Json, svc: Services)
    ensures var o := ProcessRecord(i, record, svc);
      o.Started? ==> |o.name| <= 80 && '/' !in o.name && '.' !in o.name
  {
    var o := ProcessRecord(i, record, svc);
    if o.Started? {
      var stamp := Stamp(svc.clock(i));
      assert o.name == ExecutionName(stamp, KeyOf(record, svc).value.1);
      assert '/' !in stamp && '.' !in stamp;
    }
  }

  /** Number of started executions among `os`. */
  function StartedCount(os: seq<Outcome>): nat
  {
    if |os| == 0 then 0 else StartedCount(os[..|os| - 1]) + (if os[|os| - 1].Started? then 1 else 0)
  }

  /** Number of skipped records among `os`. */
  function SkippedCount(os: seq<Outcome>): nat
  {
    if |os| == 0 then 0 else SkippedCount(os[..|os| - 1]) + (if os[|os| - 1].Skipped? then 1 else 0)
  }

  /** The error messages among `os`, in order. */
  function Errors(os: seq<Outcome>): seq<string>
  {
    if |os| == 0 then [] else Errors(os[..|os| - 1]) + (if os[|os| - 1].Errored? then [os[|os| - 1].message] else [])
  }

  /** The names of the started executions among `os`, in order. */
  function StartedNames(os: seq<Outcome>): seq<string>
  {
    if |os| == 0 then [] else StartedNames(os[..|os| - 1]) + (if os[|os| - 1].Started? then [os[|os| - 1].name] else [])
  }

  /** One name per started execution. */
  lemma {:induction false} StartedNamesCount(os: seq<Outcome>)
    ensures |StartedNames(os)| == StartedCount(os)
  {
    if |os| > 0 {
      StartedNamesCount(os[..|os| - 1]);
    }
  }

  /** What the handler's name building guarantees: at most 80 characters, and no '/' or '.' left. */
  predicate CleanName(name: string)
  {
    |name| <= 80 && '/' !in name && '.' !in name
  }

  /** The started names are clean when every started outcome's name is. */
  lemma {:induction false} StartedNamesClean(os: seq<Outcome>)
    requires forall i :: 0 <= i < |os| && os[i].Started? ==> CleanName(os[i].name)
    ensures forall k :: 0 <= k < |StartedNames(os)| ==> CleanName(StartedNames(os)[k])
  {
    if |os| > 0 {
      var pre := os[..|os| - 1];
      assert forall i :: 0 <= i < |pre| ==> pre[i] == os[i];
      StartedNamesClean(pre);
    }
  }

  lemma TalliesStep(os: seq<Outcome>, i: nat)
    requires i < |os|
    ensures StartedCount(os[..i + 1]) == StartedCount(os[..i]) + (if os[i].Started? then 1 else 0)
    ensures StartedNames(os[..i + 1]) == StartedNames(os[..i]) + (if os[i].Started? then [os[i].name] else [])
    ensures Errors(os[..i + 1]) == Errors(os[..i]) + (if os[i].Errored? then [os[i].message] else [])
  {
    assert os[..i + 1][..i] == os[..i];
  }

  /** Every record is started, skipped or failed: the three counts add up to the number of records. */
  lemma {:induction false} OutcomesPartition(os: seq<Outcome>)
    ensures StartedCount(os) + SkippedCount(os) + |Errors(os)| == |os|
  {
    if |os| > 0 {
      OutcomesPartition(os[..|os| - 1]);
    }
  }

  /** No errors exactly when no outcome is an error. */
  lemma {:induction false} ErrorsEmpty(os: seq<Outcome>)
    ensures Errors(os) == [] <==> forall i :: 0 <= i < |os| ==> !os[i].Errored?
  {
    if |os| > 0 {
      ErrorsEmpty(os[..|os| - 1]);
      assert forall i :: 0 <= i < |os| - 1 ==> os[..|os| - 1][i] == os[i];
    }
  }

  /**
   * The response of the handler.  The handler sends `json.dumps` of the
   * body; the model keeps the JSON value before it is serialised.
   */
  datatype Response = Response(statusCode: nat, body: Json)

  /** The result built after the loop from the count and the errors. */
  function Summary(started: nat, errors: seq<string>): (r: Response)
    ensures r.statusCode == 200 <==> errors == []
    ensures r.statusCode == 200 || r.statusCode == 207
    ensures r.body.Obj? && r.body.fields.Keys == {"message", "executionsStarted", "errors"}
    ensures r.body.fields["executionsStarted"] == Num(started)
    ensures r.body.fields["errors"] == Null <==> errors == []
    ensures errors != [] ==> r.body.fields["errors"] == Arr(seq(|errors|, i requires 0 <= i < |errors| => Str(errors[i])))
  {
    Response(if errors == [] then 200 else 207,
             Obj(map["message" := Str("Started " + NatToString(started) + " workflow execution(s)"),
                     "executionsStarted" := Num(started),
                     "errors" := if errors == [] then Null
                                 else Arr(seq(|errors|, i requires 0 <= i < |errors| => Str(errors[i])))]))
  }

  /** The outcome of every record, each processed on its own. */
  function Outcomes(records: seq<Json>, svc: Services): (os: seq<Outcome>)
    ensures |os| == |records|
  {
    seq(|records|, i requires 0 <= i < |records| => ProcessRecord(i, records[i], svc))
  }

  /**
   * `lambda_handler`: the records in order; a record's failure is caught
   * and recorded, and the loop goes on.
   */
  method LambdaHandler(records: seq<Json>, svc: Services) returns (r: Response, executions: seq<string>)
    ensures r == Summary(StartedCount(Outcomes(records, svc)), Errors(Outcomes(records, svc)))
    ensures |executions| == StartedCount(Outcomes(records, svc))
    ensures executions == StartedNames(Outcomes(records, svc))
    ensures forall k :: 0 <= k < |executions| ==> CleanName(executions[k])
  {
    ghost var os := Outcomes(records, svc);
    var started: nat := 0;
    var errors: seq<string> := [];
    executions := [];
    var i := 0;
    while i < |records|
      invariant 0 <= i <= |records|
      invariant started == StartedCount(os[..i]) == |executions|
      invariant executions == StartedNames(os[..i])
      invariant errors == Errors(os[..i])
    {
      var o := ProcessRecord(i, records[i], svc);
      assert o == os[i];
      TalliesStep(os, i);
      match o {
        case Started(name, _) =>
          started := started + 1;
          executions := executions + [name];
        case Skipped =>
        case Errored(message) =>
          errors := errors + [message];
      }
      i := i + 1;
    }
    assert os[..i] == os;
    forall j | 0 <= j < |os| && os[j].Started?
      ensures CleanName(os[j].name)
    {
      StartedNameClean(j, records[j], svc);
    }
    StartedNamesClean(os);
    r := Summary(started, errors);
  }

  /** An event without records answers 200 with no executions and no errors. */
  lemma NoRecordsSucceed(svc: Services)
    ensures var r := Summary(StartedCount(Outcomes([], svc)), Errors(Outcomes([], svc)));
      r.statusCode == 200 && r.body.fields["executionsStarted"] == Num(0) && r.body.fields["errors"] == Null
  {
  }
}
