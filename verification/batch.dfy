/**
 The bulk training run: load the records, submit them one at a time in input
 order, count the successes, report progress every ten records and after the
 last one, then report the totals.
 */
module Batch {
  import opened Wrappers
  import opened Training
  import opened Loader

  /** Progress is reported after the k-th record (1-based) of n: every tenth record, and the last. */
  predicate ProgressDue(k: nat, n: nat) {
    k % 10 == 0 || k == n
  }

  /** The number of true entries of s. */
  function CountTrue(s: seq<bool>): (c: nat)
    ensures c <= |s|
  {
    if s == [] then 0 else (if s[0] then 1 else 0) + CountTrue(s[1..])
  }

  /** The count equals the length exactly when every entry is true, and is zero exactly when none is. */
  lemma {:induction false} CountTrueExtremes(s: seq<bool>)
    ensures CountTrue(s) == |s| <==> forall i :: 0 <= i < |s| ==> s[i]
    ensures CountTrue(s) == 0 <==> forall i :: 0 <= i < |s| ==> !s[i]
  {
    if s != [] {
      CountTrueExtremes(s[1..]);
      assert forall i :: 1 <= i < |s| ==> s[i] == s[1..][i - 1];
    }
  }

  lemma {:induction false} CountTrueAppend(s: seq<bool>, b: bool)
    ensures CountTrue(s + [b]) == CountTrue(s) + (if b then 1 else 0)
  {
    if s == [] {
      assert s + [b] == [b];
    } else {
      assert (s + [b])[1..] == s[1..] + [b];
      CountTrueAppend(s[1..], b);
    }
  }

  /** The request a single item gives rise to, if any. */
  function PostedOne(j: Json): seq<Payload> {
    var r := FieldsOf(j);
    if Truthy(r.question) then [Normalize(r)] else []
  }

  /** Reference definition: the payloads posted for a run over items, in input order. */
  function Posted(items: seq<Json>): seq<Payload> {
    if items == [] then [] else PostedOne(items[0]) + Posted(items[1..])
  }

  lemma {:induction false} PostedAppend(items: seq<Json>, j: Json)
    ensures Posted(items + [j]) == Posted(items) + PostedOne(j)
  {
    var x := items + [j];
    if items == [] {
      assert x[1..] == [];
      assert Posted(x) == PostedOne(j) + Posted([]);
    } else {
      assert x[0] == items[0];
      assert x[1..] == items[1..] + [j];
      PostedAppend(items[1..], j);
      calc {
        Posted(x);
        PostedOne(items[0]) + Posted(items[1..] + [j]);
        PostedOne(items[0]) + (Posted(items[1..]) + PostedOne(j));
        (PostedOne(items[0]) + Posted(items[1..])) + PostedOne(j);
      }
    }
  }

  /**
   The state of the loop after its first k iterations: the verdict of each
   submission, the success counter, the requests posted and the processed
   counts at which progress was reported.
   */
  datatype Tally = Tally(verdicts: seq<bool>, success: nat, requests: seq<Payload>, progress: seq<nat>)

  /** Strictly increasing. */
  predicate Increasing(s: seq<nat>) {
    forall a, b :: 0 <= a < b < |s| ==> s[a] < s[b]
  }

  /** The submission of item i, with the network answering reply(i). */
  function StepAt(items: seq<Json>, reply: nat -> Outcome, i: nat): Step
    requires i < |items|
  {
    TrainOne(FieldsOf(items[i]), reply(i))
  }

  /** The verdict of submitting item i. */
  function Verdict(items: seq<Json>, reply: nat -> Outcome, i: nat): bool
    requires i < |items|
  {
    StepAt(items, reply, i).success
  }

  /** The loop over items after k iterations; reply(i) is what the network answers for item i. */
  function Prefix(items: seq<Json>, reply: nat -> Outcome, k: nat): (t: Tally)
    requires k <= |items|
    ensures |t.verdicts| == k
    ensures t.success == CountTrue(t.verdicts) <= k
    ensures t.progress == ProgressPoints(k, |items|)
    decreases k
  {
    if k == 0 then Tally([], 0, [], [])
    else
      var t := Prefix(items, reply, k - 1);
      var step := StepAt(items, reply, k - 1);
      CountTrueAppend(t.verdicts, step.success);
      Tally(
        t.verdicts + [step.success],
        t.success + (if step.success then 1 else 0),
        t.requests + (if step.request.Some? then [step.request.value] else []),
        t.progress + (if ProgressDue(k, |items|) then [k] else []))
  }

  /** The requests posted are the normalised payloads of the valid records, in input order. */
  lemma {:induction false} RequestsArePosted(items: seq<Json>, reply: nat -> Outcome, k: nat)
    requires k <= |items|
    ensures Prefix(items, reply, k).requests == Posted(items[..k])
  {
    if k > 0 {
      RequestsArePosted(items, reply, k - 1);
      var step := StepAt(items, reply, k - 1);
      assert Prefix(items, reply, k).requests
          == Prefix(items, reply, k - 1).requests
             + (if step.request.Some? then [step.request.value] else []);
      assert items[..k] == items[..k - 1] + [items[k - 1]];
      PostedAppend(items[..k - 1], items[k - 1]);
    }
  }

  /** The submitter is invoked once per record, in input order: verdict i is that of item i. */
  lemma {:induction false} VerdictsInOrder(items: seq<Json>, reply: nat -> Outcome, k: nat)
    requires k <= |items|
    ensures forall i :: 0 <= i < k ==> Prefix(items, reply, k).verdicts[i] == Verdict(items, reply, i)
  {
    if k > 0 {
      VerdictsInOrder(items, reply, k - 1);
      var before := Prefix(items, reply, k - 1).verdicts;
      var after := Prefix(items, reply, k).verdicts;
      assert after == before + [StepAt(items, reply, k - 1).success];
      forall i | 0 <= i < k
        ensures after[i] == Verdict(items, reply, i)
      {
        if i < k - 1 {
          assert after[i] == before[i];
        }
      }
    }
  }

  /** The processed counts, among the first k of n, after which progress is reported. */
  function ProgressPoints(k: nat, n: nat): seq<nat> {
    if k == 0 then [] else ProgressPoints(k - 1, n) + (if ProgressDue(k, n) then [k] else [])
  }

  /** Progress is reported after exactly the due records, in increasing order. */
  lemma {:induction false} ProgressReported(k: nat, n: nat)
    ensures var p := ProgressPoints(k, n);
      && Increasing(p)
      && (forall j: nat :: j in p <==> 1 <= j <= k && ProgressDue(j, n))
  {
    if k > 0 {
      ProgressReported(k - 1, n);
      var before := ProgressPoints(k - 1, n);
      var p := ProgressPoints(k, n);
      forall j: nat
        ensures j in p <==> 1 <= j <= k && ProgressDue(j, n)
      {
        assert j in p <==> j in before || (j == k && ProgressDue(k, n));
      }
      assert forall a :: 0 <= a < |before| ==> before[a] in before;
    }
  }

  /** Before the last record one report per ten records; after it, ceil(n/10) reports. */
  lemma {:induction false} ProgressCount(k: nat, n: nat)
    requires k <= n
    ensures |ProgressPoints(k, n)| == if k == n then (k + 9) / 10 else k / 10
  {
    if k > 0 {
      ProgressCount(k - 1, n);
    }
  }

  /** The totals reported at the end of a run. */
  datatype Summary = Summary(succeeded: nat, failed: nat, total: nat)

  /**
   How a run ends: the load failed before any submission; every record was
   processed and the totals reported; or a record raised an error that
   aborted the run (only in RunAsWritten).
   */
  datatype RunResult =
    | LoadFailed(error: LoadError)
    | Completed(tally: Tally, summary: Summary)
    | Crashed(at: nat, tally: Tally)

  /** The whole run over the file that src describes. */
  function Run(src: Source, reply: nat -> Outcome): (r: RunResult)
    ensures r.LoadFailed? <==> LoadJsonFile(src).Failure?
    ensures r.LoadFailed? ==> r.error == LoadJsonFile(src).error
    ensures !r.Crashed?
    ensures r.Completed? ==>
      && r.summary.total == |src.value.items| == |r.tally.verdicts|
      && r.summary.succeeded == CountTrue(r.tally.verdicts)
      && r.summary.succeeded + r.summary.failed == r.summary.total
      && r.tally.requests == Posted(src.value.items)
  {
    match LoadJsonFile(src)
    case Failure(e) => LoadFailed(e)
    case Success(items) =>
      var t := Prefix(items, reply, |items|);
      assert items[..|items|] == items;
      RequestsArePosted(items, reply, |items|);
      Completed(t, Summary(t.success, |items| - t.success, |items|))
  }

  /** Every record is submitted exactly once, in input order, and counted as a success or a failure. */
  lemma EveryRecordCounted(src: Source, reply: nat -> Outcome)
    requires LoadJsonFile(src).Success?
    ensures var r := Run(src, reply); var items := src.value.items;
      && r.Completed?
      && |r.tally.verdicts| == |items|
      && (forall i :: 0 <= i < |items| ==> r.tally.verdicts[i] == Verdict(items, reply, i))
      && 0 <= r.summary.succeeded <= |items|
      && r.summary.succeeded + r.summary.failed == |items|
  {
    VerdictsInOrder(src.value.items, reply, |src.value.items|);
  }

  /** A run reports progress ceil(n/10) times, in increasing order, the last report being n/n. */
  lemma ProgressSchedule(src: Source, reply: nat -> Outcome)
    requires LoadJsonFile(src).Success?
    ensures var r := Run(src, reply); var n := |src.value.items|;
      && r.Completed?
      && |r.tally.progress| == (n + 9) / 10
      && Increasing(r.tally.progress)
      && (forall j: nat :: j in r.tally.progress <==> 1 <= j <= n && ProgressDue(j, n))
      && (n > 0 ==> r.tally.progress[|r.tally.progress| - 1] == n)
  {
    var items := src.value.items;
    ProgressCount(|items|, |items|);
    ProgressReported(|items|, |items|);
    var p := Run(src, reply).tally.progress;
    if |items| > 0 {
      assert |items| in p;
      var last := p[|p| - 1];
      assert last <= |items|;
    }
  }

  /** A record without a truthy question is never posted and always counts as a failure. */
  lemma InvalidRecordNotPosted(items: seq<Json>, reply: nat -> Outcome, i: nat)
    requires i < |items| && !Truthy(FieldsOf(items[i]).question)
    ensures !Verdict(items, reply, i)
    ensures TrainOne(FieldsOf(items[i]), reply(i)).request == None
  {
  }

  /** A load failure ends the run before any submission and without a summary. */
  lemma LoadFailureSubmitsNothing(src: Source, reply: nat -> Outcome)
    requires !(src.Parsed? && src.value.JArray?)
    ensures Run(src, reply).LoadFailed?
    ensures src.Parsed? ==> Run(src, reply) == LoadFailed(NotAnArray)
  {
  }

  /** The record `{"question": "Hi", "answer": "Hello"}`. */
  const Greeting: Record := Record(Some("Hi"), Some("Hello"), None, None, None, None, None, None, None)

  /** A reply that accepts every request. */
  function AlwaysCreated(i: nat): Outcome {
    Body(Some(JsNumber(CreatedStatus)))
  }

  /**
   A valid record and a record without a question, with the API accepting
   everything: one request, one success, one failure, one progress report at 2/2.
   */
  lemma {:induction false} GreetingThenNoQuestion()
    ensures var src := Parsed(JArray([JObject(Greeting),
                                      JObject(Record(None, Some("no question"), None, None, None, None, None, None, None))]));
      var r := Run(src, AlwaysCreated);
      && r.Completed?
      && r.summary == Summary(1, 1, 2)
      && r.tally.requests == [Normalize(Greeting)]
      && r.tally.progress == [2]
  {
    var items := [JObject(Greeting),
                  JObject(Record(None, Some("no question"), None, None, None, None, None, None, None))];
    var t1 := Prefix(items, AlwaysCreated, 1);
    assert t1.success == 1 && t1.requests == [Normalize(Greeting)] && t1.progress == [];
    var t2 := Prefix(items, AlwaysCreated, 2);
    assert t2.success == 1 && t2.requests == [Normalize(Greeting)] && t2.progress == [2];
  }

  /** The position of the first `null` element, whose fields the script cannot read. */
  function FirstNull(items: seq<Json>): (r: Option<nat>)
    ensures r.Some? ==> r.value < |items| && items[r.value] == JNull
    ensures r.Some? ==> forall i :: 0 <= i < r.value ==> items[i] != JNull
    ensures r.None? ==> forall i :: 0 <= i < |items| ==> items[i] != JNull
  {
    if items == [] then None
    else if FieldsAsWritten(items[0]).None? then Some(0)
    else
      match FirstNull(items[1..])
      case None => None
      case Some(i) => Some(i + 1)
  }

  /**
   The run as the script is written: reading `question` of a `null` element
   throws outside the submitter's error handling, so the whole run stops at
   that element, after the earlier ones were submitted and before any summary.
   */
  function RunAsWritten(src: Source, reply: nat -> Outcome): (r: RunResult)
    ensures r.LoadFailed? <==> LoadJsonFile(src).Failure?
    ensures r.Crashed? <==> src.Parsed? && src.value.JArray? && JNull in src.value.items
    ensures r.Crashed? ==>
      && r.at < |src.value.items| && src.value.items[r.at] == JNull
      && (forall i :: 0 <= i < r.at ==> src.value.items[i] != JNull)
      && r.tally == Prefix(src.value.items, reply, r.at)
    ensures !r.Crashed? ==> r == Run(src, reply)
  {
    match LoadJsonFile(src)
    case Failure(e) => LoadFailed(e)
    case Success(items) =>
      match FirstNull(items)
      case Some(i) => Crashed(i, Prefix(items, reply, i))
      case None => Run(src, reply)
  }

  /**
   The discrepancy: with a leading `null` element the script stops with no
   request and no summary, while the run that counts `null` as a record
   without a question submits the next record and reports 2 records.
   */
  lemma {:induction false} NullElementAbortsBatch(reply: nat -> Outcome)
    ensures var src := Parsed(JArray([JNull, JObject(Greeting)]));
      && RunAsWritten(src, reply) == Crashed(0, Tally([], 0, [], []))
      && Run(src, reply).Completed?
      && Run(src, reply).summary.total == 2
      && Run(src, reply).tally.requests == [Normalize(Greeting)]
  {
    var items := [JNull, JObject(Greeting)];
    assert items[0] == JNull;
    assert FirstNull(items) == Some(0);
    var t1 := Prefix(items, reply, 1);
    assert t1.requests == [];
    var t2 := Prefix(items, reply, 2);
    assert t2.requests == [Normalize(Greeting)];
  }

  /** Counting a `null` element as a record without a question keeps every run complete. */
  lemma NullCountsAsInvalid(items: seq<Json>, reply: nat -> Outcome, i: nat)
    requires i < |items| && items[i] == JNull
    ensures !Verdict(items, reply, i)
    ensures TrainOne(FieldsOf(items[i]), reply(i)).request == None
    ensures FieldsAsWritten(items[i]) == None
  {
  }

  /**
   The submission loop of the bulk run: one submission per item in order,
   counting successes and noting the due progress reports.
   */
  method SubmitAll(items: seq<Json>, reply: nat -> Outcome) returns (t: Tally)
    ensures t == Prefix(items, reply, |items|)
  {
    var total := |items|;
    var successCount: nat := 0;
    var verdicts: seq<bool> := [];
    var requests: seq<Payload> := [];
    var progress: seq<nat> := [];
    var index := 0;
    while index < total
      invariant 0 <= index <= total
      invariant verdicts == Prefix(items, reply, index).verdicts
      invariant successCount == Prefix(items, reply, index).success
      invariant requests == Prefix(items, reply, index).requests
      invariant progress == Prefix(items, reply, index).progress
    {
      ghost var after := Prefix(items, reply, index + 1);
      var step := TrainOne(FieldsOf(items[index]), reply(index));
      assert after.verdicts == verdicts + [step.success];
      assert after.success == successCount + (if step.success then 1 else 0);
      assert after.requests == requests + (if step.request.Some? then [step.request.value] else []);
      assert after.progress == progress + (if ProgressDue(index + 1, total) then [index + 1] else []);
      if step.success {
        successCount := successCount + 1;
      }
      verdicts := verdicts + [step.success];
      if step.request.Some? {
        requests := requests + [step.request.value];
      }
      if (index + 1) % 10 == 0 || index + 1 == total {
        progress := progress + [index + 1];
      }
      index := index + 1;
    }
    t := Tally(verdicts, successCount, requests, progress);
  }

  /**
   The bulk run: load, submit every record, report the totals; in the
   corrected reading, where a `null` element counts as a record without a
   question (the script as written stops there, see RunAsWritten).
   */
  method BulkTrain(src: Source, reply: nat -> Outcome) returns (r: RunResult)
    ensures r == Run(src, reply)
    ensures r.Completed? ==> r.summary.succeeded + r.summary.failed == r.summary.total
  {
    var loaded := LoadJsonFile(src);
    if loaded.Failure? {
      return LoadFailed(loaded.error);
    }
    var items := loaded.value;
    var t := SubmitAll(items, reply);
    r := Completed(t, Summary(t.success, |items| - t.success, |items|));
  }
}
