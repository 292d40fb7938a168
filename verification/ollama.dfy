/**
 The reply handling of improve_with_ollama.py: cutting a JSON candidate
 out of the local model's output (code fences, then the brace span),
 unwrapping a list, deciding whether the parsed classification is kept,
 and the truncated tactic/technique shown for a kept one. The subprocess
 and `json.loads` are parameters.
 */
module Ollama {
  import opened Wrappers
  import opened Text
  import opened JsonValue
  import opened Localize

  /* ------------------------------------------------------ code fences */

  const JsonFence := "```json"
  const Fence := "```"

  /**
   The fenced part of the (already stripped) output: after the first
   "```json" up to the next "```" when there is a "```json"; otherwise
   between the first two "```" when there is a "```"; otherwise all of it.
   */
  function FenceCandidate(t: string): (r: string)
    ensures |r| <= |t|
    ensures Contains(t, Fence) ==> Trimmed(r)
    ensures !Contains(t, JsonFence) && !Contains(t, Fence) ==> r == t
  {
    if Contains(t, JsonFence) then Fenced(t, JsonFence, Fence)
    else if Contains(t, Fence) then Fenced(t, Fence, Fence)
    else t
  }

  /** `t.split(open)[1].split(close)[0].strip()` when `open` occurs in `t`. */
  function Fenced(t: string, open: string, close: string): string
    requires |open| > 0 && |close| > 0 && Contains(t, open)
  {
    Strip(UpTo(UpTo(SplitOnce(t, open).1, open), close))
  }

  /** `FenceCandidate` is the script's chain of `split` calls. */
  lemma FenceCandidateIsSplit(t: string)
    ensures Contains(t, JsonFence) ==>
              |Split(t, JsonFence)| >= 2 &&
              FenceCandidate(t) == Strip(Split(Split(t, JsonFence)[1], Fence)[0])
    ensures !Contains(t, JsonFence) && Contains(t, Fence) ==>
              |Split(t, Fence)| >= 2 &&
              FenceCandidate(t) == Strip(Split(Split(t, Fence)[1], Fence)[0])
  {
    if Contains(t, JsonFence) {
      SplitSecond(t, JsonFence);
      SplitHead(Split(t, JsonFence)[1], Fence);
    } else if Contains(t, Fence) {
      SplitSecond(t, Fence);
      SplitHead(Split(t, Fence)[1], Fence);
    }
  }

  /**
   `UpTo(UpTo(after, open), close)` where `after` follows the first
   `open` of `t`: the text `m` up to the next `close` or the end of `t` (a
   further `open` also ends it, and it starts with `close`).
   */
  lemma FencedPart(t: string, open: string, close: string) returns (p: string, m: string, q: string)
    requires |open| > 0 && |close| > 0 && StartsWith(open, close) && Contains(t, open)
    ensures t == p + open + m + q && |p| == Find(t, open)
    ensures !Contains(m, close) && (q == "" || StartsWith(q, close))
    ensures Fenced(t, open, close) == Strip(m)
  {
    var after := SplitOnce(t, open).1;
    p := SplitOnce(t, open).0;
    m, q := FenceBody(after, open, close);
    Regroup(t, p, open, after, m, q);
  }

  /** The body up to the next `close` (or the next `open`, which starts with `close`), and what follows. */
  lemma FenceBody(after: string, open: string, close: string) returns (m: string, q: string)
    requires |open| > 0 && |close| > 0 && StartsWith(open, close)
    ensures after == m + q && m == UpTo(UpTo(after, open), close)
    ensures !Contains(m, close) && (q == "" || StartsWith(q, close))
  {
    var piece := UpTo(after, open);
    var q0 := AfterHead(after, open);
    m := UpTo(piece, close);
    var q1 := AfterHead(piece, close);
    q := q1 + q0;
    if q1 != "" {
      StartsWithExtend(q1, q0, close);
    } else if q0 != "" {
      StartsWithTransitive(q0, open, close);
    }
    Reassociate(after, piece, q0, m, q1);
  }

  /**
   `c` is the stripped text `m` between the first `open` of `t` and the
   next `close` (or the end of `t`).
   */
  ghost predicate FencedAs(t: string, open: string, close: string, c: string) {
    exists p, m, q ::
      t == p + open + m + q && |p| == Find(t, open) &&
      !Contains(m, close) && (q == "" || StartsWith(q, close)) && c == Strip(m)
  }

  lemma Witness(t: string, open: string, close: string, p0: string, m0: string, q0: string, c: string)
    requires t == p0 + open + m0 + q0 && |p0| == Find(t, open)
    requires !Contains(m0, close) && (q0 == "" || StartsWith(q0, close)) && c == Strip(m0)
    ensures FencedAs(t, open, close, c)
  {
    var p, m, q := p0, m0, q0;
    var closes := StartsWith(q, close);
    assert t == p + open + m + q && |p| == Find(t, open) &&
           !Contains(m, close) && (q == "" || closes) && c == Strip(m);
  }

  lemma Reassociate(after: string, piece: string, q0: string, m: string, q1: string)
    requires after == piece + q0 && piece == m + q1
    ensures after == m + (q1 + q0)
  {
  }

  lemma Regroup(t: string, p: string, open: string, after: string, m: string, q: string)
    requires t == p + open + after && after == m + q
    ensures t == p + open + m + q
  {
  }

  lemma JsonFenceOpensWithFence()
    ensures StartsWith(JsonFence, Fence)
  {
    assert JsonFence[..3] == Fence;
  }

  lemma StartsWithSelf(s: string)
    ensures StartsWith(s, s)
  {
    assert s[..|s|] == s;
  }

  /** Output containing "```json" is cut after its first "```json", up to the next fence. */
  lemma FenceCandidateJson(t: string)
    requires Contains(t, JsonFence)
    ensures FencedAs(t, JsonFence, Fence, FenceCandidate(t))
  {
    JsonFenceOpensWithFence();
    var p, m, q := FencedPart(t, JsonFence, Fence);
    assert FenceCandidate(t) == Fenced(t, JsonFence, Fence);
    Witness(t, JsonFence, Fence, p, m, q, FenceCandidate(t));
  }

  /** Output with a plain "```" but no "```json" is cut between its first two fences. */
  lemma FenceCandidatePlain(t: string)
    requires !Contains(t, JsonFence) && Contains(t, Fence)
    ensures FencedAs(t, Fence, Fence, FenceCandidate(t))
  {
    StartsWithSelf(Fence);
    var p, m, q := FencedPart(t, Fence, Fence);
    assert FenceCandidate(t) == Fenced(t, Fence, Fence);
    Witness(t, Fence, Fence, p, m, q, FenceCandidate(t));
  }

  /** Output without any fence is left as it is. */
  lemma FenceCandidateUnfenced(t: string)
    requires !Contains(t, Fence)
    ensures FenceCandidate(t) == t
  {
    if Contains(t, JsonFence) {
      var i :| 0 <= i <= |t| - |JsonFence| && IsAt(t, JsonFence, i);
      assert t[i..i + 3] == t[i..i + 7][..3];
      assert IsAt(t, Fence, i);
    }
  }

  /** The text handed to `json.loads`: the fenced part of the stripped output, narrowed to its brace span. */
  function Candidate(output: string): (r: string)
    ensures BraceSpan(FenceCandidate(Strip(output))).Some? ==>
              r == BraceSpan(FenceCandidate(Strip(output))).value && StartsWith(r, "{") && EndsWith(r, "}")
    ensures BraceSpan(FenceCandidate(Strip(output))).None? ==> r == FenceCandidate(Strip(output))
  {
    var c := FenceCandidate(Strip(output));
    BraceSpan(c).GetOr(c)
  }

  /** The fenced part of "```json{...}```" is the object, when the object holds no backtick. */
  lemma FencedObjectPart(obj: string)
    requires |obj| > 0 && obj[0] == '{' && obj[|obj| - 1] == '}'
    requires forall i :: 0 <= i < |obj| ==> obj[i] != '`'
    ensures Strip(JsonFence + obj + Fence) == JsonFence + obj + Fence
    ensures FenceCandidate(JsonFence + obj + Fence) == obj
  {
    var out := JsonFence + obj + Fence;
    StripTrimmed(out);
    assert out[..|JsonFence|] == JsonFence;
    SplitOnceAtStart(out, JsonFence);
    assert out[|JsonFence|..] == obj + Fence;
    AbsentPast(obj, Fence, JsonFence);
    UpToBeforeFirst(obj, Fence, "");
    assert obj + Fence + "" == obj + Fence;
    StripTrimmed(obj);
  }

  lemma CandidateOfFencedObject(obj: string)
    requires |obj| > 0 && obj[0] == '{' && obj[|obj| - 1] == '}'
    requires forall i :: 0 <= i < |obj| ==> obj[i] != '`'
    requires BraceSpan(obj) == Some(obj)
    ensures Candidate(JsonFence + obj + Fence) == obj
  {
    FencedObjectPart(obj);
  }

  lemma BracesAddNoBacktick(inner: string)
    requires forall i :: 0 <= i < |inner| ==> inner[i] != '`'
    ensures forall i :: 0 <= i < |"{" + inner + "}"| ==> ("{" + inner + "}")[i] != '`'
  {
    var obj := "{" + inner + "}";
    forall i | 0 <= i < |obj| ensures obj[i] != '`' {
      if 0 < i < |obj| - 1 { assert obj[i] == inner[i - 1]; }
    }
  }

  lemma WholeObjectSpan(inner: string)
    ensures BraceSpan("{" + inner + "}") == Some("{" + inner + "}")
  {
    BraceSpanOf("", inner, "");
    assert "" + "{" + inner + "}" + "" == "{" + inner + "}";
  }

  /** A single fenced object comes out exactly as written. */
  lemma FencedObjectCandidate(inner: string)
    requires forall i :: 0 <= i < |inner| ==> inner[i] != '`'
    ensures Candidate(JsonFence + ("{" + inner + "}") + Fence) == "{" + inner + "}"
  {
    BracesAddNoBacktick(inner);
    WholeObjectSpan(inner);
    CandidateOfFencedObject("{" + inner + "}");
  }

  /* ------------------------------------------------- reading the reply */

  /**
   What `classify_with_ollama` returns. `output` is the subprocess's
   stdout, `None` when it exited non-zero or timed out; `parse` is
   `json.loads` (`None` for a decoding error). A list is replaced by its
   first element; an empty list raises `IndexError`, which is caught.
   */
  function ReadReply(output: Option<string>, parse: string -> Option<Json>): (r: Option<Json>)
    ensures output.None? ==> r.None?
    ensures output.Some? && parse(Candidate(output.value)).None? ==> r.None?
    ensures output.Some? && parse(Candidate(output.value)).Some? && !parse(Candidate(output.value)).value.Arr? ==>
              r == parse(Candidate(output.value))
    ensures output.Some? && parse(Candidate(output.value)).Some? && parse(Candidate(output.value)).value.Arr? ==>
              var xs := parse(Candidate(output.value)).value.items;
              r == if |xs| > 0 then Some(xs[0]) else None
  {
    match output
    case None => None
    case Some(out) =>
      match parse(Candidate(out))
      case None => None
      case Some(Arr(xs)) => if |xs| > 0 then Some(xs[0]) else None
      case Some(j) => Some(j)
  }

  /** A fenced JSON object reply reads back as that object. */
  lemma FencedObjectReply(inner: string, parse: string -> Option<Json>)
    requires forall i :: 0 <= i < |inner| ==> inner[i] != '`'
    requires parse("{" + inner + "}").Some? && parse("{" + inner + "}").value.Obj?
    ensures ReadReply(Some(JsonFence + ("{" + inner + "}") + Fence), parse) == parse("{" + inner + "}")
  {
    FencedObjectCandidate(inner);
  }

  /* ------------------------------------------ accepting a classification */

  /** What one correlation ends with. `Crashed` carries what was already saved to answers.json. */
  datatype RunResult =
    | Failed
    | Improved(saved: Json, tactic: Json, technique: Json)
    | Crashed(written: Option<Json>)

  /**
   `v[:n]` on a JSON value: strings and lists are sliced; anything else
   raises `TypeError` (`None`).
   */
  function Slice(v: Json, n: nat): (r: Option<Json>)
    ensures r.Some? <==> v.Str? || v.Arr?
    ensures v.Str? ==> r == Some(Str(Take(v.s, n)))
    ensures v.Arr? ==> r.value.Arr? && |r.value.items| <= n && r.value.items <= v.items
    ensures v.Arr? ==> |r.value.items| == if |v.items| <= n then |v.items| else n
  {
    match v
    case Str(s) => Some(Str(Take(s, n)))
    case Arr(xs) => Some(Arr(if |xs| <= n then xs else xs[..n]))
    case _ => None
  }

  /**
   The acceptance test and display, as written: the classification is
   kept when it is truthy and `'tactic' in c and 'technique' in c`; it is
   then saved, and its two fields are read with `.get` and sliced to 30
   and 40. `in` accepts strings and lists too, and `.get` and the slices
   fail for them and for non-string fields; those failures are not caught.
   */
  function Review(c: Option<Json>): (r: RunResult)
    ensures r.Failed? <==>
              c.None? || !Truthy(c.value) || In("tactic", c.value) == Some(false) ||
              (In("tactic", c.value) == Some(true) && In("technique", c.value) == Some(false))
    ensures r.Improved? <==>
              c.Some? && Truthy(c.value) && c.value.Obj? &&
              "tactic" in c.value.fields && "technique" in c.value.fields &&
              Slice(c.value.fields["tactic"], 30).Some? && Slice(c.value.fields["technique"], 40).Some?
    ensures r.Improved? ==>
              (c == Some(r.saved) && r.saved.Obj? && "tactic" in r.saved.fields && "technique" in r.saved.fields)
    ensures r.Improved? ==>
              Some(r.tactic) == Slice(r.saved.fields["tactic"], 30) &&
              Some(r.technique) == Slice(r.saved.fields["technique"], 40)
    ensures r == Crashed(None) <==> c.Some? && Truthy(c.value) && In("tactic", c.value).None?
    ensures r.Crashed? && r.written.Some? <==>
              c.Some? && Truthy(c.value) &&
              In("tactic", c.value) == Some(true) && In("technique", c.value) == Some(true) &&
              !(c.value.Obj? &&
                Slice(c.value.fields["tactic"], 30).Some? && Slice(c.value.fields["technique"], 40).Some?)
    ensures r.Crashed? && r.written.Some? ==> c == r.written
  {
    if c.None? || !Truthy(c.value) then Failed
    else
      var v := c.value;
      match In("tactic", v)
      case None => Crashed(None)
      case Some(false) => Failed
      case Some(true) =>
        match In("technique", v)
        case None => Crashed(None)
        case Some(false) => Failed
        case Some(true) =>
          if !v.Obj? then Crashed(Some(v))
          else
            match (Slice(v.fields["tactic"], 30), Slice(v.fields["technique"], 40))
            case (Some(a), Some(b)) => Improved(v, a, b)
            case _ => Crashed(Some(v))
  }

  /** A JSON string mentioning both words is accepted, saved, and then `.get` fails on it. */
  lemma ReviewCrashesOnString()
    ensures Review(Some(Str("tactic technique"))) == Crashed(Some(Str("tactic technique")))
  {
    var s := "tactic technique";
    assert s[0..6] == "tactic";
    assert IsAt(s, "tactic", 0);
    assert s[7..16] == "technique";
    assert IsAt(s, "technique", 7);
  }

  /** An object whose tactic is `null` is accepted, saved, and then slicing `None` fails. */
  lemma ReviewCrashesOnNullTactic()
    ensures var c := Obj(map["tactic" := Null, "technique" := Str("PowerShell")]);
            Review(Some(c)) == Crashed(Some(c))
  {
    var c := Obj(map["tactic" := Null, "technique" := Str("PowerShell")]);
    ObjectWithKeyIsTruthy(c, "tactic");
  }

  /**
   The acceptance test as evidently intended: keep only an object whose
   tactic and technique are strings, and show them cut to 30 and 40
   characters. It never fails with an uncaught error.
   */
  function ReviewChecked(c: Option<Json>): (r: RunResult)
    ensures !r.Crashed?
    ensures r.Improved? <==> c.Some? && IsStringObject(c.value, {"tactic", "technique"})
    ensures r.Improved? ==> c == Some(r.saved)
    ensures r.Improved? ==> r.tactic.Str? && |r.tactic.s| <= 30 && StartsWith(r.saved.fields["tactic"].s, r.tactic.s)
    ensures r.Improved? ==>
              (r.technique.Str? && |r.technique.s| <= 40 && StartsWith(r.saved.fields["technique"].s, r.technique.s))
    ensures r.Improved? ==>
              r.tactic == Str(Take(r.saved.fields["tactic"].s, 30)) &&
              r.technique == Str(Take(r.saved.fields["technique"].s, 40))
  {
    if c.Some? && IsStringObject(c.value, {"tactic", "technique"}) then
      var m := c.value.fields;
      Improved(c.value, Str(Take(m["tactic"].s, 30)), Str(Take(m["technique"].s, 40)))
    else Failed
  }

  /** On a well-formed classification the corrected test behaves exactly like the original. */
  lemma ReviewCheckedAgrees(c: Option<Json>)
    requires c.Some? && IsStringObject(c.value, {"tactic", "technique"})
    ensures Review(c) == ReviewChecked(c)
  {
    ObjectWithKeyIsTruthy(c.value, "tactic");
    ObjectWithKeyIsTruthy(c.value, "technique");
  }

  /** Where the original saves and shows a result without failing, the corrected test agrees. */
  lemma ReviewCheckedKeepsStringResults(c: Option<Json>)
    requires Review(c).Improved? && Review(c).tactic.Str? && Review(c).technique.Str?
    ensures ReviewChecked(c) == Review(c)
  {
    var v := c.value;
    assert v.fields["tactic"].Str? && v.fields["technique"].Str?;
    ReviewCheckedAgrees(c);
  }

  /* ------------------------------------------------ the correlation loop */

  /**
   One correlation directory. `Run`: whether it has any events, and the
   classification `classify_with_ollama` returned for it (`ReadReply`).
   `Raised`: reading its events raised before any classification, outside
   every `try` — an events file that is not JSON (`json.load` in
   `load_events`), or an `Event` or `System` block that is not an object
   (the `.get` calls that build the event summary).
   */
  datatype Run =
    | Run(hasEvents: bool, reply: Option<Json>)
    | Raised

  /**
   The answers saved over a sequence of correlations with the corrected
   test, in order: at most one per correlation, each an object whose
   tactic and technique are strings. A correlation whose events raise ends
   the run, so nothing after it is saved.
   */
  function Saved(runs: seq<Run>): (r: seq<Json>)
    ensures |r| <= |runs|
    ensures forall a :: a in r ==> IsStringObject(a, {"tactic", "technique"})
  {
    if |runs| == 0 then []
    else
      var last := runs[|runs| - 1];
      var before := Saved(runs[..|runs| - 1]);
      if Raised in runs[..|runs| - 1] || last.Raised? || !last.hasEvents then before
      else
        match ReviewChecked(last.reply)
        case Improved(v, _, _) => before + [v]
        case _ => before
  }

  /** Once a correlation has raised, later correlations save nothing. */
  lemma {:induction false} RaisedEndsSaving(done: seq<Run>, rest: seq<Run>)
    requires Raised in done
    ensures Saved(done + rest) == Saved(done)
    decreases |rest|
  {
    if |rest| == 0 {
      assert done + rest == done;
    } else {
      var n := |rest| - 1;
      assert (done + rest)[..|done| + n] == done + rest[..n];
      RaisedEndsSaving(done, rest[..n]);
    }
  }

  /**
   `process_all_correlations` with the corrected acceptance test: the
   answers it saves, one per improved correlation, and whether it reached
   the end without a correlation raising.
   */
  method ProcessAll(runs: seq<Run>) returns (saved: seq<Json>, completed: bool)
    ensures saved == Saved(runs)
    ensures completed <==> Raised !in runs
    ensures |saved| <= |runs|
    ensures forall a :: a in saved ==> IsStringObject(a, {"tactic", "technique"})
  {
    saved, completed := [], true;
    var k := 0;
    while k < |runs| && completed
      invariant 0 <= k <= |runs|
      invariant saved == Saved(runs[..k])
      invariant completed <==> Raised !in runs[..k]
      invariant |saved| <= k
      invariant forall a :: a in saved ==> IsStringObject(a, {"tactic", "technique"})
    {
      var run := runs[k];
      assert runs[..k + 1] == runs[..k] + [run];
      SavedNext(runs[..k], run);
      if run.Raised? {
        completed := false;
      } else if run.hasEvents {
        var review := ReviewChecked(run.reply);
        if review.Improved? {
          saved := saved + [review.saved];
        }
      }
      k := k + 1;
    }
    if completed {
      assert runs[..k] == runs;
    } else {
      assert runs == runs[..k] + runs[k..];
      RaisedEndsSaving(runs[..k], runs[k..]);
    }
  }

  /* ----------------------------------------- the correlation loop as written */

  /**
   What `process_all_correlations` leaves behind: the answers written, in
   order, the `improved` counter, and whether an uncaught error ended the run.
   */
  datatype Batch = Batch(written: seq<Json>, improved: nat, crashed: bool)

  /**
   What the loop's test and display make of each correlation: `None` for
   one without events, and a crash with nothing written for one whose
   events raised.
   */
  function Reviews(runs: seq<Run>): (rs: seq<Option<RunResult>>)
    ensures |rs| == |runs|
  {
    if |runs| == 0 then []
    else
      Reviews(runs[..|runs| - 1]) + [Reviewed(runs[|runs| - 1])]
  }

  /** One correlation's reviewed result. */
  function Reviewed(run: Run): (r: Option<RunResult>)
    ensures r.None? <==> run.Run? && !run.hasEvents
    ensures run.Raised? ==> r == Some(Crashed(None))
    ensures run.Run? && run.hasEvents ==> r == Some(Review(run.reply))
  {
    match run
    case Raised => Some(Crashed(None))
    case Run(hasEvents, reply) => if hasEvents then Some(Review(reply)) else None
  }

  /**
   The loop as written (improve_with_ollama.py:114-137) over the reviewed
   correlations: a kept classification is written and counted, and the
   first failure after the test has passed ends the whole run, with that
   classification already written when the failure came after `json.dump`.
   Each answer written without a failure is counted.
   */
  function Play(rs: seq<Option<RunResult>>): (b: Batch)
    ensures b.improved <= |b.written| <= |rs|
    ensures !b.crashed ==> b.improved == |b.written|
  {
    if |rs| == 0 then Batch([], 0, false)
    else
      var before := Play(rs[..|rs| - 1]);
      var r := rs[|rs| - 1];
      if before.crashed || r.None? then before else Advance(before, r.value)
  }

  /** A reviewed classification: written and counted, skipped, or written (when it was) and the run ended. */
  function Advance(b: Batch, review: RunResult): (r: Batch)
    ensures review.Failed? ==> r == b
    ensures review.Improved? ==> r == Batch(b.written + [review.saved], b.improved + 1, false)
    ensures review.Crashed? ==> r.crashed && r.improved == b.improved
    ensures review.Crashed? ==> r.written == b.written + (if review.written.Some? then [review.written.value] else [])
  {
    match review
    case Failed => b
    case Improved(v, _, _) => Batch(b.written + [v], b.improved + 1, false)
    case Crashed(w) => Batch(b.written + (if w.Some? then [w.value] else []), b.improved, true)
  }

  /** `process_all_correlations` as written, over a sequence of correlations. */
  function AsWritten(runs: seq<Run>): (b: Batch)
    ensures b.improved <= |b.written| <= |runs|
    ensures !b.crashed ==> b.improved == |b.written|
  {
    Play(Reviews(runs))
  }

  /** Once the run has ended with an uncaught error, later correlations change nothing. */
  lemma {:induction false} CrashEndsRun(done: seq<Option<RunResult>>, rest: seq<Option<RunResult>>)
    requires Play(done).crashed
    ensures Play(done + rest) == Play(done)
    decreases |rest|
  {
    if |rest| == 0 {
      assert done + rest == done;
    } else {
      var n := |rest| - 1;
      assert (done + rest)[..|done| + n] == done + rest[..n];
      CrashEndsRun(done, rest[..n]);
    }
  }

  /** The reviews of a prefix of the correlations are a prefix of the reviews. */
  lemma {:induction false} ReviewsPrefix(runs: seq<Run>, k: nat)
    requires k <= |runs|
    ensures Reviews(runs)[..k] == Reviews(runs[..k])
    decreases |runs|
  {
    if k < |runs| {
      var n := |runs| - 1;
      assert runs[..n][..k] == runs[..k];
      ReviewsPrefix(runs[..n], k);
      assert Reviews(runs)[..n] == Reviews(runs[..n]);
    } else {
      assert runs[..k] == runs;
    }
  }

  /**
   One more correlation: skipped after a failure or without events, the
   run ended with nothing more written when its events raise, and
   otherwise reviewed.
   */
  lemma AsWrittenNext(runs: seq<Run>, run: Run)
    ensures var before := AsWritten(runs);
            AsWritten(runs + [run]) ==
              if before.crashed then before
              else if run.Raised? then Batch(before.written, before.improved, true)
              else if !run.hasEvents then before
              else Advance(before, Review(run.reply))
  {
    assert (runs + [run])[..|runs|] == runs;
    var rs := Reviews(runs);
    var x := Reviewed(run);
    assert Reviews(runs + [run]) == rs + [x];
    assert (rs + [x])[..|rs|] == rs;
  }

  /** `process_all_correlations` as written: the loop, left at the first uncaught error. */
  method ProcessAllAsWritten(runs: seq<Run>)
    returns (written: seq<Json>, improved: nat, crashed: bool)
    ensures Batch(written, improved, crashed) == AsWritten(runs)
    ensures !crashed ==> improved == |written|
  {
    ghost var rs := Reviews(runs);
    written, improved, crashed := [], 0, false;
    var k := 0;
    while k < |runs| && !crashed
      invariant 0 <= k <= |runs|
      invariant Batch(written, improved, crashed) == Play(rs[..k])
    {
      ReviewsPrefix(runs, k + 1);
      assert rs[..k + 1][..k] == rs[..k];
      var run := runs[k];
      assert rs[k] == Reviewed(run);
      if run.Raised? {
        crashed := true;
      } else if run.hasEvents {
        var review := Review(run.reply);
        match review
        case Failed =>
        case Improved(v, _, _) =>
          written, improved := written + [v], improved + 1;
        case Crashed(w) =>
          if w.Some? {
            written := written + [w.value];
          }
          crashed := true;
      }
      k := k + 1;
    }
    if crashed {
      assert rs == rs[..k] + rs[k..];
      CrashEndsRun(rs[..k], rs[k..]);
    } else {
      assert rs[..k] == rs;
    }
  }

  /** A reply that is missing or an object whose tactic and technique are strings. */
  predicate WellFormed(c: Option<Json>) {
    c.None? || IsStringObject(c.value, {"tactic", "technique"})
  }

  /** On a well-formed reply the two tests give the same result. */
  lemma WellFormedAgrees(c: Option<Json>)
    requires WellFormed(c)
    ensures Review(c) == ReviewChecked(c)
  {
    if c.Some? {
      ReviewCheckedAgrees(c);
    }
  }

  /**
   When every reply read is well-formed, the loop as written and the
   corrected loop save the same answers and count each of them, and the
   loop as written fails exactly when some correlation's events raise.
   */
  lemma {:induction false} AsWrittenAgrees(runs: seq<Run>)
    requires forall k :: 0 <= k < |runs| && runs[k].Run? && runs[k].hasEvents ==> WellFormed(runs[k].reply)
    ensures AsWritten(runs) == Batch(Saved(runs), |Saved(runs)|, Raised in runs)
  {
    if |runs| > 0 {
      var n := |runs| - 1;
      var last := runs[n];
      assert forall k :: 0 <= k < n ==> runs[..n][k] == runs[k];
      AsWrittenAgrees(runs[..n]);
      assert runs[..n] + [last] == runs;
      assert Raised in runs <==> Raised in runs[..n] || last.Raised?;
      AsWrittenNext(runs[..n], last);
      SavedNext(runs[..n], last);
      if last.Run? && last.hasEvents {
        WellFormedAgrees(last.reply);
      }
    }
  }

  /** Only classifications that passed the test as written are written. */
  lemma {:induction false} AsWrittenPassedTest(runs: seq<Run>)
    ensures forall a :: a in AsWritten(runs).written ==> PassesTest(a)
  {
    if |runs| > 0 {
      var n := |runs| - 1;
      AsWrittenPassedTest(runs[..n]);
      assert runs[..n] + [runs[n]] == runs;
      AsWrittenNext(runs[..n], runs[n]);
      var before := AsWritten(runs[..n]);
      if !before.crashed && runs[n].Run? && runs[n].hasEvents {
        var c := runs[n].reply;
        var r := Review(c);
        assert r.Improved? ==> PassesTest(r.saved);
        assert r.Crashed? && r.written.Some? ==> PassesTest(r.written.value);
      }
    }
  }

  /** `classification and 'tactic' in classification and 'technique' in classification` held. */
  predicate PassesTest(a: Json) {
    Truthy(a) && In("tactic", a) == Some(true) && In("technique", a) == Some(true)
  }

  /** The classification with a list as its tactic, which the test as written keeps. */
  const ListTactic := Obj(map["tactic" := Arr([Str("x")]), "technique" := Str("y")])

  /** The test as written keeps a list-valued tactic; the corrected one refuses it. */
  lemma ReviewKeepsListTactic()
    ensures Review(Some(ListTactic)).Improved? && Review(Some(ListTactic)).saved == ListTactic
    ensures ReviewChecked(Some(ListTactic)) == Failed
  {
    ObjectWithKeyIsTruthy(ListTactic, "tactic");
  }

  /** As written, a list-valued tactic is saved and counted; the corrected loop does not save it. */
  lemma ListTacticSaved()
    ensures AsWritten([Run(true, Some(ListTactic))]) == Batch([ListTactic], 1, false)
    ensures Saved([Run(true, Some(ListTactic))]) == []
  {
    var run := Run(true, Some(ListTactic));
    assert [] + [run] == [run];
    AsWrittenNext([], run);
    SavedNext([], run);
    ReviewKeepsListTactic();
  }

  /**
   As written, a classification that is the string "tactic technique" is
   written and then ends the run: a well-formed classification after it is
   never reached, while the corrected loop saves that one.
   */
  lemma StringReplyEndsRun(good: Json)
    requires IsStringObject(good, {"tactic", "technique"})
    ensures AsWritten([Run(true, Some(Str("tactic technique"))), Run(true, Some(good))]) ==
              Batch([Str("tactic technique")], 0, true)
    ensures Saved([Run(true, Some(Str("tactic technique"))), Run(true, Some(good))]) == [good]
  {
    var r1, r2 := Run(true, Some(Str("tactic technique"))), Run(true, Some(good));
    assert [] + [r1] == [r1];
    assert [r1] + [r2] == [r1, r2];
    AsWrittenNext([], r1);
    ReviewCrashesOnString();
    AsWrittenNext([r1], r2);
    SavedNext([], r1);
    SavedNext([r1], r2);
  }

  /**
   One more correlation adds its answer exactly when no correlation has
   raised, it has events, and the corrected test keeps it.
   */
  lemma SavedNext(runs: seq<Run>, run: Run)
    ensures Saved(runs + [run]) ==
              Saved(runs) +
                if Raised in runs || run.Raised? || !run.hasEvents || !ReviewChecked(run.reply).Improved? then []
                else [ReviewChecked(run.reply).saved]
  {
    assert (runs + [run])[..|runs|] == runs;
  }

  /**
   A correlation whose events raise ends the run in both loops: a
   well-formed classification after it is neither written nor saved.
   */
  lemma RaisedEndsRun(good: Json)
    requires IsStringObject(good, {"tactic", "technique"})
    ensures AsWritten([Raised, Run(true, Some(good))]) == Batch([], 0, true)
    ensures Saved([Raised, Run(true, Some(good))]) == []
  {
    var r2 := Run(true, Some(good));
    assert [] + [Raised] == [Raised];
    assert [Raised] + [r2] == [Raised, r2];
    AsWrittenNext([], Raised);
    AsWrittenNext([Raised], r2);
    SavedNext([], Raised);
    SavedNext([Raised], r2);
  }
}
