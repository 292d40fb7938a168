/**
 The pure parts of classify_and_localize.py: pulling a JSON object out of
 a language-model reply (with its fall-back classification), cleaning
 Markdown fences off a generated YAML file, the per-event summary of the
 relevant normalised fields, and choosing which `norm_fields_<i>_<j>.json`
 group a correlation is classified from. The model calls themselves,
 `json.loads` and the file system are parameters.
 */
module Localize {
  import opened Wrappers
  import opened Text
  import opened Ordering
  import opened JsonValue
  import opened Heuristics

  /* ------------------------------------------------------- the JSON span */

  /**
   The text from the first `{` through the last `}` of `s`, present only
   when there is a `{` and the last `}` comes after it.
   */
  function BraceSpan(s: string): (r: Option<string>)
    ensures r.Some? <==> exists i, j :: i < j && IsAt(s, "{", i) && IsAt(s, "}", j)
    ensures r.Some? ==> StartsWith(r.value, "{") && EndsWith(r.value, "}")
    ensures r.Some? ==> exists x, y :: s == x + r.value + y && !Contains(x, "{") && !Contains(y, "}")
  {
    var start := Find(s, "{");
    var end := RFind(s, "}") + 1;
    if start >= 0 && end > start then
      var x, y := s[..start], s[end..];
      assert s == x + s[start..end] + y;
      NothingBefore(s, "{", start);
      NothingAfter(s, "}", end);
      Some(s[start..end])
    else
      None
  }

  /** Putting an object between text with no `{` before it and no `}` after it: the span is that object. */
  lemma BraceSpanOf(x: string, body: string, y: string)
    requires !Contains(x, "{") && !Contains(y, "}")
    ensures BraceSpan(x + "{" + body + "}" + y) == Some("{" + body + "}")
  {
    var s := x + "{" + body + "}" + y;
    FirstSingleAt(x, "{", body + "}" + y);
    assert x + "{" + (body + "}" + y) == s;
    LastSingleAt(x + "{" + body, "}", y);
    assert s[|x|..|x| + |body| + 2] == "{" + body + "}";
  }

  /** A one-character `sub` absent from `x` is first found right after `x`. */
  lemma FirstSingleAt(x: string, sub: string, rest: string)
    requires |sub| == 1 && !Contains(x, sub)
    ensures Find(x + sub + rest, sub) == |x|
  {
    var s := x + sub + rest;
    assert IsAt(s, sub, |x|);
    forall j | 0 <= j < |x| ensures !IsAt(s, sub, j) {
      assert !IsAt(x, sub, j);
      assert s[j..j + 1] == x[j..j + 1];
    }
  }

  /** A one-character `sub` absent from `y` is last found right before `y`. */
  lemma LastSingleAt(before: string, sub: string, y: string)
    requires |sub| == 1 && !Contains(y, sub)
    ensures RFind(before + sub + y, sub) == |before|
  {
    var s := before + sub + y;
    var k := |before|;
    assert IsAt(s, sub, k);
    forall j | k < j < |s| ensures !IsAt(s, sub, j) {
      assert !IsAt(y, sub, j - k - 1);
      assert s[j..j + 1] == y[j - k - 1..j - k];
    }
  }

  /** The answer used whenever no classification can be read from the reply. */
  const DefaultAnswer: Json :=
    Obj(map["tactic" := Str("Unknown"), "technique" := Str("Unknown"), "importance" := Str("medium")])

  /**
   What `classify_mitre_attack` returns for the model's reply: the parsed
   span when there is one and it parses, and the default answer otherwise.
   */
  function ClassifyResponse(response: string, parse: string -> Option<Json>): (r: Json)
    ensures BraceSpan(response).None? ==> r == DefaultAnswer
    ensures BraceSpan(response).Some? && parse(BraceSpan(response).value).None? ==> r == DefaultAnswer
    ensures BraceSpan(response).Some? && parse(BraceSpan(response).value).Some? ==>
              r == parse(BraceSpan(response).value).value
  {
    match BraceSpan(response)
    case None => DefaultAnswer
    case Some(span) =>
      match parse(span)
      case None => DefaultAnswer
      case Some(j) => j
  }

  /** A reply that wraps one object in prose yields what that object parses to. */
  lemma ReplyWithObject(x: string, body: string, y: string, parse: string -> Option<Json>)
    requires !Contains(x, "{") && !Contains(y, "}")
    requires parse("{" + body + "}").Some?
    ensures ClassifyResponse(x + "{" + body + "}" + y, parse) == parse("{" + body + "}").value
  {
    BraceSpanOf(x, body, y);
  }

  /** A reply without any `{` always falls back to the default answer. */
  lemma ReplyWithoutBrace(response: string, parse: string -> Option<Json>)
    requires !Contains(response, "{")
    ensures ClassifyResponse(response, parse) == DefaultAnswer
  {
  }

  /** The default answer has exactly the three keys of a classification, all strings. */
  lemma DefaultAnswerShape()
    ensures IsStringObject(DefaultAnswer, {"tactic", "technique", "importance"})
    ensures DefaultAnswer.fields.Keys == {"tactic", "technique", "importance"}
  {
  }

  /* ------------------------------------------------------ fence cleanup */

  /**
   The fence removal between the two strips: drop a leading "```yaml",
   then (independently) a leading "```", then a trailing "```".
   */
  function Unfence(t0: string): (r: string)
    ensures |r| <= |t0|
  {
    var t1 := if StartsWith(t0, "```yaml") then t0[7..] else t0;
    var t2 := if StartsWith(t1, "```") then t1[3..] else t1;
    if EndsWith(t2, "```") then t2[..|t2| - 3] else t2
  }

  /** The clean-up applied to each generated YAML file: strip, remove fences, strip again. */
  function CleanFences(text: string): (r: string)
    ensures Trimmed(r)
    ensures |r| <= |text|
  {
    Strip(Unfence(Strip(text)))
  }

  /** The slices `Unfence` takes are the `split`/`rsplit` pieces the script takes. */
  lemma UnfenceSplits(t: string)
    ensures StartsWith(t, "```yaml") ==> Contains(t, "```yaml") && SplitOnce(t, "```yaml").1 == t[7..]
    ensures StartsWith(t, "```") ==> Contains(t, "```") && SplitOnce(t, "```").1 == t[3..]
    ensures EndsWith(t, "```") ==> Contains(t, "```") && RSplitOnce(t, "```").0 == t[..|t| - 3]
  {
    if StartsWith(t, "```yaml") { SplitOnceAtStart(t, "```yaml"); }
    if StartsWith(t, "```") { SplitOnceAtStart(t, "```"); }
    if EndsWith(t, "```") { RSplitOnceAtEnd(t, "```"); }
  }

  /** Text with no backtick at all comes out merely stripped. */
  lemma CleanFencesPlain(text: string)
    requires forall i :: 0 <= i < |text| ==> text[i] != '`'
    ensures CleanFences(text) == Strip(text)
  {
    var (a, b) := StripBounds(text);
    var t0 := Strip(text);
    assert t0 == text[a..b];
    assert !StartsWith(t0, "```yaml") && !StartsWith(t0, "```") by {
      if |t0| > 0 { assert t0[0] == text[a]; }
    }
    assert !EndsWith(t0, "```") by {
      if |t0| > 0 { assert t0[|t0| - 1] == text[b - 1]; }
    }
    assert Unfence(t0) == t0;
    StripIdempotent(text);
  }

  /** Fence removal takes a "```yaml" … "```" block back to its body. */
  lemma UnfenceYamlBlock(body: string)
    requires body == "" || body[0] != '`'
    ensures Unfence("```yaml" + body + "```") == body
  {
    var t1 := ("```yaml" + body + "```")[7..];
    assert t1 == body + "```";
    if body != "" {
      assert t1[0] == body[0];
      assert t1[..|t1| - 3] == body;
    }
  }

  /** A YAML body fenced as "```yaml" … "```" comes out as the stripped body. */
  lemma CleanFencesYamlBlock(body: string)
    requires body == "" || body[0] != '`'
    ensures CleanFences("```yaml" + body + "```") == Strip(body)
  {
    var text := "```yaml" + body + "```";
    assert text[0] == '`' && text[|text| - 1] == '`';
    StripTrimmed(text);
    UnfenceYamlBlock(body);
  }

  /* ---------------------------------------------------- event summaries */

  /** The normalised fields worth showing the model, in the order they are listed. */
  const RelevantKeys: seq<string> := [
    "subject.process.name", "subject.process.cmdline",
    "subject.account.name", "event_src.hostname",
    "object.process.name", "object.path",
    "dst.ip", "dst.port"
  ]

  predicate Distinct(xs: seq<string>) {
    forall i, j :: 0 <= i < j < |xs| ==> xs[i] != xs[j]
  }

  /** `r` is `xs` with some elements deleted and the rest kept in order. */
  predicate IsSubsequence(r: seq<string>, xs: seq<string>)
    decreases |xs|
  {
    if |r| == 0 then true
    else if |xs| == 0 then false
    else if r[0] == xs[0] then IsSubsequence(r[1..], xs[1..])
    else IsSubsequence(r, xs[1..])
  }

  lemma {:induction false} SubsequenceMembers(r: seq<string>, xs: seq<string>)
    requires IsSubsequence(r, xs)
    ensures forall k :: k in r ==> k in xs
    decreases |xs|
  {
    if |r| > 0 {
      if r[0] == xs[0] {
        SubsequenceMembers(r[1..], xs[1..]);
        assert forall k :: k in r ==> k == r[0] || k in r[1..];
      } else {
        SubsequenceMembers(r, xs[1..]);
      }
    }
  }

  /** The keys of `keys` that the event has, in the order of `keys`. */
  function PresentKeys(keys: seq<string>, event: NormFields): (r: seq<string>)
    ensures forall k :: k in r <==> k in keys && k in event
    ensures IsSubsequence(r, keys)
  {
    if |keys| == 0 then []
    else
      var rest := PresentKeys(keys[1..], event);
      assert forall k :: k in keys <==> k == keys[0] || k in keys[1..];
      if keys[0] in event then
        assert ([keys[0]] + rest)[1..] == rest;
        [keys[0]] + rest
      else
        assert |rest| > 0 ==> rest[0] in rest;
        rest
  }

  /**
   Membership and order pin the selection down: any ordered selection of
   distinct keys holding exactly the keys present is `PresentKeys`.
   */
  lemma {:induction false} PresentKeysUnique(keys: seq<string>, event: NormFields, s: seq<string>)
    requires Distinct(keys)
    requires IsSubsequence(s, keys)
    requires forall k :: k in s <==> k in keys && k in event
    ensures s == PresentKeys(keys, event)
  {
    if |keys| > 0 {
      var k0 := keys[0];
      var tail := keys[1..];
      assert forall k :: k in keys <==> k == k0 || k in tail;
      assert k0 !in tail;
      assert Distinct(tail) by {
        forall i, j | 0 <= i < j < |tail| ensures tail[i] != tail[j] {
          assert tail[i] == keys[i + 1] && tail[j] == keys[j + 1];
        }
      }
      if k0 in event {
        assert k0 in s;
        assert s[0] == k0 by {
          if s[0] != k0 {
            SubsequenceMembers(s, tail);
          }
        }
        SubsequenceMembers(s[1..], tail);
        forall k ensures k in s[1..] <==> k in tail && k in event {
          assert k in s <==> k == s[0] || k in s[1..];
        }
        PresentKeysUnique(tail, event, s[1..]);
        assert s == [s[0]] + s[1..];
      } else if |s| == 0 {
        PresentKeysUnique(tail, event, s);
      } else {
        assert s[0] in s;
        PresentKeysUnique(tail, event, s);
      }
    } else {
      assert |s| == 0;
    }
  }

  /** The relevant keys are listed once each. */
  lemma RelevantKeysDistinct()
    ensures Distinct(RelevantKeys)
  {
  }

  function KeyLine(key: string, value: string): string {
    "  " + key + ": " + value + "\n"
  }

  function KeyLines(keys: seq<string>, event: NormFields): string
    requires forall k :: k in keys ==> k in event
  {
    if |keys| == 0 then "" else KeyLine(keys[0], event[keys[0]]) + KeyLines(keys[1..], event)
  }

  lemma {:induction false} KeyLinesContain(keys: seq<string>, event: NormFields, n: nat)
    requires forall k :: k in keys ==> k in event
    requires n < |keys|
    ensures Contains(KeyLines(keys, event), KeyLine(keys[n], event[keys[n]]))
  {
    var rest := KeyLines(keys[1..], event);
    if n == 0 {
      ContainsInfix("", KeyLine(keys[0], event[keys[0]]), rest);
      assert "" + KeyLine(keys[0], event[keys[0]]) + rest == KeyLines(keys, event);
    } else {
      KeyLinesContain(keys[1..], event, n - 1);
      ContainsWithin(KeyLine(keys[0], event[keys[0]]), rest, "", KeyLine(keys[n], event[keys[n]]));
      assert KeyLine(keys[0], event[keys[0]]) + rest + "" == KeyLines(keys, event);
    }
  }

  /** The block describing event number `idx + 1` of the group. */
  function EventSummary(idx: nat, event: NormFields): string {
    "Event " + DecimalText(idx + 1) + " key fields:\n" + KeyLines(PresentKeys(RelevantKeys, event), event)
  }

  /** Every relevant key the event has is shown with its value. */
  lemma SummaryShowsPresentKey(idx: nat, event: NormFields, key: string)
    requires key in RelevantKeys && key in event
    ensures Contains(EventSummary(idx, event), KeyLine(key, event[key]))
  {
    var ks := PresentKeys(RelevantKeys, event);
    var n :| 0 <= n < |ks| && ks[n] == key;
    KeyLinesContain(ks, event, n);
    ContainsWithin("Event " + DecimalText(idx + 1) + " key fields:\n", KeyLines(ks, event), "", KeyLine(key, event[key]));
    assert "Event " + DecimalText(idx + 1) + " key fields:\n" + KeyLines(ks, event) + "" == EventSummary(idx, event);
  }

  /** The summaries of the whole group, separated by blank lines. */
  function EventsText(group: seq<NormFields>): string {
    Join(seq(|group|, i requires 0 <= i < |group| => EventSummary(i, group[i])), "\n")
  }

  /** Each event of the group contributes its own numbered summary. */
  lemma EventsTextHasEverySummary(group: seq<NormFields>, k: nat)
    requires k < |group|
    ensures Contains(EventsText(group), EventSummary(k, group[k]))
  {
    var xs := seq(|group|, i requires 0 <= i < |group| => EventSummary(i, group[i]));
    JoinContains(xs, "\n", k);
  }

  /* --------------------------------------------------- choosing a group */

  /**
   A greedy `\d+` at the start of `s` followed by `stop`: the digits and
   what follows `stop`. Backtracking cannot help, since `stop` starts with
   a non-digit in both uses.
   */
  function DigitsThen(s: string, stop: string): (r: Option<(string, string)>)
    ensures r.Some? ==> |r.value.0| > 0 && AllDigits(r.value.0) && s == r.value.0 + stop + r.value.1
  {
    var a := LeadingDigits(s);
    if a == 0 || !StartsWith(s[a..], stop) then None
    else
      assert s == s[..a] + s[a..a + |stop|] + s[a + |stop|..];
      Some((s[..a], s[a + |stop|..]))
  }

  /** Digits followed by `stop` are found again by `DigitsThen`. */
  lemma DigitsThenOf(d: string, stop: string, x: string)
    requires |d| > 0 && AllDigits(d)
    requires |stop| > 0 && !IsDigit(stop[0])
    ensures DigitsThen(d + stop + x, stop) == Some((d, x))
  {
    var s := d + stop + x;
    assert s == d + (stop + x);
    LeadingDigitsOf(d, stop + x);
    assert s[|d|..] == stop + x;
    assert (stop + x)[..|stop|] == stop;
    assert s[..|d|] == d;
    assert s[|d| + |stop|..] == x;
  }

  const NormPrefix := "norm_fields_"
  const JsonSuffix := ".json"

  /**
   `re.match(r'norm_fields_(\d+)_(\d+)\.json', name)` with its two
   captures. The pattern is anchored only at the start, so anything may
   follow ".json".
   */
  function ParseNormName(name: string): (r: Option<(string, string)>)
    ensures r.Some? ==> |r.value.0| > 0 && AllDigits(r.value.0) && |r.value.1| > 0 && AllDigits(r.value.1)
  {
    if !StartsWith(name, NormPrefix) then None
    else
      match DigitsThen(name[12..], "_")
      case None => None
      case Some((i, rest)) =>
        match DigitsThen(rest, JsonSuffix)
        case None => None
        case Some((j, _)) => Some((i, j))
  }

  /** A matched name starts with the pattern's text around its two captures. */
  lemma ParseNormNameShape(name: string)
    requires ParseNormName(name).Some?
    ensures StartsWith(name, NormPrefix + ParseNormName(name).value.0 + "_" + ParseNormName(name).value.1 + JsonSuffix)
  {
    var (i, rest) := DigitsThen(name[12..], "_").value;
    var (j, x) := DigitsThen(rest, JsonSuffix).value;
    assert name == name[..12] + name[12..];
    StartsWithPieces(name, NormPrefix, i, "_", j, JsonSuffix, name[12..], rest, x);
  }

  lemma StartsWithPieces(name: string, p: string, i: string, u: string, j: string, e: string,
                         rest: string, tail: string, x: string)
    requires name == p + rest && rest == i + u + tail && tail == j + e + x
    ensures StartsWith(name, p + i + u + j + e)
  {
    assert name == (p + i + u + j + e) + x;
    StartsWithConcat(p + i + u + j + e, x);
  }

  lemma StartsWithConcat(x: string, y: string)
    ensures StartsWith(x + y, x)
  {
    assert (x + y)[..|x|] == x;
  }

  lemma {:induction false} LeadingDigitsOf(d: string, t: string)
    requires AllDigits(d)
    requires |t| == 0 || !IsDigit(t[0])
    ensures LeadingDigits(d + t) == |d|
  {
    if |d| > 0 {
      assert (d + t)[1..] == d[1..] + t;
      LeadingDigitsOf(d[1..], t);
    } else {
      assert d + t == t;
    }
  }

  /** Every name of the pattern's shape is matched, with its two numbers captured. */
  lemma ParseNormNameOf(i: string, j: string, x: string)
    requires |i| > 0 && AllDigits(i) && |j| > 0 && AllDigits(j)
    ensures ParseNormName(NormPrefix + i + "_" + j + JsonSuffix + x) == Some((i, j))
  {
    var name := NormPrefix + i + "_" + j + JsonSuffix + x;
    assert name[..12] == NormPrefix;
    assert name[12..] == i + "_" + (j + JsonSuffix + x);
    DigitsThenOf(i, "_", j + JsonSuffix + x);
    DigitsThenOf(j, JsonSuffix, x);
  }

  /** `tests_dir.glob("norm_fields_*.json")`: the listing only offers such names. */
  predicate InGlob(name: string) {
    |name| >= 17 && StartsWith(name, NormPrefix) && EndsWith(name, JsonSuffix)
  }

  /** The group index `i` a listed file contributes to, if any. */
  function NormIndex(name: string): Option<string> {
    if InGlob(name) then
      match ParseNormName(name)
      case Some((i, _)) => Some(i)
      case None => None
    else None
  }

  /** A file of the tests directory: its name and its normalised fields. */
  type GroupFile = (string, NormFields)

  /** Which group, if any, a file name belongs to. */
  type Indexer = string -> Option<string>

  /** The group indices met while scanning `files` in order, one per matching file. */
  function Indices(files: seq<GroupFile>, index: Indexer): seq<string> {
    if |files| == 0 then []
    else
      var rest := Indices(files[..|files| - 1], index);
      match index(files[|files| - 1].0)
      case None => rest
      case Some(i) => rest + [i]
  }

  /** The indices met are exactly those of the matching files. */
  lemma {:induction false} IndicesMembers(files: seq<GroupFile>, index: Indexer)
    ensures forall i :: i in Indices(files, index) ==> exists k :: 0 <= k < |files| && index(files[k].0) == Some(i)
    ensures forall k :: 0 <= k < |files| && index(files[k].0).Some? ==> index(files[k].0).value in Indices(files, index)
  {
    if |files| > 0 {
      var init := files[..|files| - 1];
      IndicesMembers(init, index);
      assert forall k :: 0 <= k < |init| ==> init[k] == files[k];
    }
  }

  /** The contents of the files of group `i`, in scanning order. */
  function GroupOf(files: seq<GroupFile>, index: Indexer, i: string): (r: seq<NormFields>)
    ensures |r| <= |files|
  {
    if |files| == 0 then []
    else
      var last := files[|files| - 1];
      GroupOf(files[..|files| - 1], index, i) + (if index(last.0) == Some(i) then [last.1] else [])
  }

  /** The `groups` dictionary the scanning loop builds: `groups[i].append(...)` per matching file. */
  function Groups(files: seq<GroupFile>, index: Indexer): map<string, seq<NormFields>> {
    if |files| == 0 then map[]
    else
      var g := Groups(files[..|files| - 1], index);
      var last := files[|files| - 1];
      match index(last.0)
      case None => g
      case Some(i) => g[i := (if i in g then g[i] else []) + [last.1]]
  }

  /** The dictionary holds exactly the indices met, each with the contents of its files in order. */
  lemma {:induction false} GroupsAreFilters(files: seq<GroupFile>, index: Indexer)
    ensures forall i :: i in Groups(files, index) <==> i in Indices(files, index)
    ensures forall i :: i in Groups(files, index) ==> Groups(files, index)[i] == GroupOf(files, index, i)
  {
    if |files| > 0 {
      var init := files[..|files| - 1];
      GroupsAreFilters(init, index);
      forall i | i !in Groups(init, index) ensures GroupOf(init, index, i) == [] {
        GroupOfEmpty(init, index, i);
      }
    }
  }

  lemma {:induction false} GroupOfEmpty(files: seq<GroupFile>, index: Indexer, i: string)
    requires i !in Indices(files, index)
    ensures GroupOf(files, index, i) == []
  {
    if |files| > 0 {
      var init := files[..|files| - 1];
      assert forall k :: 0 <= k < |init| ==> init[k] == files[k];
      GroupOfEmpty(init, index, i);
    }
  }

  /** What `process_correlation` settles on before calling the model. */
  datatype Selection =
    | NoTests
    | NoGroups
    | Group(index: string, events: seq<NormFields>)

  /** Group selection for any way of reading a group index off a file name. */
  function SelectBy(testsExist: bool, files: seq<GroupFile>, index: Indexer): (r: Selection)
    ensures r.NoTests? <==> !testsExist
    ensures r.NoGroups? <==> testsExist && forall f :: f in files ==> index(f.0).None?
    ensures r.Group? ==> exists f :: f in files && index(f.0) == Some(r.index)
    ensures r.Group? ==> forall f :: f in files && index(f.0).Some? ==> LexLe(r.index, index(f.0).value)
    ensures r.Group? ==> r.events == GroupOf(SortByName(files), index, r.index) && |r.events| > 0
  {
    if !testsExist then NoTests
    else
      var sorted := SortByName(files);
      var groups := Groups(sorted, index);
      GroupsAreFilters(sorted, index);
      SortedIndices(files, sorted, index);
      if |groups| == 0 then
        assert forall i :: i !in Indices(sorted, index);
        NoGroups
      else
        var chosen := MinOf(Indices(sorted, index));
        GroupOfNonEmpty(sorted, index, chosen);
        Group(chosen, groups[chosen])
  }

  /** The indices met in the sorted listing are those of the matching files of the listing. */
  lemma SortedIndices(files: seq<GroupFile>, sorted: seq<GroupFile>, index: Indexer)
    requires multiset(sorted) == multiset(files)
    ensures forall f :: f in files && index(f.0).Some? ==> index(f.0).value in Indices(sorted, index)
    ensures forall i :: i in Indices(sorted, index) ==> exists f :: f in files && index(f.0) == Some(i)
  {
    SameFiles(files, sorted);
    IndicesMembers(sorted, index);
    forall f | f in files && index(f.0).Some? ensures index(f.0).value in Indices(sorted, index) {
      var k :| 0 <= k < |sorted| && sorted[k] == f;
    }
    forall i | i in Indices(sorted, index) ensures exists f :: f in files && index(f.0) == Some(i) {
      var k :| 0 <= k < |sorted| && index(sorted[k].0) == Some(i);
      assert sorted[k] in files;
    }
  }

  /** Every index met has at least one file in its group. */
  lemma GroupOfNonEmpty(files: seq<GroupFile>, index: Indexer, i: string)
    requires i in Indices(files, index)
    ensures |GroupOf(files, index, i)| > 0
  {
    IndicesMembers(files, index);
    var k :| 0 <= k < |files| && index(files[k].0) == Some(i);
    GroupOfHas(files, index, k);
  }

  /** Sorting keeps the same files. */
  lemma SameFiles(files: seq<GroupFile>, sorted: seq<GroupFile>)
    requires multiset(sorted) == multiset(files)
    ensures forall f :: f in files <==> f in sorted
  {
    forall f ensures f in files <==> f in sorted {
      assert f in files <==> f in multiset(files);
      assert f in sorted <==> f in multiset(sorted);
    }
  }

  /** A matching file puts its contents in its group. */
  lemma {:induction false} GroupOfHas(files: seq<GroupFile>, index: Indexer, k: nat)
    requires k < |files| && index(files[k].0).Some?
    ensures files[k].1 in GroupOf(files, index, index(files[k].0).value)
  {
    var init := files[..|files| - 1];
    if k < |files| - 1 {
      assert init[k] == files[k];
      GroupOfHas(init, index, k);
    }
  }

  /**
   The group a correlation is classified from: the directory listing is
   sorted by name, files matching the name pattern are grouped by `i`, and
   the group with the least `i`, compared as a string, is chosen.
   */
  function SelectGroup(testsExist: bool, files: seq<GroupFile>): (r: Selection)
    ensures r.NoTests? <==> !testsExist
    ensures r.NoGroups? <==> testsExist && forall f :: f in files ==> NormIndex(f.0).None?
    ensures r.Group? ==> exists f :: f in files && NormIndex(f.0) == Some(r.index)
    ensures r.Group? ==> forall f :: f in files && NormIndex(f.0).Some? ==> LexLe(r.index, NormIndex(f.0).value)
    ensures r.Group? ==> r.events == GroupOf(SortByName(files), NormIndex, r.index) && |r.events| > 0
  {
    SelectBy(testsExist, files, NormIndex)
  }

  /** Indices compare as strings, so group "10" is chosen over group "2". */
  lemma StringOrderOfIndices(files: seq<GroupFile>, a: GroupFile, b: GroupFile)
    requires a in files && NormIndex(a.0) == Some("10")
    requires b in files && NormIndex(b.0) == Some("2")
    ensures SelectGroup(true, files).Group?
    ensures SelectGroup(true, files).index != "2"
  {
    var r := SelectGroup(true, files);
    assert LexLe(r.index, "10");
    assert !LexLe("2", "10");
  }
}
