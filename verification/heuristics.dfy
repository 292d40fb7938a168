/**
 The heuristic MITRE ATT&CK classifier of generate_answers.py.

 A correlation's normalised events are reduced to one lower-cased text
 (command line, process name and parent command line of every event) and a
 set of event ids. An ordered table of regular-expression rules is tried
 against the text; the first rule with a matching pattern decides. Failing
 that, an event id with a fixed mapping decides; failing that, the word
 "powershell" selects a PowerShell default, and anything else gets the
 generic default.

 Regular-expression search is a parameter (`matches(pattern, text)`), and so
 is the order in which Python happens to iterate the set of event ids.
 */
module Heuristics {
  import opened Wrappers
  import opened Text
  import opened Ordering

  /* ------------------------------------------------------ classification */

  datatype Importance = Low | Medium | High

  function ImportanceName(i: Importance): string {
    match i
    case Low => "low"
    case Medium => "medium"
    case High => "high"
  }

  /** The importance written in a dictionary, if it is one of the three levels. */
  function ParseImportance(s: string): (r: Option<Importance>)
    ensures r.Some? <==> s in {"low", "medium", "high"}
    ensures r.Some? ==> ImportanceName(r.value) == s
  {
    if s == "low" then Some(Low)
    else if s == "medium" then Some(Medium)
    else if s == "high" then Some(High)
    else None
  }

  lemma ImportanceRoundTrip(i: Importance)
    ensures ParseImportance(ImportanceName(i)) == Some(i)
  {
  }

  datatype Classification = Classification(tactic: string, technique: string, importance: Importance)

  /** The dictionary that is returned and saved as answers.json. */
  function AsDict(c: Classification): (d: map<string, string>)
    ensures d.Keys == {"tactic", "technique", "importance"}
    ensures d["tactic"] == c.tactic && d["technique"] == c.technique
    ensures ParseImportance(d["importance"]) == Some(c.importance)
  {
    map["tactic" := c.tactic, "technique" := c.technique, "importance" := ImportanceName(c.importance)]
  }

  /* -------------------------------------------------------------- tables */

  /** One entry of the pattern table: any matching pattern selects `result`. */
  datatype Rule = Rule(patterns: seq<string>, result: Classification)

  /** The pattern table, in the order in which it is tried (the patterns are the regular expressions' source text). */
  const MitrePatterns: seq<Rule> := [
    Rule(["mimikatz", "procdump.*lsass", "sekurlsa", "logonpasswords", "rundll32.*comsvcs.*minidump"],
         Classification("Credential Access", "OS Credential Dumping: LSASS Memory", High)),
    Rule(["reg.*save.*sam", "reg.*save.*system", "reg.*save.*security"],
         Classification("Credential Access", "OS Credential Dumping: Security Account Manager", High)),
    Rule(["credentials", "password", "ntlm"],
         Classification("Credential Access", "Unsecured Credentials", Medium)),
    Rule(["vssadmin.*delete.*shadow", "wbadmin.*delete", "bcdedit.*recoveryenabled.*no"],
         Classification("Impact", "Inhibit System Recovery", High)),
    Rule(["net.*user.*\\/add", "net.*localgroup.*administrators.*\\/add", "net\\s+user\\s+\\w+\\s+\\/add"],
         Classification("Persistence", "Create Account", High)),
    Rule(["powershell.*-enc", "powershell.*-encodedcommand", "powershell.*-e\\s+", "powershell.*bypass.*execution"],
         Classification("Defense Evasion", "Obfuscated Files or Information", Medium)),
    Rule(["certutil.*-decode", "certutil.*-urlcache", "certutil.*-f"],
         Classification("Defense Evasion", "Deobfuscate/Decode Files or Information", Medium)),
    Rule(["powershell\\.exe", "pwsh\\.exe"],
         Classification("Execution", "PowerShell", Medium)),
    Rule(["wscript\\.exe", "cscript\\.exe", "mshta\\.exe"],
         Classification("Execution", "Windows Script Host", Medium)),
    Rule(["schtasks.*\\/create", "at\\s+\\d+:\\d+"],
         Classification("Execution", "Scheduled Task", Medium)),
    Rule(["psexec", "wmic.*process.*call.*create", "\\\\\\\\.*\\\\admin\\$", "\\\\\\\\.*\\\\c\\$"],
         Classification("Lateral Movement", "Remote Services", High)),
    Rule(["net.*group", "net.*localgroup", "dsquery.*user"],
         Classification("Discovery", "Account Discovery", Low)),
    Rule(["whoami", "systeminfo", "hostname", "ipconfig"],
         Classification("Discovery", "System Information Discovery", Low)),
    Rule(["net.*view", "net.*share", "net.*use"],
         Classification("Discovery", "Network Share Discovery", Low)),
    Rule(["tasklist", "get-process", "ps\\s"],
         Classification("Discovery", "Process Discovery", Low)),
    Rule(["runas", "elevate", "bypass.*uac"],
         Classification("Privilege Escalation", "Bypass User Account Control", High)),
    Rule(["inject", "shellcode", "virtualalloc", "writeprocessmemory"],
         Classification("Defense Evasion", "Process Injection", High)),
    Rule(["reg.*add.*\\\\run", "reg.*add.*\\\\runonce", "currentversion\\\\run"],
         Classification("Persistence", "Registry Run Keys", Medium)),
    Rule(["clipboard", "keylog", "screenshot"],
         Classification("Collection", "Input Capture", Medium))
  ]

  /** Classification by Sysmon or Windows Security event id. */
  const EventIdMapping: map<string, Classification> := map[
    "1" := Classification("Execution", "Process Creation", Low),
    "3" := Classification("Command and Control", "Network Connection", Low),
    "10" := Classification("Credential Access", "Process Access", Medium),
    "11" := Classification("Defense Evasion", "File Creation", Low),
    "13" := Classification("Persistence", "Registry Event", Low),
    "4720" := Classification("Persistence", "Create Account", High),
    "4625" := Classification("Credential Access", "Brute Force", Medium),
    "4624" := Classification("Initial Access", "Valid Accounts", Low),
    "4688" := Classification("Execution", "Process Creation", Low),
    "4648" := Classification("Lateral Movement", "Explicit Credentials", Medium),
    "4672" := Classification("Privilege Escalation", "Special Privileges", Medium),
    "4698" := Classification("Execution", "Scheduled Task", Medium),
    "4776" := Classification("Credential Access", "NTLM Authentication", Low)
  ]

  const PowerShellDefault := Classification("Execution", "Command and Scripting Interpreter: PowerShell", Medium)
  const GenericDefault := Classification("Execution", "Command and Scripting Interpreter", Medium)

  /* ---------------------------------------------------------- the input */

  /** One norm_fields_*.json file: normalised field name to value. */
  type NormFields = map<string, string>

  /** `fields.get(key, "")`. */
  function Get(fields: NormFields, key: string): string {
    if key in fields then fields[key] else ""
  }

  const CmdlineField := "subject.process.cmdline"
  const NameField := "subject.process.name"
  const ParentCmdlineField := "subject.process.parent.cmdline"
  const EventIdField := "event_src.id"

  /** One event's share of the text: `f" {cmdline} {name} {parent_cmdline}".lower()`. */
  function EventText(fields: NormFields): string {
    Lower(" " + Get(fields, CmdlineField) + " " + Get(fields, NameField) + " " + Get(fields, ParentCmdlineField))
  }

  /** The text the patterns are searched in: every event's share, in order. */
  function AllText(events: seq<NormFields>): (t: string)
    ensures IsLower(t)
  {
    if |events| == 0 then ""
    else
      var t := AllText(events[..|events| - 1]);
      LowerIsLower(" " + Get(events[|events| - 1], CmdlineField) + " " + Get(events[|events| - 1], NameField)
                   + " " + Get(events[|events| - 1], ParentCmdlineField));
      IsLowerAppend(t, EventText(events[|events| - 1]));
      t + EventText(events[|events| - 1])
  }

  /** The text of a concatenation of event lists is the concatenation of their texts. */
  lemma {:induction false} AllTextAppend(a: seq<NormFields>, b: seq<NormFields>)
    ensures AllText(a + b) == AllText(a) + AllText(b)
    decreases |b|
  {
    if |b| > 0 {
      var b' := b[..|b| - 1];
      assert (a + b)[..|a + b| - 1] == a + b';
      assert (a + b)[|a + b| - 1] == b[|b| - 1];
      AllTextAppend(a, b');
    } else {
      assert a + b == a;
    }
  }

  /** The text of the events around event `i`. */
  lemma AllTextAt(events: seq<NormFields>, i: nat)
    requires i < |events|
    ensures AllText(events) == AllText(events[..i]) + EventText(events[i]) + AllText(events[i + 1..])
  {
    var e := events[i];
    assert events == events[..i] + [e] + events[i + 1..];
    AllTextAppend(events[..i] + [e], events[i + 1..]);
    AllTextAppend(events[..i], [e]);
    assert [e][..0] == [];
  }

  /** An event's share is the three lower-cased fields, each after a space. */
  lemma EventTextParts(e: NormFields)
    ensures EventText(e) == " " + Lower(Get(e, CmdlineField)) + " " + Lower(Get(e, NameField)) + " " + Lower(Get(e, ParentCmdlineField))
  {
    var c, n, p := Get(e, CmdlineField), Get(e, NameField), Get(e, ParentCmdlineField);
    LowerAppend(" " + c + " " + n + " ", p);
    LowerAppend(" " + c + " " + n, " ");
    LowerAppend(" " + c + " ", n);
    LowerAppend(" " + c, " ");
    LowerAppend(" ", c);
  }

  /** Each event's command line, process name and parent command line reach the text, lower-cased. */
  lemma EventFieldsInText(events: seq<NormFields>, i: nat)
    requires i < |events|
    ensures Contains(AllText(events), Lower(Get(events[i], CmdlineField)))
    ensures Contains(AllText(events), Lower(Get(events[i], NameField)))
    ensures Contains(AllText(events), Lower(Get(events[i], ParentCmdlineField)))
  {
    var e := events[i];
    AllTextAt(events, i);
    EventTextParts(e);
    var x, y := AllText(events[..i]), AllText(events[i + 1..]);
    var a, b, c := Lower(Get(e, CmdlineField)), Lower(Get(e, NameField)), Lower(Get(e, ParentCmdlineField));
    ShareHasFirst(x, a, b, c, y);
    ShareHasSecond(x, a, b, c, y);
    ShareHasThird(x, a, b, c, y);
  }

  lemma ShareHasFirst(x: string, a: string, b: string, c: string, y: string)
    ensures Contains(x + (" " + a + " " + b + " " + c) + y, a)
  {
    var s := x + (" " + a + " " + b + " " + c) + y;
    assert s[|x| + 1..|x| + 1 + |a|] == a;
    assert IsAt(s, a, |x| + 1);
  }

  lemma ShareHasSecond(x: string, a: string, b: string, c: string, y: string)
    ensures Contains(x + (" " + a + " " + b + " " + c) + y, b)
  {
    var s := x + (" " + a + " " + b + " " + c) + y;
    var k := |x| + 2 + |a|;
    assert s[k..k + |b|] == b;
    assert IsAt(s, b, k);
  }

  lemma ShareHasThird(x: string, a: string, b: string, c: string, y: string)
    ensures Contains(x + (" " + a + " " + b + " " + c) + y, c)
  {
    var s := x + (" " + a + " " + b + " " + c) + y;
    var k := |x| + 3 + |a| + |b|;
    assert s[k..k + |c|] == c;
    assert IsAt(s, c, k);
  }

  /** The non-empty event ids of the events. */
  function EventIds(events: seq<NormFields>): (ids: set<string>)
    ensures forall id :: id in ids <==> id != "" && exists i :: 0 <= i < |events| && Get(events[i], EventIdField) == id
  {
    if |events| == 0 then {}
    else
      var last := |events| - 1;
      var ids := EventIds(events[..last]);
      var id := Get(events[last], EventIdField);
      assert forall i :: 0 <= i < last ==> events[..last][i] == events[i];
      if id != "" then ids + {id} else ids
  }

  /* ------------------------------------------------------ classification */

  /** `re.search(pattern, text, re.IGNORECASE)` is found. */
  type Matcher = (string, string) -> bool

  predicate RuleMatches(r: Rule, text: string, matches: Matcher) {
    exists j :: 0 <= j < |r.patterns| && matches(r.patterns[j], text)
  }

  /** Rule `i` matches and no earlier rule does. */
  predicate FirstMatching(rules: seq<Rule>, text: string, matches: Matcher, i: int) {
    0 <= i < |rules| && RuleMatches(rules[i], text, matches)
    && forall j :: 0 <= j < i ==> !RuleMatches(rules[j], text, matches)
  }

  /** No rule of the table matches the text. */
  predicate NoneMatch(rules: seq<Rule>, text: string, matches: Matcher) {
    forall j :: 0 <= j < |rules| ==> !RuleMatches(rules[j], text, matches)
  }

  /** The index of the first rule with a matching pattern. */
  function FirstMatch(rules: seq<Rule>, text: string, matches: Matcher): (r: Option<nat>)
    ensures r.Some? ==> FirstMatching(rules, text, matches, r.value)
    ensures r.None? <==> NoneMatch(rules, text, matches)
  {
    if |rules| == 0 then None
    else if RuleMatches(rules[0], text, matches) then Some(0)
    else
      var rest := FirstMatch(rules[1..], text, matches);
      assert forall j :: 1 <= j < |rules| ==> rules[1..][j - 1] == rules[j];
      match rest
      case None => None
      case Some(i) => Some(i + 1)
  }

  /** At most one rule is the first to match. */
  lemma FirstMatchingUnique(rules: seq<Rule>, text: string, matches: Matcher, i: int, k: int)
    requires FirstMatching(rules, text, matches, i) && FirstMatching(rules, text, matches, k)
    ensures i == k
  {
  }

  /** `order` lists every element of `ids` exactly once: how Python iterates a set. */
  predicate Enumerates(order: seq<string>, ids: set<string>) {
    (forall i :: 0 <= i < |order| ==> order[i] in ids)
    && (forall id :: id in ids ==> id in order)
    && (forall i, j :: 0 <= i < j < |order| ==> order[i] != order[j])
  }

  /** The first id in iteration order that has a mapping. */
  function FirstMapped(order: seq<string>, mapping: map<string, Classification>): (r: Option<string>)
    ensures r.Some? ==> r.value in order && r.value in mapping
    ensures r.None? <==> forall i :: 0 <= i < |order| ==> order[i] !in mapping
    ensures |order| > 0 && order[0] in mapping ==> r == Some(order[0])
  {
    if |order| == 0 then None
    else if order[0] in mapping then Some(order[0])
    else
      assert forall i :: 1 <= i < |order| ==> order[1..][i - 1] == order[i];
      FirstMapped(order[1..], mapping)
  }

  /** The three stages for any rule table and id mapping. */
  function Classify(rules: seq<Rule>, mapping: map<string, Classification>, text: string,
                    matches: Matcher, ids: set<string>, order: seq<string>): (c: Classification)
    requires Enumerates(order, ids)
    ensures forall i :: FirstMatching(rules, text, matches, i) ==> c == rules[i].result
    ensures NoneMatch(rules, text, matches) && (exists id :: id in ids && id in mapping)
            ==> exists id :: id in ids && id in mapping && c == mapping[id]
    ensures NoneMatch(rules, text, matches) && (forall id :: id in ids ==> id !in mapping)
            ==> c == if Contains(text, "powershell") then PowerShellDefault else GenericDefault
  {
    match FirstMatch(rules, text, matches)
    case Some(i) =>
      forall k | FirstMatching(rules, text, matches, k) ensures k == i {
        FirstMatchingUnique(rules, text, matches, i, k);
      }
      rules[i].result
    case None =>
      match FirstMapped(order, mapping)
      case Some(id) => mapping[id]
      case None =>
        if Contains(text, "powershell") then PowerShellDefault else GenericDefault
  }

  /** `classify_events`: pattern rules in order, then event ids, then the two defaults. */
  function ClassifyEvents(events: seq<NormFields>, matches: Matcher, order: seq<string>): (c: Classification)
    requires Enumerates(order, EventIds(events))
    ensures forall i :: FirstMatching(MitrePatterns, AllText(events), matches, i) ==> c == MitrePatterns[i].result
    ensures NoneMatch(MitrePatterns, AllText(events), matches) && (exists id :: id in EventIds(events) && id in EventIdMapping)
            ==> exists id :: id in EventIds(events) && id in EventIdMapping && c == EventIdMapping[id]
    ensures NoneMatch(MitrePatterns, AllText(events), matches) && (forall id :: id in EventIds(events) ==> id !in EventIdMapping)
            ==> c == if Contains(AllText(events), "powershell") then PowerShellDefault else GenericDefault
  {
    Classify(MitrePatterns, EventIdMapping, AllText(events), matches, EventIds(events), order)
  }

  /** Some iteration order of the ids makes any mapped id the answer, when no rule matches. */
  lemma EveryMappedIdReachable(rules: seq<Rule>, mapping: map<string, Classification>, text: string,
                               matches: Matcher, ids: set<string>, id: string)
    requires NoneMatch(rules, text, matches)
    requires id in ids && id in mapping
    ensures exists order :: Enumerates(order, ids) && Classify(rules, mapping, text, matches, ids, order) == mapping[id]
  {
    var rest := Enumeration(ids - {id});
    var order := [id] + rest;
    assert forall i :: 1 <= i < |order| ==> order[i] == rest[i - 1];
    assert Enumerates(order, ids);
    assert FirstMapped(order, mapping) == Some(id);
  }

  /** The event-id stage of `classify_events` can answer with the mapping of any id present. */
  lemma EventIdStageReachable(events: seq<NormFields>, matches: Matcher, id: string)
    requires NoneMatch(MitrePatterns, AllText(events), matches)
    requires id in EventIds(events) && id in EventIdMapping
    ensures exists order :: Enumerates(order, EventIds(events)) && ClassifyEvents(events, matches, order) == EventIdMapping[id]
  {
    EveryMappedIdReachable(MitrePatterns, EventIdMapping, AllText(events), matches, EventIds(events), id);
  }

  /** Some enumeration of a finite set. */
  ghost function Enumeration(s: set<string>): (r: seq<string>)
    ensures Enumerates(r, s)
    decreases |s|
  {
    if s == {} then []
    else
      var x :| x in s;
      var rest := Enumeration(s - {x});
      assert forall i :: 1 <= i < |[x] + rest| ==> ([x] + rest)[i] == rest[i - 1];
      [x] + rest
  }

  /* ------------------------------------------------------ one correlation */

  /** A file matched by `norm_fields_*.json`: its name, and its content unless reading or parsing it failed. */
  type NormFile = (string, Option<NormFields>)

  /** The number of files read for context. */
  const ContextSize := 5

  /** `sorted(files)[:5]`. */
  function ContextWindow(files: seq<NormFile>): (w: seq<NormFile>)
    ensures |w| == if |files| < ContextSize then |files| else ContextSize
    ensures SortedByName(w)
    ensures multiset(w) <= multiset(files)
  {
    var s := SortByName(files);
    var n := if |s| < ContextSize then |s| else ContextSize;
    assert s == s[..n] + s[n..];
    assert multiset(s) == multiset(s[..n]) + multiset(s[n..]);
    s[..n]
  }

  /** The files read come first by name: a file left out sorts no earlier than any file read. */
  lemma ContextWindowFirst(files: seq<NormFile>, i: nat, j: nat)
    requires i < |ContextWindow(files)| && j < |files| && files[j] !in ContextWindow(files)
    ensures LexLe(ContextWindow(files)[i].0, files[j].0)
  {
    var s := SortByName(files);
    var n := |ContextWindow(files)|;
    assert files[j] in multiset(s);
    var k :| 0 <= k < |s| && s[k] == files[j];
    assert s[..n][i] == s[i];
  }

  /** The contents that could be read, in order. */
  function Readable(files: seq<NormFile>): (r: seq<NormFields>)
    ensures |r| <= |files|
    ensures |r| == 0 <==> Unreadable(files)
    ensures forall i :: 0 <= i < |files| && files[i].1.Some? ==> files[i].1.value in r
    ensures forall x :: x in r ==> exists i :: 0 <= i < |files| && files[i].1 == Some(x)
  {
    if |files| == 0 then []
    else
      var rest := Readable(files[1..]);
      assert forall i :: 1 <= i < |files| ==> files[1..][i - 1] == files[i];
      match files[0].1
      case Some(x) => [x] + rest
      case None => rest
  }

  /** One file contributes its contents when it could be read, and nothing otherwise. */
  lemma ReadableOne(f: NormFile)
    ensures f.1.Some? ==> Readable([f]) == [f.1.value]
    ensures f.1.None? ==> Readable([f]) == []
  {
    assert [f][1..] == [];
  }

  /** The contents of two listings read one after the other, in file order. */
  lemma {:induction false} ReadableAppend(a: seq<NormFile>, b: seq<NormFile>)
    ensures Readable(a + b) == Readable(a) + Readable(b)
  {
    if |a| == 0 {
      assert a + b == b;
    } else {
      assert (a + b)[1..] == a[1..] + b;
      ReadableAppend(a[1..], b);
    }
  }

  /** No file of the list could be read. */
  predicate Unreadable(files: seq<NormFile>) {
    forall i :: 0 <= i < |files| ==> files[i].1.None?
  }

  datatype Outcome =
    | AnswersExist       // answers.json is left as it is
    | NoNormFiles        // nothing matched norm_fields_*.json
    | NothingReadable    // none of the first five files could be read
    | Answers(classification: Classification)

  /** `process_correlation`, with the existence of answers.json and the listing of tests/ as inputs. */
  function ProcessCorrelation(answersExist: bool, files: seq<NormFile>, matches: Matcher, order: seq<string>): (o: Outcome)
    requires Enumerates(order, EventIds(Readable(ContextWindow(files))))
    ensures o == AnswersExist <==> answersExist
    ensures o == NoNormFiles <==> !answersExist && |files| == 0
    ensures o == NothingReadable <==> !answersExist && |files| > 0 && Unreadable(ContextWindow(files))
    ensures o.Answers? ==> o.classification == ClassifyEvents(Readable(ContextWindow(files)), matches, order)
  {
    if answersExist then AnswersExist
    else if |files| == 0 then NoNormFiles
    else
      var events := Readable(ContextWindow(files));
      if |events| == 0 then NothingReadable
      else Answers(ClassifyEvents(events, matches, order))
  }
}
