/**
 The placeholder localisation files of generate_i18n.py.

 A technique name selects a description from an ordered table: the first
 key occurring in the technique wins, and a per-language default covers the
 rest. The English and Russian templates are then filled with Python's
 `str.format`, for which this module has a small interpreter: `{name}` is
 replaced by an argument, `{{` and `}}` stand for single braces, and a stray
 brace or a missing argument is an error.
 */
module I18n {
  import opened Wrappers
  import opened Text
  import opened JsonValue

  /* ------------------------------------------------ technique descriptions */

  datatype Description = Description(key: string, en: string, ru: string)

  /** The description table, in the order in which its keys are tried. */
  const TechniqueDesc: seq<Description> := [
    Description("Inhibit System Recovery",
                "system recovery inhibition (deletion of backups and shadow copies)",
                "подавлением восстановления системы (удаление резервных копий и теневых копий)"),
    Description("OS Credential Dumping",
                "credential dumping from operating system",
                "извлечением учетных данных из операционной системы"),
    Description("Create Account",
                "account creation",
                "созданием учетных записей"),
    Description("Obfuscated Files or Information",
                "obfuscated commands and encoded data",
                "обфусцированными командами и закодированными данными"),
    Description("Command and Scripting Interpreter",
                "suspicious command execution and scripting",
                "подозрительным выполнением команд и скриптов"),
    Description("Scheduled Task",
                "scheduled task creation",
                "созданием запланированных задач"),
    Description("Remote Services",
                "remote service execution",
                "удаленным выполнением служб"),
    Description("System Information Discovery",
                "system information gathering",
                "сбором информации о системе"),
    Description("Valid Accounts",
                "authentication using valid accounts",
                "аутентификацией с использованием действительных учетных записей"),
    Description("Process Injection",
                "process injection",
                "внедрением в процессы")
  ]

  /** `TECHNIQUE_DESC[key][lang]`: a language other than "en" and "ru" is a KeyError (None). */
  function InLang(d: Description, lang: string): (r: Option<string>)
    ensures r.Some? <==> lang == "en" || lang == "ru"
  {
    if lang == "en" then Some(d.en) else if lang == "ru" then Some(d.ru) else None
  }

  function DefaultDescription(lang: string): string {
    if lang == "ru" then "подозрительной активностью" else "suspicious activity"
  }

  /** Entry `i` is the first whose key occurs in the technique. */
  predicate FirstKeyAt(table: seq<Description>, technique: string, i: int) {
    0 <= i < |table| && Contains(technique, table[i].key)
    && forall j :: 0 <= j < i ==> !Contains(technique, table[j].key)
  }

  /** No key of the table occurs in the technique. */
  predicate NoKey(table: seq<Description>, technique: string) {
    forall j :: 0 <= j < |table| ==> !Contains(technique, table[j].key)
  }

  /** The index of the first entry whose key occurs in the technique. */
  function FirstKey(table: seq<Description>, technique: string): (r: Option<nat>)
    ensures r.Some? ==> FirstKeyAt(table, technique, r.value)
    ensures r.None? <==> NoKey(table, technique)
  {
    if |table| == 0 then None
    else if Contains(technique, table[0].key) then Some(0)
    else
      assert forall j :: 1 <= j < |table| ==> table[1..][j - 1] == table[j];
      match FirstKey(table[1..], technique)
      case None => None
      case Some(i) => Some(i + 1)
  }

  /** `get_technique_description(technique, lang)`; None is the KeyError of an unknown language. */
  function TechniqueDescription(technique: string, lang: string): (r: Option<string>)
    ensures forall i :: FirstKeyAt(TechniqueDesc, technique, i) ==> r == InLang(TechniqueDesc[i], lang)
    ensures NoKey(TechniqueDesc, technique) ==> r == Some(DefaultDescription(lang))
    ensures lang == "en" || lang == "ru" ==> r.Some?
  {
    match FirstKey(TechniqueDesc, technique)
    case Some(i) =>
      assert forall k :: FirstKeyAt(TechniqueDesc, technique, k) ==> k == i;
      InLang(TechniqueDesc[i], lang)
    case None => Some(DefaultDescription(lang))
  }

  /** A technique name that starts with a key and contains no earlier key gets that key's entry. */
  lemma {:induction false} PrefixKeyWins(technique: string, i: nat, lang: string)
    requires i < |TechniqueDesc| && StartsWith(technique, TechniqueDesc[i].key)
    requires forall j :: 0 <= j < i ==> !Contains(technique, TechniqueDesc[j].key)
    ensures TechniqueDescription(technique, lang) == InLang(TechniqueDesc[i], lang)
  {
    assert IsAt(technique, TechniqueDesc[i].key, 0);
    assert FirstKeyAt(TechniqueDesc, technique, i);
  }

  /** A sub-technique of credential dumping gets the parent technique's description. */
  lemma LsassGetsParentDescription()
    ensures TechniqueDescription(LsassMemory, "en") == Some("credential dumping from operating system")
    ensures TechniqueDescription(LsassMemory, "ru") == Some("извлечением учетных данных из операционной системы")
  {
    LsassMissesFirstKey();
    PrefixKeyWins(LsassMemory, 1, "en");
    PrefixKeyWins(LsassMemory, 1, "ru");
  }

  const LsassMemory := "OS Credential Dumping: LSASS Memory"

  lemma LsassMissesFirstKey()
    ensures !Contains(LsassMemory, TechniqueDesc[0].key)
  {
    var t, key := LsassMemory, TechniqueDesc[0].key;
    forall k | 0 <= k <= |t| - |key| ensures !IsAt(t, key, k) {
      assert t[k..k + |key|][0] == t[k];
    }
  }

  /** The "Unknown" technique used when answers.json names none matches no key. */
  lemma UnknownGetsDefault(lang: string)
    ensures TechniqueDescription("Unknown", lang) == Some(DefaultDescription(lang))
  {
    assert NoKey(TechniqueDesc, "Unknown");
  }

  /* ------------------------------------------------------------ str.format */

  predicate BraceFree(s: string) {
    forall i :: 0 <= i < |s| ==> s[i] != '{' && s[i] != '}'
  }

  /** The index of the first `}` in `t`, or -1. */
  function CloseBrace(t: string): (r: int)
    ensures -1 <= r < |t|
    ensures r >= 0 ==> t[r] == '}'
    ensures forall j :: 0 <= j < |t| && (r < 0 || j < r) ==> t[j] != '}'
  {
    if |t| == 0 then -1
    else if t[0] == '}' then 0
    else
      var k := CloseBrace(t[1..]);
      if k < 0 then -1 else k + 1
  }

  function Prepend(s: string, r: Option<string>): Option<string> {
    match r
    case None => None
    case Some(x) => Some(s + x)
  }

  /**
   `template.format(**args)` for templates whose fields are plain names; None is
   the ValueError of a stray brace or the KeyError of a missing argument.
   */
  function Format(t: string, args: map<string, string>): (r: Option<string>)
    decreases |t|
  {
    if |t| == 0 then Some("")
    else if t[0] == '{' && |t| >= 2 && t[1] == '{' then Prepend("{", Format(t[2..], args))
    else if t[0] == '{' then
      var k := CloseBrace(t[1..]);
      if k < 0 then None
      else
        var name := t[1..k + 1];
        if !BraceFree(name) || name !in args then None
        else Prepend(args[name], Format(t[k + 2..], args))
    else if t[0] == '}' && |t| >= 2 && t[1] == '}' then Prepend("}", Format(t[2..], args))
    else if t[0] == '}' then None
    else Prepend([t[0]], Format(t[1..], args))
  }

  /** Text without braces is copied. */
  lemma {:induction false} FormatLiteral(s: string, rest: string, args: map<string, string>)
    requires BraceFree(s)
    ensures Format(s + rest, args) == Prepend(s, Format(rest, args))
    decreases |s|
  {
    if |s| > 0 {
      assert (s + rest)[1..] == s[1..] + rest;
      FormatLiteral(s[1..], rest, args);
      assert (s + rest)[0] == s[0];
      match Format(rest, args)
      case None =>
      case Some(x) =>
        assert [s[0]] + (s[1..] + x) == s + x;
    } else {
      assert s + rest == rest;
      match Format(rest, args)
      case None =>
      case Some(x) =>
        assert s + x == x;
    }
  }

  /** A field `{name}` is replaced by its argument. */
  lemma FormatField(name: string, rest: string, args: map<string, string>)
    requires BraceFree(name) && name in args
    ensures Format("{" + name + "}" + rest, args) == Prepend(args[name], Format(rest, args))
  {
    var t := "{" + name + "}" + rest;
    var k := CloseBrace(t[1..]);
    assert t[1..][|name|] == '}';
    assert k == |name|;
    assert t[1..k + 1] == name;
    assert t[k + 2..] == rest;
  }

  /** `{{name}}` renders as `{name}`. */
  lemma FormatEscaped(name: string, rest: string, args: map<string, string>)
    requires BraceFree(name)
    ensures Format("{{" + name + "}}" + rest, args) == Prepend("{" + name + "}", Format(rest, args))
  {
    var t := "{{" + name + "}}" + rest;
    assert t[2..] == name + ("}}" + rest);
    FormatLiteral(name, "}}" + rest, args);
    var u := "}}" + rest;
    assert u[2..] == rest;
    match Format(rest, args)
    case None =>
    case Some(x) =>
      assert "{" + (name + ("}" + x)) == "{" + name + "}" + x;
  }

  /* -------------------------------------------------------------- templates */

  /** A template as written: literal text, `{name}` fields and `{{name}}` escapes. */
  datatype Part = Literal(text: string) | Field(name: string) | Escaped(name: string)

  predicate PartOk(p: Part) {
    match p
    case Literal(s) => BraceFree(s)
    case Field(n) => BraceFree(n)
    case Escaped(n) => BraceFree(n)
  }

  function SourcePart(p: Part): string {
    match p
    case Literal(s) => s
    case Field(n) => "{" + n + "}"
    case Escaped(n) => "{{" + n + "}}"
  }

  /** The template's source text. */
  function Source(parts: seq<Part>): string {
    if |parts| == 0 then "" else SourcePart(parts[0]) + Source(parts[1..])
  }

  /** `{name}`, as an escape renders. */
  function Braced(name: string): string {
    "{" + name + "}"
  }

  function FillPart(p: Part, args: map<string, string>): string {
    match p
    case Literal(s) => s
    case Field(n) => if n in args then args[n] else ""
    case Escaped(n) => Braced(n)
  }

  /** What the template should render to: fields replaced, escapes shown with single braces. */
  function Fill(parts: seq<Part>, args: map<string, string>): string {
    if |parts| == 0 then "" else FillPart(parts[0], args) + Fill(parts[1..], args)
  }

  /** The strings of a list, concatenated: `"".join(xs)`. */
  function Concat(xs: seq<string>): string {
    if |xs| == 0 then "" else xs[0] + Concat(xs[1..])
  }

  /** Filling a template concatenates what each part renders to. */
  lemma {:induction false} FillIsConcat(parts: seq<Part>, args: map<string, string>)
    ensures Fill(parts, args) == Concat(seq(|parts|, i requires 0 <= i < |parts| => FillPart(parts[i], args)))
    decreases |parts|
  {
    if |parts| > 0 {
      FillIsConcat(parts[1..], args);
      var xs := seq(|parts|, i requires 0 <= i < |parts| => FillPart(parts[i], args));
      assert xs[1..] == seq(|parts| - 1, i requires 0 <= i < |parts| - 1 => FillPart(parts[1..][i], args));
    }
  }

  lemma {:induction false} FillAppend(p: seq<Part>, q: seq<Part>, args: map<string, string>)
    ensures Fill(p + q, args) == Fill(p, args) + Fill(q, args)
    decreases |p|
  {
    if |p| > 0 {
      assert (p + q)[0] == p[0];
      assert (p + q)[1..] == p[1..] + q;
      FillAppend(p[1..], q, args);
    } else {
      assert p + q == q;
    }
  }

  lemma FillCons(p: Part, rest: seq<Part>, args: map<string, string>)
    ensures Fill([p] + rest, args) == FillPart(p, args) + Fill(rest, args)
  {
    assert ([p] + rest)[1..] == rest;
  }

  /** `str.format` renders a well-formed template's source as the template intends. */
  lemma {:induction false} FormatSource(parts: seq<Part>, args: map<string, string>)
    requires Renderable(parts, args)
    ensures Format(Source(parts), args) == Some(Fill(parts, args))
    decreases |parts|
  {
    if |parts| > 0 {
      assert PartOk(parts[0]);
      FormatSource(parts[1..], args);
      assert parts == [parts[0]] + parts[1..];
      FillCons(parts[0], parts[1..], args);
      var rest := Source(parts[1..]);
      match parts[0]
      case Literal(s) =>
        FormatLiteral(s, rest, args);
      case Field(n) =>
        FormatField(n, rest, args);
      case Escaped(n) =>
        FormatEscaped(n, rest, args);
      assert Braced(n) == "{" + n + "}";
    }
  }

  const DescField := "technique_desc"
  const NameField := "corr_name"

  /** The first line of the English file. */
  const EnHead: seq<Part> := [
    Literal("Description: 'The rule detects "), Field(DescField),
    Literal(" activity based on Windows security events'\n")]

  /** The first line of the Russian file. */
  const RuHead: seq<Part> := [
    Literal("Description: 'Правило обнаруживает активность связанную с "), Field(DescField),
    Literal(" на основе событий безопасности Windows'\n")]

  /** The lines naming the localisation id, shared by both languages. */
  const IdLines: seq<Part> := [
    Literal("EventDescriptions:\n    - LocalizationId: 'corrname_"), Field(NameField), Literal("'\n")]

  const EnEvent: seq<Part> := [
    Literal("      EventDescription: 'User "), Escaped("subject.account.name"),
    Literal(" executed "), Escaped("subject.process.name"),
    Literal(" with command "), Escaped("subject.process.cmdline"),
    Literal(" on host "), Escaped("event_src.hostname"), Literal("'\n")]

  const RuEvent: seq<Part> := [
    Literal("      EventDescription: 'Пользователь "), Escaped("subject.account.name"),
    Literal(" выполнил процесс "), Escaped("subject.process.name"),
    Literal(" с командой "), Escaped("subject.process.cmdline"),
    Literal(" на узле "), Escaped("event_src.hostname"), Literal("'\n")]

  /** EN_TEMPLATE, whose source text is `Source(EnTemplate)`. */
  const EnTemplate := EnHead + IdLines + EnEvent

  /** RU_TEMPLATE, whose source text is `Source(RuTemplate)`. */
  const RuTemplate := RuHead + IdLines + RuEvent

  function Args(desc: string, corrName: string): (a: map<string, string>)
    ensures DescField in a && NameField in a
  {
    map[DescField := desc, NameField := corrName]
  }

  /* -------------------------------------------------------- generated files */

  /** The lines naming the localisation id, `corrname_` and the correlation directory's name. */
  function IdText(corrName: string): string {
    Concat(["EventDescriptions:\n    - LocalizationId: 'corrname_", corrName, "'\n"])
  }

  const EnEventText := Concat([
    "      EventDescription: 'User ", Braced("subject.account.name"), " executed ", Braced("subject.process.name"),
    " with command ", Braced("subject.process.cmdline"), " on host ", Braced("event_src.hostname"), "'\n"])

  const RuEventText := Concat([
    "      EventDescription: 'Пользователь ", Braced("subject.account.name"), " выполнил процесс ",
    Braced("subject.process.name"), " с командой ", Braced("subject.process.cmdline"), " на узле ",
    Braced("event_src.hostname"), "'\n"])

  /** The first line of the English file. */
  function EnHeadText(desc: string): string {
    Concat(["Description: 'The rule detects ", desc, " activity based on Windows security events'\n"])
  }

  /** The first line of the Russian file. */
  function RuHeadText(desc: string): string {
    Concat(["Description: 'Правило обнаруживает активность связанную с ", desc,
            " на основе событий безопасности Windows'\n"])
  }

  lemma PartsFill(parts: seq<Part>, a: map<string, string>, texts: seq<string>)
    requires |parts| == |texts|
    requires forall i :: 0 <= i < |parts| ==> FillPart(parts[i], a) == texts[i]
    ensures Fill(parts, a) == Concat(texts)
  {
    FillIsConcat(parts, a);
    assert seq(|parts|, i requires 0 <= i < |parts| => FillPart(parts[i], a)) == texts;
  }

  /** Every part is well formed and every field has an argument. */
  predicate Renderable(parts: seq<Part>, args: map<string, string>) {
    forall i :: 0 <= i < |parts| ==> PartOk(parts[i]) && (parts[i].Field? ==> parts[i].name in args)
  }

  lemma IdLinesFill(a: map<string, string>)
    requires NameField in a
    ensures Fill(IdLines, a) == IdText(a[NameField])
  {
    PartsFill(IdLines, a, ["EventDescriptions:\n    - LocalizationId: 'corrname_", a[NameField], "'\n"]);
  }

  /** `EN_TEMPLATE.format(technique_desc=desc, corr_name=corrName)`. */
  function EnFile(desc: string, corrName: string): string {
    Fill(EnTemplate, Args(desc, corrName))
  }

  /** `RU_TEMPLATE.format(technique_desc=desc, corr_name=corrName)`. */
  function RuFile(desc: string, corrName: string): string {
    Fill(RuTemplate, Args(desc, corrName))
  }

  /** The English file: the description line, the id lines, and the event line with its placeholders in single braces. */
  lemma EnFileText(desc: string, corrName: string)
    ensures EnFile(desc, corrName) == EnHeadText(desc) + IdText(corrName) + EnEventText
  {
    var a := Args(desc, corrName);
    PartsFill(EnHead, a, ["Description: 'The rule detects ", desc, " activity based on Windows security events'\n"]);
    PartsFill(EnEvent, a, [
      "      EventDescription: 'User ", Braced("subject.account.name"), " executed ", Braced("subject.process.name"),
      " with command ", Braced("subject.process.cmdline"), " on host ", Braced("event_src.hostname"), "'\n"]);
    IdLinesFill(a);
    FillAppend(EnHead + IdLines, EnEvent, a);
    FillAppend(EnHead, IdLines, a);
  }

  /** The Russian file: the description line, the id lines, and the event line with its placeholders in single braces. */
  lemma RuFileText(desc: string, corrName: string)
    ensures RuFile(desc, corrName) == RuHeadText(desc) + IdText(corrName) + RuEventText
  {
    var a := Args(desc, corrName);
    PartsFill(RuHead, a, ["Description: 'Правило обнаруживает активность связанную с ", desc,
                          " на основе событий безопасности Windows'\n"]);
    PartsFill(RuEvent, a, [
      "      EventDescription: 'Пользователь ", Braced("subject.account.name"), " выполнил процесс ",
      Braced("subject.process.name"), " с командой ", Braced("subject.process.cmdline"), " на узле ",
      Braced("event_src.hostname"), "'\n"]);
    IdLinesFill(a);
    FillAppend(RuHead + IdLines, RuEvent, a);
    FillAppend(RuHead, IdLines, a);
  }

  /* ------------------------------------------------- techniques as JSON */

  /** Entry `i` is the first whose key is `in` the technique value. */
  predicate FirstKeyInAt(table: seq<Description>, technique: Json, i: int) {
    0 <= i < |table| && In(table[i].key, technique) == Some(true)
    && forall j :: 0 <= j < i ==> In(table[j].key, technique) == Some(false)
  }

  /** No key of the table is `in` the technique value, and testing raised nothing. */
  predicate NoKeyIn(table: seq<Description>, technique: Json) {
    forall j :: 0 <= j < |table| ==> In(table[j].key, technique) == Some(false)
  }

  /**
   The index of the first entry whose key is `in` the technique value
   answers.json holds: a substring of a string, an element of a list, a
   key of an object.
   */
  function FirstKeyIn(table: seq<Description>, technique: Json): (r: Option<nat>)
    requires technique.Str? || technique.Arr? || technique.Obj?
    ensures r.Some? ==> FirstKeyInAt(table, technique, r.value)
    ensures r.None? <==> NoKeyIn(table, technique)
    ensures technique.Str? ==> r == FirstKey(table, technique.s)
  {
    if |table| == 0 then None
    else if In(table[0].key, technique) == Some(true) then Some(0)
    else
      assert forall j :: 1 <= j < |table| ==> table[1..][j - 1] == table[j];
      match FirstKeyIn(table[1..], technique)
      case None => None
      case Some(i) => Some(i + 1)
  }

  /**
   `get_technique_description` on whatever JSON value the technique is,
   over a description table. None is an uncaught error: the `TypeError` of
   `key in technique` for `null`, a boolean or a number (raised at the
   first key), or the `KeyError` of a language other than "en" and "ru".
   */
  function DescriptionIn(table: seq<Description>, technique: Json, lang: string): (r: Option<string>)
    ensures |table| > 0 && (lang == "en" || lang == "ru") ==>
              (r.None? <==> technique.Null? || technique.Bool? || technique.Num?)
    ensures forall i :: FirstKeyInAt(table, technique, i) ==> r == InLang(table[i], lang)
    ensures NoKeyIn(table, technique) ==> r == Some(DefaultDescription(lang))
  {
    if technique.Null? || technique.Bool? || technique.Num? then
      if |table| > 0 then
        assert !FirstKeyInAt(table, technique, 0) && !NoKeyIn(table, technique);
        None
      else Some(DefaultDescription(lang))
    else
      match FirstKeyIn(table, technique)
      case Some(i) =>
        assert forall k :: FirstKeyInAt(table, technique, k) ==> k == i;
        InLang(table[i], lang)
      case None => Some(DefaultDescription(lang))
  }

  /** The descriptions of generate_i18n.py's table. */
  function DescriptionOf(technique: Json, lang: string): (r: Option<string>)
    ensures lang == "en" || lang == "ru" ==> (r.None? <==> technique.Null? || technique.Bool? || technique.Num?)
  {
    DescriptionIn(TechniqueDesc, technique, lang)
  }

  /** A technique that is a string is described as the name it holds. */
  lemma DescriptionOfString(technique: string, lang: string)
    ensures DescriptionOf(Str(technique), lang) == TechniqueDescription(technique, lang)
  {
    match FirstKey(TechniqueDesc, technique)
    case Some(i) =>
      assert FirstKeyInAt(TechniqueDesc, Str(technique), i);
    case None =>
      assert NoKeyIn(TechniqueDesc, Str(technique));
  }

  /** `answers.get("technique", "Unknown")`. */
  function TechniqueOf(answers: map<string, Json>): (r: Json)
    ensures "technique" in answers ==> r == answers["technique"]
    ensures "technique" !in answers ==> r == Str("Unknown")
  {
    if "technique" in answers then answers["technique"] else Str("Unknown")
  }

  datatype I18nOutcome =
    | I18nExists           // the i18n directory is left as it is
    | NoAnswers            // there is no answers.json to read
    | Crashed              // an uncaught error, before the i18n directory is created
    | Generated(en: string, ru: string)

  /**
   `generate_i18n`, with the existence of the i18n directory and the
   content of answers.json as inputs: `None` when there is no file,
   `Some(None)` when `json.load` fails on it, `Some(Some(j))` for the
   decoded value `j`.
   */
  function GenerateI18n(i18nExists: bool, answers: Option<Option<Json>>, corrName: string): (r: I18nOutcome)
    ensures r == I18nExists <==> i18nExists
    ensures r == NoAnswers <==> !i18nExists && answers.None?
    ensures r == Crashed <==>
              !i18nExists && answers.Some? &&
              (answers.value.None? || !answers.value.value.Obj? ||
               var t := TechniqueOf(answers.value.value.fields); t.Null? || t.Bool? || t.Num?)
    ensures r.Generated? ==>
              answers.Some? && answers.value.Some? && answers.value.value.Obj? &&
              var t := TechniqueOf(answers.value.value.fields);
              && DescriptionOf(t, "en").Some? && DescriptionOf(t, "ru").Some?
              && r.en == EnFile(DescriptionOf(t, "en").value, corrName)
              && r.ru == RuFile(DescriptionOf(t, "ru").value, corrName)
  {
    if i18nExists then I18nExists
    else if answers.None? then NoAnswers
    else if answers.value.None? || !answers.value.value.Obj? then Crashed
    else
      var technique := TechniqueOf(answers.value.value.fields);
      var en, ru := DescriptionOf(technique, "en"), DescriptionOf(technique, "ru");
      if en.None? || ru.None? then Crashed
      else Generated(EnFile(en.value, corrName), RuFile(ru.value, corrName))
  }

  /** An answers object whose technique is a string gets the descriptions of that name. */
  lemma StringTechniqueGenerates(fields: map<string, Json>, technique: string, corrName: string)
    requires "technique" in fields && fields["technique"] == Str(technique)
    ensures GenerateI18n(false, Some(Some(Obj(fields))), corrName) ==
              Generated(EnFile(TechniqueDescription(technique, "en").value, corrName),
                        RuFile(TechniqueDescription(technique, "ru").value, corrName))
  {
    DescriptionOfString(technique, "en");
    DescriptionOfString(technique, "ru");
  }

  /** A list-valued technique holding a key as an element gets that key's entry. */
  lemma ListTechniqueElement()
    ensures DescriptionOf(Arr([Str("Process Injection")]), "en") == Some("process injection")
  {
    var t := Arr([Str("Process Injection")]);
    forall j | 0 <= j < 9 ensures In(TechniqueDesc[j].key, t) == Some(false) {
      assert |TechniqueDesc[j].key| != |"Process Injection"|;
    }
    assert FirstKeyInAt(TechniqueDesc, t, 9);
  }

  /** A list element that merely contains a key does not match it: the default applies. */
  lemma ListTechniqueNoSubstring()
    ensures DescriptionOf(Arr([Str("Process Injection: DLL")]), "en") == Some("suspicious activity")
  {
    var t := Arr([Str("Process Injection: DLL")]);
    forall j | 0 <= j < |TechniqueDesc| ensures In(TechniqueDesc[j].key, t) == Some(false) {
      assert |TechniqueDesc[j].key| != |"Process Injection: DLL"|;
    }
    assert NoKeyIn(TechniqueDesc, t);
  }

  /** answers.json holding a bare string, as the string reply "tactic technique" is saved, stops the script. */
  lemma StringAnswersCrash(corrName: string)
    ensures GenerateI18n(false, Some(Some(Str("tactic technique"))), corrName) == Crashed
  {
  }

  /** Both files carry the same localisation id, `corrname_` and the directory's name. */
  lemma SameLocalizationId(enDesc: string, ruDesc: string, corrName: string)
    ensures Contains(EnFile(enDesc, corrName), IdText(corrName))
    ensures Contains(RuFile(ruDesc, corrName), IdText(corrName))
  {
    EnFileText(enDesc, corrName);
    RuFileText(ruDesc, corrName);
    ContainsInfix(EnHeadText(enDesc), IdText(corrName), EnEventText);
    ContainsInfix(RuHeadText(ruDesc), IdText(corrName), RuEventText);
  }

  /** Without a technique in answers.json, both files use the default descriptions. */
  lemma MissingTechniqueUsesDefault(answers: map<string, Json>)
    requires "technique" !in answers
    ensures DescriptionOf(TechniqueOf(answers), "en") == Some("suspicious activity")
    ensures DescriptionOf(TechniqueOf(answers), "ru") == Some("подозрительной активностью")
  {
    UnknownGetsDefault("en");
    UnknownGetsDefault("ru");
  }
}
