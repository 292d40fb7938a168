/**
 The event normaliser of process_correlations.py (`EventNormalizer`): a raw
 Windows event, a System block plus a list of Name/text `Data` items, becomes
 a flat record from SIEM field names to lower-cased strings.

 The record is a map from the enumeration `Key`; `KeyName` gives each key's
 dotted SIEM name. Every JSON field the source reads with `.get(name, "")` is a
 string here, the empty string standing for a missing field.
 */
module Normalizer {
  import opened Wrappers
  import opened Text

  /* -------------------------------------------------------------- schema */

  datatype Key =
    | Time
    | EventSrcTitle | EventSrcSubsys | EventSrcVendor | EventSrcHostname | EventSrcId | EventSrcCategory
    | SubjectAccountDomain | SubjectAccountName | SubjectAccountId | SubjectAccountSessionId
    | SubjectProcessFullpath | SubjectProcessPath | SubjectProcessName
    | SubjectProcessOriginalName | SubjectProcessVersion | SubjectProcessCmdline
    | SubjectProcessId | SubjectProcessGuid | SubjectProcessCwd
    | SubjectProcessHashMd5 | SubjectProcessHashSha1 | SubjectProcessHashSha256 | SubjectProcessHashImphash
    | SubjectProcessMeta
    | SubjectProcessParentFullpath | SubjectProcessParentPath | SubjectProcessParentName
    | SubjectProcessParentCmdline | SubjectProcessParentId | SubjectProcessParentGuid
    | ObjectProcessFullpath | ObjectProcessPath | ObjectProcessName
    | DstIp | DstPort | DstHostname
    | ObjectPath
    | ObjectAccountName | ObjectAccountDomain | ObjectAccountId
    | LogonType | SrcHostname | SrcIp
    | ObjectValue

  /** The dotted SIEM field name written to `norm_fields_i_j.json`. */
  function KeyName(k: Key): string {
    match k
    case Time => "time"
    case EventSrcTitle => "event_src.title"
    case EventSrcSubsys => "event_src.subsys"
    case EventSrcVendor => "event_src.vendor"
    case EventSrcHostname => "event_src.hostname"
    case EventSrcId => "event_src.id"
    case EventSrcCategory => "event_src.category"
    case SubjectAccountDomain => "subject.account.domain"
    case SubjectAccountName => "subject.account.name"
    case SubjectAccountId => "subject.account.id"
    case SubjectAccountSessionId => "subject.account.session_id"
    case SubjectProcessFullpath => "subject.process.fullpath"
    case SubjectProcessPath => "subject.process.path"
    case SubjectProcessName => "subject.process.name"
    case SubjectProcessOriginalName => "subject.process.original_name"
    case SubjectProcessVersion => "subject.process.version"
    case SubjectProcessCmdline => "subject.process.cmdline"
    case SubjectProcessId => "subject.process.id"
    case SubjectProcessGuid => "subject.process.guid"
    case SubjectProcessCwd => "subject.process.cwd"
    case SubjectProcessHashMd5 => "subject.process.hash.md5"
    case SubjectProcessHashSha1 => "subject.process.hash.sha1"
    case SubjectProcessHashSha256 => "subject.process.hash.sha256"
    case SubjectProcessHashImphash => "subject.process.hash.imphash"
    case SubjectProcessMeta => "subject.process.meta"
    case SubjectProcessParentFullpath => "subject.process.parent.fullpath"
    case SubjectProcessParentPath => "subject.process.parent.path"
    case SubjectProcessParentName => "subject.process.parent.name"
    case SubjectProcessParentCmdline => "subject.process.parent.cmdline"
    case SubjectProcessParentId => "subject.process.parent.id"
    case SubjectProcessParentGuid => "subject.process.parent.guid"
    case ObjectProcessFullpath => "object.process.fullpath"
    case ObjectProcessPath => "object.process.path"
    case ObjectProcessName => "object.process.name"
    case DstIp => "dst.ip"
    case DstPort => "dst.port"
    case DstHostname => "dst.hostname"
    case ObjectPath => "object.path"
    case ObjectAccountName => "object.account.name"
    case ObjectAccountDomain => "object.account.domain"
    case ObjectAccountId => "object.account.id"
    case LogonType => "logon_type"
    case SrcHostname => "src.hostname"
    case SrcIp => "src.ip"
    case ObjectValue => "object.value"
  }

  type Record = map<Key, string>

  /** The `Data` list flattened to a dictionary from item `Name` to item `text`. */
  type EventData = map<string, string>

  /**
   The System block: `TimeCreated.SystemTime`, `Provider.Name`, `Computer`,
   `EventID` (as `str(EventID)`) and `Channel`; "" when missing or, for the
   two nested ones, when the enclosing value is not an object.
   */
  datatype System = System(systemTime: string, providerName: string, computer: string,
                           eventId: string, channel: string)

  /** One element of `EventData.Data`: an object with `Name` and `text`, or anything else. */
  datatype DataItem = Named(name: string, text: string) | NotAnObject

  /**
   A raw event. `data` is None when `EventData` is not an object or its `Data`
   is not a list; the field processors run only when it is Some.
   */
  datatype Event = Event(system: System, data: Option<seq<DataItem>>)

  /* ------------------------------------------------------- record algebra */

  /** The value the record holds under `k`, if any. */
  function Lookup(m: Record, k: Key): Option<string> {
    if k in m then Some(m[k]) else None
  }

  /** A later write over an earlier one: the later wins whenever it writes at all. */
  function First(later: Option<string>, earlier: Option<string>): Option<string> {
    if later.Some? then later else earlier
  }

  /** What a source field contributes: its lower-cased text, or nothing when it is empty. */
  function FieldValue(v: string): Option<string> {
    if |v| == 0 then None else Some(Lower(v))
  }

  /** `if v: normalized[key] = v.lower()`: only `key` changes, and only when `v` is non-empty. */
  function Put(m: Record, key: Key, v: string): (r: Record)
    ensures forall k :: Lookup(r, k) == if k == key then First(FieldValue(v), Lookup(m, k)) else Lookup(m, k)
  {
    if |v| == 0 then m else m[key := Lower(v)]
  }

  /** Writes `o`'s value into `key` when `o` is Some. */
  function SetKey(m: Record, key: Key, o: Option<string>): (r: Record)
    ensures forall k :: Lookup(r, k) == if k == key then First(o, Lookup(m, k)) else Lookup(m, k)
  {
    if o.Some? then m[key := o.value] else m
  }

  /** `data.get(name, "")`. */
  function Field(d: EventData, name: string): string {
    if name in d then d[name] else ""
  }

  /** Python's `a or b` on two strings. */
  function OrElse(a: string, b: string): string {
    if a != "" then a else b
  }

  /* ------------------------------------------------------------ the Data list */

  /** The item is an object carrying the (non-empty) name `n`. */
  predicate NamedAs(item: DataItem, n: string) {
    item.Named? && item.name == n
  }

  /** The index of the last item named `n`, or -1 when there is none. */
  function LastNamed(items: seq<DataItem>, n: string): (r: int)
    ensures -1 <= r < |items|
    ensures r >= 0 ==> NamedAs(items[r], n)
    ensures forall j :: r < j < |items| ==> !NamedAs(items[j], n)
  {
    if |items| == 0 then -1
    else if NamedAs(items[|items| - 1], n) then |items| - 1
    else LastNamed(items[..|items| - 1], n)
  }

  /**
   The loop of process_correlations.py:92-98: items that are objects with a
   non-empty `Name` are entered under that name, a later item overwriting an
   earlier one with the same name.
   */
  function BuildData(items: seq<DataItem>): (d: EventData)
    decreases |items|
    ensures forall n :: n in d <==> n != "" && LastNamed(items, n) >= 0
    ensures forall n :: n in d ==> d[n] == items[LastNamed(items, n)].text
  {
    if |items| == 0 then map[]
    else
      var init := items[..|items| - 1];
      var last := items[|items| - 1];
      var d := BuildData(init);
      if last.Named? && last.name != "" then d[last.name := last.text] else d
  }

  /** `data.get(n, "")` on the flattened list: the text of the last item named `n`, or "". */
  lemma FieldOfItems(items: seq<DataItem>, n: string)
    ensures Field(BuildData(items), n) ==
      if n != "" && LastNamed(items, n) >= 0 then items[LastNamed(items, n)].text else ""
  {
  }

  /** An item that is not an object, or has an empty `Name`, contributes nothing wherever it stands. */
  lemma {:induction false} UnnamedItemIgnored(before: seq<DataItem>, item: DataItem, after: seq<DataItem>)
    requires !(item.Named? && item.name != "")
    ensures BuildData(before + [item] + after) == BuildData(before + after)
    decreases |after|
  {
    if |after| == 0 {
      assert before + [item] + after == before + [item];
      assert (before + [item])[..|before|] == before;
      assert before + after == before;
    } else {
      var init := after[..|after| - 1];
      var last := after[|after| - 1];
      UnnamedItemIgnored(before, item, init);
      assert before + [item] + after == (before + [item] + init) + [last];
      assert (before + [item] + after)[..|before + [item] + after| - 1] == before + [item] + init;
      assert (before + after)[..|before + after| - 1] == before + init;
    }
  }

  /* ------------------------------------------------------------- provider */

  /**
   The subsystem of process_correlations.py:61-71: the lower-cased provider
   name is tested for "sysmon", then "security", then "powershell"; the first
   hit wins and no hit leaves the subsystem out.
   */
  function Subsystem(providerName: string): (r: Option<string>)
    ensures r == Some("sysmon") <==> Contains(Lower(providerName), "sysmon")
    ensures r == Some("security") <==>
      !Contains(Lower(providerName), "sysmon") && Contains(Lower(providerName), "security")
    ensures r == Some("powershell") <==>
      !Contains(Lower(providerName), "sysmon") && !Contains(Lower(providerName), "security") &&
      Contains(Lower(providerName), "powershell")
    ensures r.None? <==>
      !Contains(Lower(providerName), "sysmon") && !Contains(Lower(providerName), "security") &&
      !Contains(Lower(providerName), "powershell")
  {
    var p := Lower(providerName);
    if Contains(p, "sysmon") then Some("sysmon")
    else if Contains(p, "security") then Some("security")
    else if Contains(p, "powershell") then Some("powershell")
    else None
  }

  /** What a provider name contributes to the `event_src` keys. */
  function ProviderValue(providerName: string, k: Key): Option<string> {
    if |providerName| == 0 then None
    else if k == EventSrcTitle then Some(Lower(providerName))
    else if k == EventSrcSubsys then Subsystem(providerName)
    else if k == EventSrcVendor then Some("microsoft")
    else None
  }

  /** process_correlations.py:54-71: title, subsystem and vendor of a non-empty provider name. */
  function PutProvider(m: Record, providerName: string): (r: Record)
    ensures forall k :: Lookup(r, k) == First(ProviderValue(providerName, k), Lookup(m, k))
  {
    if |providerName| == 0 then m
    else
      var titled := m[EventSrcTitle := Lower(providerName)];
      match Subsystem(providerName)
      case Some(s) => titled[EventSrcSubsys := s][EventSrcVendor := "microsoft"]
      case None => titled[EventSrcVendor := "microsoft"]
  }

  /** The keys the System block may produce. */
  const SystemKeys: set<Key> :=
    {Time, EventSrcTitle, EventSrcSubsys, EventSrcVendor, EventSrcHostname, EventSrcId, EventSrcCategory}

  /** The field table for the System block: what it gives key `k`. */
  function SystemValue(sys: System, k: Key): Option<string> {
    if k == Time then FieldValue(sys.systemTime)
    else if k == EventSrcHostname then FieldValue(sys.computer)
    else if k == EventSrcId then FieldValue(sys.eventId)
    else if k == EventSrcCategory then FieldValue(sys.channel)
    else ProviderValue(sys.providerName, k)
  }

  /** process_correlations.py:44-86: the record built from the System block alone. */
  function SystemFields(sys: System): (r: Record)
    ensures forall k :: Lookup(r, k) == SystemValue(sys, k)
  {
    var m0 := Put(map[], Time, sys.systemTime);
    var m1 := PutProvider(m0, sys.providerName);
    var m2 := Put(m1, EventSrcHostname, sys.computer);
    var m3 := Put(m2, EventSrcId, sys.eventId);
    var r := Put(m3, EventSrcCategory, sys.channel);
    assert forall k :: Lookup(r, k) == SystemValue(sys, k) by {
      forall k ensures Lookup(r, k) == SystemValue(sys, k) {
        if k == Time {
        } else if k == EventSrcTitle {
        } else if k == EventSrcSubsys {
        } else if k == EventSrcVendor {
        } else if k == EventSrcHostname {
        } else if k == EventSrcId {
        } else if k == EventSrcCategory {
        }
      }
    }
    r
  }

  /* ------------------------------------------------------- account, paths */

  datatype Account = Account(domain: Option<string>, name: string)

  /**
   process_correlations.py:113-119: a `DOMAIN\user` value splits at its first
   backslash into domain and name; a value without a backslash is only a name.
   */
  function SplitAccount(user: string): (r: Account)
    ensures Contains(user, "\\") ==>
      r.domain.Some? && r.domain.value + "\\" + r.name == Lower(user) && !Contains(r.domain.value, "\\")
    ensures !Contains(user, "\\") ==> r == Account(None, Lower(user))
    ensures IsLower(r.name) && (r.domain.Some? ==> IsLower(r.domain.value))
  {
    if Contains(user, "\\") then
      var (domain, name) := SplitOnce(user, "\\");
      SplitLowerFacts(user, domain, '\\', name);
      Account(Some(Lower(domain)), Lower(name))
    else
      LowerIsLower(user);
      Account(None, Lower(user))
  }

  /** Lower-casing the two sides of a split at a non-letter separator. */
  lemma SplitLowerFacts(s: string, before: string, sep: char, after: string)
    requires before + [sep] + after == s
    requires sep == '\\' || sep == '/'
    ensures Lower(before) + [sep] + Lower(after) == Lower(s)
    ensures IsLower(Lower(before)) && IsLower(Lower(after)) && IsLower(Lower(before) + [sep])
    ensures Contains(Lower(before), [sep]) <==> Contains(before, [sep])
    ensures Contains(Lower(after), [sep]) <==> Contains(after, [sep])
  {
    LowerAround(before, sep, after);
    LowerIsLower(before);
    LowerIsLower(after);
    IsLowerAppend(Lower(before), [sep]);
    LowerKeepsChar(before, sep);
    LowerKeepsChar(after, sep);
  }

  datatype PathParts = PathParts(dir: Option<string>, name: string)

  /** The separator an executable path is split at: backslash when it has one, else slash. */
  function Separator(image: string): char {
    if Contains(image, "\\") then '\\' else '/'
  }

  /**
   process_correlations.py:122-132: a path holding a backslash or a slash
   splits at the last separator (backslash preferred); the directory keeps the
   separator, so directory and name put back together give the whole path.
   */
  function SplitPath(image: string): (r: PathParts)
    ensures r.dir.Some? <==> Contains(image, "\\") || Contains(image, "/")
    ensures r.dir.Some? ==> r.dir.value + r.name == Lower(image)
    ensures r.dir.Some? ==> EndsWith(r.dir.value, [Separator(image)])
    ensures r.dir.None? ==> r.name == Lower(image)
    ensures !Contains(r.name, [Separator(image)])
    ensures IsLower(r.name) && (r.dir.Some? ==> IsLower(r.dir.value))
  {
    if Contains(image, "\\") || Contains(image, "/") then
      var sep := Separator(image);
      var (before, after) := RSplitOnce(image, [sep]);
      SplitLowerFacts(image, before, sep, after);
      PathParts(Some(Lower(before) + [sep]), Lower(after))
    else
      LowerIsLower(image);
      LowerKeepsChar(image, '/');
      PathParts(None, Lower(image))
  }

  /** The three keys of one executable path: full path, directory, file name. */
  datatype PathKeys = PathKeys(full: Key, dir: Key, name: Key)

  const ProcessPathKeys := PathKeys(SubjectProcessFullpath, SubjectProcessPath, SubjectProcessName)
  const ParentPathKeys := PathKeys(SubjectProcessParentFullpath, SubjectProcessParentPath, SubjectProcessParentName)
  const TargetPathKeys := PathKeys(ObjectProcessFullpath, ObjectProcessPath, ObjectProcessName)

  /** What a path field contributes to its directory and name keys. */
  function DirValue(image: string): Option<string> {
    if |image| == 0 then None else SplitPath(image).dir
  }

  function NameValue(image: string): Option<string> {
    if |image| == 0 then None else Some(SplitPath(image).name)
  }

  /** A non-empty path gives a name; directory and name put back together give the lower-cased path. */
  lemma ImageParts(image: string)
    ensures NameValue(image).Some? <==> image != ""
    ensures DirValue(image).Some? ==> DirValue(image).value + NameValue(image).value == Lower(image)
    ensures image != "" && DirValue(image).None? ==> NameValue(image) == Some(Lower(image))
    ensures DirValue(image).Some? <==> Contains(image, "\\") || Contains(image, "/")
  {
  }

  /* --------------------------------------------------------------- hashes */

  /** A comma-separated part of a hash list is kept only when it holds "=". */
  predicate IsPair(part: string) {
    Contains(part, "=")
  }

  /** The algorithm of a part: the text before its first "=", stripped and upper-cased. */
  function PairAlgo(part: string): string
    requires IsPair(part)
  {
    Upper(Strip(SplitOnce(part, "=").0))
  }

  /** The hash of a part: the text after its first "=", stripped. */
  function PairValue(part: string): string
    requires IsPair(part)
  {
    Strip(SplitOnce(part, "=").1)
  }

  /** The (algorithm, hash) entries of the parts that hold "=", in order. */
  function HashEntries(parts: seq<string>): (r: seq<(string, string)>)
    ensures |r| <= |parts|
  {
    if |parts| == 0 then []
    else
      var p := parts[|parts| - 1];
      HashEntries(parts[..|parts| - 1]) + (if IsPair(p) then [(PairAlgo(p), PairValue(p))] else [])
  }

  /** The index of the last entry for algorithm `a`, or -1. */
  function LastEntry(entries: seq<(string, string)>, a: string): (r: int)
    ensures -1 <= r < |entries|
    ensures r >= 0 ==> entries[r].0 == a
    ensures forall j :: r < j < |entries| ==> entries[j].0 != a
  {
    if |entries| == 0 then -1
    else if entries[|entries| - 1].0 == a then |entries| - 1
    else LastEntry(entries[..|entries| - 1], a)
  }

  /**
   The `hash_dict` loop of process_correlations.py:309-312: every entry is
   stored under its algorithm, so the last entry naming an algorithm decides
   its value.
   */
  function HashDict(entries: seq<(string, string)>): (h: map<string, string>)
    decreases |entries|
    ensures forall a :: a in h <==> LastEntry(entries, a) >= 0
    ensures forall a :: a in h ==> h[a] == entries[LastEntry(entries, a)].1
  {
    if |entries| == 0 then map[]
    else
      var e := entries[|entries| - 1];
      HashDict(entries[..|entries| - 1])[e.0 := e.1]
  }

  /** `_parse_hashes`' dictionary for a `Hashes` value such as "SHA1=..,MD5=..". */
  function ParseHashes(hashes: string): map<string, string> {
    HashDict(HashEntries(Split(hashes, ",")))
  }

  /** What the hash list contributes to the key of one algorithm. */
  function HashValue(hashes: string, algo: string): Option<string> {
    if hashes != "" && algo in ParseHashes(hashes) then Some(Lower(ParseHashes(hashes)[algo])) else None
  }


  /**
   An algorithm gets a value exactly when some part of the list names it; the
   value is the lower-cased hash of the last such part, possibly empty.
   */
  lemma HashValueLast(hashes: string, algo: string)
    ensures var entries := HashEntries(Split(hashes, ","));
      && (HashValue(hashes, algo).Some? <==> hashes != "" && LastEntry(entries, algo) >= 0)
      && (HashValue(hashes, algo).Some? ==> HashValue(hashes, algo).value == Lower(entries[LastEntry(entries, algo)].1))
  {
  }

  /* ----------------------------------------------------------------- meta */

  const MetaSeparator := " | "

  /** The labelled parts of the metadata string, in order, for the fields that are present. */
  function MetaParts(description: string, product: string, company: string): seq<string> {
    (if description != "" then ["description:" + description] else []) +
    (if product != "" then ["product:" + product] else []) +
    (if company != "" then ["company:" + company] else [])
  }

  /** process_correlations.py:169-180: the parts joined with " | " and lower-cased. */
  function MetaValue(description: string, product: string, company: string): Option<string> {
    if |description| == 0 && |product| == 0 && |company| == 0 then None
    else Some(Lower(Join(MetaParts(description, product, company), MetaSeparator)))
  }

  /**
   The metadata key is written exactly when one of the three fields is set;
   there is one labelled part per set field, in the order description,
   product, company, and a single part is not joined with anything.
   */
  lemma MetaShape(description: string, product: string, company: string)
    ensures MetaValue(description, product, company).None? <==> description == "" && product == "" && company == ""
    ensures |MetaParts(description, product, company)| ==
      (if description != "" then 1 else 0) + (if product != "" then 1 else 0) + (if company != "" then 1 else 0)
    ensures description != "" ==> MetaParts(description, product, company)[0] == "description:" + description
    ensures company != "" ==> MetaParts(description, product, company)[|MetaParts(description, product, company)| - 1] == "company:" + company
    ensures description != "" && product == "" && company == "" ==>
      MetaValue(description, product, company) == Some(Lower("description:" + description))
    ensures description == "" && product != "" && company == "" ==>
      MetaValue(description, product, company) == Some(Lower("product:" + product))
    ensures description == "" && product == "" && company != "" ==>
      MetaValue(description, product, company) == Some(Lower("company:" + company))
  {
    if description != "" && product == "" && company == "" {
      assert MetaParts(description, product, company) == ["description:" + description];
    } else if description == "" && product != "" && company == "" {
      assert MetaParts(description, product, company) == ["product:" + product];
    } else if description == "" && product == "" && company != "" {
      assert MetaParts(description, product, company) == ["company:" + company];
    }
  }

  /**
   Two or three present parts are joined with " | " in the order
   description, product, company, and the whole is lower-cased.
   */
  lemma MetaJoined(description: string, product: string, company: string)
    ensures description != "" && product != "" && company == "" ==>
      MetaValue(description, product, company) == Some(Lower(("description:" + description) + " | " + ("product:" + product)))
    ensures description != "" && product == "" && company != "" ==>
      MetaValue(description, product, company) == Some(Lower(("description:" + description) + " | " + ("company:" + company)))
    ensures description == "" && product != "" && company != "" ==>
      MetaValue(description, product, company) == Some(Lower(("product:" + product) + " | " + ("company:" + company)))
    ensures description != "" && product != "" && company != "" ==>
      MetaValue(description, product, company) ==
        Some(Lower(("description:" + description) + " | " + ("product:" + product) + " | " + ("company:" + company)))
  {
    var d, p, c := "description:" + description, "product:" + product, "company:" + company;
    if description != "" && product != "" && company != "" {
      assert MetaParts(description, product, company) == [d, p, c];
      assert [d, p, c][1..] == [p, c];
      JoinPair(p, c, MetaSeparator);
      assert d + MetaSeparator + (p + MetaSeparator + c) == d + " | " + p + " | " + c;
    } else if description != "" && product != "" && company == "" {
      assert MetaParts(description, product, company) == [d, p];
      JoinPair(d, p, MetaSeparator);
    } else if description != "" && product == "" && company != "" {
      assert MetaParts(description, product, company) == [d, c];
      JoinPair(d, c, MetaSeparator);
    } else if description == "" && product != "" && company != "" {
      assert MetaParts(description, product, company) == [p, c];
      JoinPair(p, c, MetaSeparator);
    }
  }

  /** Two parts are joined with one separator. */
  lemma JoinPair(a: string, b: string, sep: string)
    ensures Join([a, b], sep) == a + sep + b
  {
    assert [a, b][1..] == [b];
  }

  /* ------------------------------------------------------ the Data fields */

  /**
   Every `Data` field a processor reads, each as `data.get(name, "")` gives
   it: the item's text, or "" when no item carries the name.
   */
  datatype DataFields = DataFields(
    user: string,
    image: string,
    originalFileName: string,
    fileVersion: string,
    commandLine: string,
    processId: string,
    processGuid: string,
    currentDirectory: string,
    hashes: string,
    description: string,
    product: string,
    company: string,
    parentImage: string,
    parentCommandLine: string,
    parentProcessId: string,
    parentProcessGuid: string,
    targetImage: string,
    destinationIp: string,
    destinationPort: string,
    destinationHostname: string,
    targetObject: string,
    targetFilename: string,
    targetUserName: string,
    targetDomainName: string,
    targetUserSid: string,
    targetSid: string,
    subjectUserName: string,
    subjectDomainName: string,
    subjectUserSid: string,
    logonType: string,
    targetLogonId: string,
    logonId: string,
    workstationName: string,
    ipAddress: string,
    processName: string,
    scriptBlockText: string,
    hostApplication: string
  )

  /** The `Data` fields of an event whose `EventData.Data` is the list `items`. */
  function EventFields(items: seq<DataItem>): DataFields {
    ReadFields(BuildData(items))
  }

  /** The fields the processors read, looked up in the flattened `Data` list. */
  function ReadFields(d: EventData): DataFields
  {
    DataFields(
      Field(d, "User"),
      Field(d, "Image"),
      Field(d, "OriginalFileName"),
      Field(d, "FileVersion"),
      Field(d, "CommandLine"),
      Field(d, "ProcessId"),
      Field(d, "ProcessGuid"),
      Field(d, "CurrentDirectory"),
      Field(d, "Hashes"),
      Field(d, "Description"),
      Field(d, "Product"),
      Field(d, "Company"),
      Field(d, "ParentImage"),
      Field(d, "ParentCommandLine"),
      Field(d, "ParentProcessId"),
      Field(d, "ParentProcessGuid"),
      Field(d, "TargetImage"),
      Field(d, "DestinationIp"),
      Field(d, "DestinationPort"),
      Field(d, "DestinationHostname"),
      Field(d, "TargetObject"),
      Field(d, "TargetFilename"),
      Field(d, "TargetUserName"),
      Field(d, "TargetDomainName"),
      Field(d, "TargetUserSid"),
      Field(d, "TargetSid"),
      Field(d, "SubjectUserName"),
      Field(d, "SubjectDomainName"),
      Field(d, "SubjectUserSid"),
      Field(d, "LogonType"),
      Field(d, "TargetLogonId"),
      Field(d, "LogonId"),
      Field(d, "WorkstationName"),
      Field(d, "IpAddress"),
      Field(d, "ProcessName"),
      Field(d, "ScriptBlockText"),
      Field(d, "HostApplication")
    )
  }

  /* ------------------------------------------------------- derived values */

  /** What `User` gives the account domain: its part before the first backslash, if any. */
  function UserDomain(user: string): Option<string> {
    if |user| == 0 then None else SplitAccount(user).domain
  }

  /** What `User` gives the account name. */
  function UserName(user: string): Option<string> {
    if |user| == 0 then None else Some(SplitAccount(user).name)
  }

  /** Domain and name of `User` put back together with the backslash give the lower-cased `User`. */
  lemma UserParts(user: string)
    ensures UserName(user).Some? <==> user != ""
    ensures UserDomain(user).Some? <==> Contains(user, "\\")
    ensures UserDomain(user).Some? ==> UserDomain(user).value + "\\" + UserName(user).value == Lower(user)
    ensures user != "" && UserDomain(user).None? ==> UserName(user) == Some(Lower(user))
  {
  }

  /**
   The values the Sysmon processor computes from its fields before writing
   them: the two parts of `User`, directory and file name of the three
   executable paths, the four hashes of `Hashes` and the metadata string;
   each None where the source writes nothing.
   */
  datatype Derived = Derived(
    userDomain: Option<string>, userName: Option<string>,
    imageDir: Option<string>, imageName: Option<string>,
    parentDir: Option<string>, parentName: Option<string>,
    targetDir: Option<string>, targetName: Option<string>,
    md5: Option<string>, sha1: Option<string>, sha256: Option<string>, imphash: Option<string>,
    meta: Option<string>)

  function Derive(x: DataFields): Derived {
    Derived(
      UserDomain(x.user), UserName(x.user),
      DirValue(x.image), NameValue(x.image),
      DirValue(x.parentImage), NameValue(x.parentImage),
      DirValue(x.targetImage), NameValue(x.targetImage),
      HashValue(x.hashes, "MD5"), HashValue(x.hashes, "SHA1"),
      HashValue(x.hashes, "SHA256"), HashValue(x.hashes, "IMPHASH"),
      MetaValue(x.description, x.product, x.company))
  }

  /* ------------------------------------------------------------- sections */

  /*
   Each section of a processor takes the values it writes and has a contract
   `Lookup(r, k) == First(XValue(.., k), Lookup(m, k))` for every key: the
   section writes `XValue(.., k)` into `k` when that is Some and leaves `k`
   as it was otherwise. `XValue` is the section's table.
   */

  function AccountValue(domain: Option<string>, name: Option<string>, k: Key): Option<string> {
    if k == SubjectAccountDomain then domain
    else if k == SubjectAccountName then name
    else None
  }

  /** process_correlations.py:112-119: the domain (when `User` has one), then the name. */
  function SysmonAccount(m: Record, domain: Option<string>, name: Option<string>): (r: Record)
    ensures forall k :: Lookup(r, k) == First(AccountValue(domain, name, k), Lookup(m, k))
  {
    var r := SetKey(SetKey(m, SubjectAccountDomain, domain), SubjectAccountName, name);
    assert forall k :: Lookup(r, k) == First(AccountValue(domain, name, k), Lookup(m, k)) by {
      forall k ensures Lookup(r, k) == First(AccountValue(domain, name, k), Lookup(m, k)) {
        if k == SubjectAccountDomain {
        } else if k == SubjectAccountName {
        }
      }
    }
    r
  }

  function PathValue(ks: PathKeys, image: string, dir: Option<string>, name: Option<string>, k: Key): Option<string> {
    if k == ks.full then FieldValue(image)
    else if k == ks.dir then dir
    else if k == ks.name then name
    else None
  }

  /** The `Image`/`ParentImage`/`TargetImage` blocks: the full path, then directory and file name. */
  function PutPath(m: Record, ks: PathKeys, image: string, dir: Option<string>, name: Option<string>): (r: Record)
    requires ks.full != ks.dir && ks.full != ks.name && ks.dir != ks.name
    ensures forall k :: Lookup(r, k) == First(PathValue(ks, image, dir, name, k), Lookup(m, k))
  {
    var r := SetKey(SetKey(Put(m, ks.full, image), ks.dir, dir), ks.name, name);
    assert forall k :: Lookup(r, k) == First(PathValue(ks, image, dir, name, k), Lookup(m, k)) by {
      forall k ensures Lookup(r, k) == First(PathValue(ks, image, dir, name, k), Lookup(m, k)) {
        if k == ks.full {
        } else if k == ks.dir {
        } else if k == ks.name {
        }
      }
    }
    r
  }

  function ProcessInfoValue(originalFileName: string, fileVersion: string, cmdline: string, k: Key): Option<string> {
    if k == SubjectProcessOriginalName then FieldValue(originalFileName)
    else if k == SubjectProcessVersion then FieldValue(fileVersion)
    else if k == SubjectProcessCmdline then FieldValue(cmdline)
    else None
  }

  /** process_correlations.py:134-147. */
  function SysmonProcessInfo(m: Record, originalFileName: string, fileVersion: string, cmdline: string): (r: Record)
    ensures forall k :: Lookup(r, k) == First(ProcessInfoValue(originalFileName, fileVersion, cmdline, k), Lookup(m, k))
  {
    var r := Put(Put(Put(m, SubjectProcessOriginalName, originalFileName), SubjectProcessVersion, fileVersion),
                 SubjectProcessCmdline, cmdline);
    assert forall k :: Lookup(r, k) == First(ProcessInfoValue(originalFileName, fileVersion, cmdline, k), Lookup(m, k)) by {
      forall k ensures Lookup(r, k) == First(ProcessInfoValue(originalFileName, fileVersion, cmdline, k), Lookup(m, k)) {
        if k == SubjectProcessOriginalName {
        } else if k == SubjectProcessVersion {
        } else if k == SubjectProcessCmdline {
        }
      }
    }
    r
  }

  function ProcessIdsValue(id: string, guid: string, cwd: string, k: Key): Option<string> {
    if k == SubjectProcessId then FieldValue(id)
    else if k == SubjectProcessGuid then FieldValue(guid)
    else if k == SubjectProcessCwd then FieldValue(cwd)
    else None
  }

  /** process_correlations.py:149-161. */
  function SysmonProcessIds(m: Record, id: string, guid: string, cwd: string): (r: Record)
    ensures forall k :: Lookup(r, k) == First(ProcessIdsValue(id, guid, cwd, k), Lookup(m, k))
  {
    var r := Put(Put(Put(m, SubjectProcessId, id), SubjectProcessGuid, guid), SubjectProcessCwd, cwd);
    assert forall k :: Lookup(r, k) == First(ProcessIdsValue(id, guid, cwd, k), Lookup(m, k)) by {
      forall k ensures Lookup(r, k) == First(ProcessIdsValue(id, guid, cwd, k), Lookup(m, k)) {
        if k == SubjectProcessId {
        } else if k == SubjectProcessGuid {
        } else if k == SubjectProcessCwd {
        }
      }
    }
    r
  }

  function HashKeyValue(md5: Option<string>, sha1: Option<string>, sha256: Option<string>, imphash: Option<string>, k: Key): Option<string> {
    if k == SubjectProcessHashMd5 then md5
    else if k == SubjectProcessHashSha1 then sha1
    else if k == SubjectProcessHashSha256 then sha256
    else if k == SubjectProcessHashImphash then imphash
    else None
  }

  /** process_correlations.py:314-321: the four hash keys, in this order. */
  function PutHashes(m: Record, md5: Option<string>, sha1: Option<string>, sha256: Option<string>, imphash: Option<string>): (r: Record)
    ensures forall k :: Lookup(r, k) == First(HashKeyValue(md5, sha1, sha256, imphash, k), Lookup(m, k))
  {
    var r := SetKey(SetKey(SetKey(SetKey(m, SubjectProcessHashMd5, md5), SubjectProcessHashSha1, sha1),
                           SubjectProcessHashSha256, sha256), SubjectProcessHashImphash, imphash);
    assert forall k :: Lookup(r, k) == First(HashKeyValue(md5, sha1, sha256, imphash, k), Lookup(m, k)) by {
      forall k ensures Lookup(r, k) == First(HashKeyValue(md5, sha1, sha256, imphash, k), Lookup(m, k)) {
        if k == SubjectProcessHashMd5 {
        } else if k == SubjectProcessHashSha1 {
        } else if k == SubjectProcessHashSha256 {
        } else if k == SubjectProcessHashImphash {
        }
      }
    }
    r
  }

  function ParentInfoValue(cmdline: string, id: string, guid: string, k: Key): Option<string> {
    if k == SubjectProcessParentCmdline then FieldValue(cmdline)
    else if k == SubjectProcessParentId then FieldValue(id)
    else if k == SubjectProcessParentGuid then FieldValue(guid)
    else None
  }

  /** process_correlations.py:193-204. */
  function SysmonParentInfo(m: Record, cmdline: string, id: string, guid: string): (r: Record)
    ensures forall k :: Lookup(r, k) == First(ParentInfoValue(cmdline, id, guid, k), Lookup(m, k))
  {
    var r := Put(Put(Put(m, SubjectProcessParentCmdline, cmdline), SubjectProcessParentId, id),
                 SubjectProcessParentGuid, guid);
    assert forall k :: Lookup(r, k) == First(ParentInfoValue(cmdline, id, guid, k), Lookup(m, k)) by {
      forall k ensures Lookup(r, k) == First(ParentInfoValue(cmdline, id, guid, k), Lookup(m, k)) {
        if k == SubjectProcessParentCmdline {
        } else if k == SubjectProcessParentId {
        } else if k == SubjectProcessParentGuid {
        }
      }
    }
    r
  }

  function DestinationValue(ip: string, port: string, hostname: string, k: Key): Option<string> {
    if k == DstIp then FieldValue(ip)
    else if k == DstPort then FieldValue(port)
    else if k == DstHostname then FieldValue(hostname)
    else None
  }

  /** process_correlations.py:218-229. */
  function SysmonDestination(m: Record, ip: string, port: string, hostname: string): (r: Record)
    ensures forall k :: Lookup(r, k) == First(DestinationValue(ip, port, hostname, k), Lookup(m, k))
  {
    var r := Put(Put(Put(m, DstIp, ip), DstPort, port), DstHostname, hostname);
    assert forall k :: Lookup(r, k) == First(DestinationValue(ip, port, hostname, k), Lookup(m, k)) by {
      forall k ensures Lookup(r, k) == First(DestinationValue(ip, port, hostname, k), Lookup(m, k)) {
        if k == DstIp {
        } else if k == DstPort {
        } else if k == DstHostname {
        }
      }
    }
    r
  }

  /**
   Both the registry `TargetObject` and the file `TargetFilename` go to
   `object.path`; the file name is written last and so wins when both are set.
   */
  function ObjectPathValue(targetObject: string, targetFilename: string, k: Key): Option<string> {
    if k == ObjectPath then First(FieldValue(targetFilename), FieldValue(targetObject)) else None
  }

  /** process_correlations.py:231-239. */
  function SysmonObjectPath(m: Record, targetObject: string, targetFilename: string): (r: Record)
    ensures forall k :: Lookup(r, k) == First(ObjectPathValue(targetObject, targetFilename, k), Lookup(m, k))
  {
    Put(Put(m, ObjectPath, targetObject), ObjectPath, targetFilename)
  }

  function TargetAccountValue(name: string, domain: string, sid: string, k: Key): Option<string> {
    if k == ObjectAccountName then FieldValue(name)
    else if k == ObjectAccountDomain then FieldValue(domain)
    else if k == ObjectAccountId then FieldValue(sid)
    else None
  }

  /** process_correlations.py:243-254; `sid` is `TargetUserSid or TargetSid`. */
  function SecurityTarget(m: Record, name: string, domain: string, sid: string): (r: Record)
    ensures forall k :: Lookup(r, k) == First(TargetAccountValue(name, domain, sid, k), Lookup(m, k))
  {
    var r := Put(Put(Put(m, ObjectAccountName, name), ObjectAccountDomain, domain), ObjectAccountId, sid);
    assert forall k :: Lookup(r, k) == First(TargetAccountValue(name, domain, sid, k), Lookup(m, k)) by {
      forall k ensures Lookup(r, k) == First(TargetAccountValue(name, domain, sid, k), Lookup(m, k)) {
        if k == ObjectAccountName {
        } else if k == ObjectAccountDomain {
        } else if k == ObjectAccountId {
        }
      }
    }
    r
  }

  function SubjectAccountValue(name: string, domain: string, sid: string, k: Key): Option<string> {
    if k == SubjectAccountName then FieldValue(name)
    else if k == SubjectAccountDomain then FieldValue(domain)
    else if k == SubjectAccountId then FieldValue(sid)
    else None
  }

  /** process_correlations.py:256-267. */
  function SecuritySubject(m: Record, name: string, domain: string, sid: string): (r: Record)
    ensures forall k :: Lookup(r, k) == First(SubjectAccountValue(name, domain, sid, k), Lookup(m, k))
  {
    var r := Put(Put(Put(m, SubjectAccountName, name), SubjectAccountDomain, domain), SubjectAccountId, sid);
    assert forall k :: Lookup(r, k) == First(SubjectAccountValue(name, domain, sid, k), Lookup(m, k)) by {
      forall k ensures Lookup(r, k) == First(SubjectAccountValue(name, domain, sid, k), Lookup(m, k)) {
        if k == SubjectAccountName {
        } else if k == SubjectAccountDomain {
        } else if k == SubjectAccountId {
        }
      }
    }
    r
  }

  /** What `IpAddress` contributes: nothing when it is empty or "-". */
  function IpValue(ip: string): Option<string> {
    if |ip| == 0 || ip == "-" then None else Some(Lower(ip))
  }

  function LogonValue(logonType: string, logonId: string, workstation: string, ip: string, k: Key): Option<string> {
    if k == LogonType then FieldValue(logonType)
    else if k == SubjectAccountSessionId then FieldValue(logonId)
    else if k == SrcHostname then FieldValue(workstation)
    else if k == SrcIp then IpValue(ip)
    else None
  }

  /** process_correlations.py:269-286; `logonId` is `TargetLogonId or LogonId`. */
  function SecurityLogon(m: Record, logonType: string, logonId: string, workstation: string, ip: string): (r: Record)
    ensures forall k :: Lookup(r, k) == First(LogonValue(logonType, logonId, workstation, ip, k), Lookup(m, k))
  {
    var r := SetKey(Put(Put(Put(m, LogonType, logonType), SubjectAccountSessionId, logonId), SrcHostname, workstation),
                    SrcIp, IpValue(ip));
    assert forall k :: Lookup(r, k) == First(LogonValue(logonType, logonId, workstation, ip, k), Lookup(m, k)) by {
      forall k ensures Lookup(r, k) == First(LogonValue(logonType, logonId, workstation, ip, k), Lookup(m, k)) {
        if k == LogonType {
        } else if k == SubjectAccountSessionId {
        } else if k == SrcHostname {
        } else if k == SrcIp {
        }
      }
    }
    r
  }

  function PowerShellValue(scriptBlock: string, command: string, k: Key): Option<string> {
    if k == ObjectValue then FieldValue(scriptBlock)
    else if k == SubjectProcessCmdline then FieldValue(command)
    else None
  }

  /** `_process_powershell_fields` (process_correlations.py:293-303). */
  function PowerShellFields(m: Record, scriptBlock: string, command: string): (r: Record)
    ensures forall k :: Lookup(r, k) == First(PowerShellValue(scriptBlock, command, k), Lookup(m, k))
  {
    Put(Put(m, ObjectValue, scriptBlock), SubjectProcessCmdline, command)
  }

  /* ----------------------------------------------------------- processors */

  /** `_process_sysmon_fields` (process_correlations.py:110-239), section by section. */
  function SysmonFields(m: Record, x: DataFields, p: Derived): Record {
    var m1 := SysmonAccount(m, p.userDomain, p.userName);
    var m2 := PutPath(m1, ProcessPathKeys, x.image, p.imageDir, p.imageName);
    var m3 := SysmonProcessInfo(m2, x.originalFileName, x.fileVersion, x.commandLine);
    var m4 := SysmonProcessIds(m3, x.processId, x.processGuid, x.currentDirectory);
    var m5 := PutHashes(m4, p.md5, p.sha1, p.sha256, p.imphash);
    var m6 := SetKey(m5, SubjectProcessMeta, p.meta);
    var m7 := PutPath(m6, ParentPathKeys, x.parentImage, p.parentDir, p.parentName);
    var m8 := SysmonParentInfo(m7, x.parentCommandLine, x.parentProcessId, x.parentProcessGuid);
    var m9 := PutPath(m8, TargetPathKeys, x.targetImage, p.targetDir, p.targetName);
    var m10 := SysmonDestination(m9, x.destinationIp, x.destinationPort, x.destinationHostname);
    SysmonObjectPath(m10, x.targetObject, x.targetFilename)
  }

  /** `_process_security_fields` (process_correlations.py:241-291). */
  function SecurityFields(m: Record, x: DataFields): Record {
    var m1 := SecurityTarget(m, x.targetUserName, x.targetDomainName, OrElse(x.targetUserSid, x.targetSid));
    var m2 := SecuritySubject(m1, x.subjectUserName, x.subjectDomainName, x.subjectUserSid);
    var m3 := SecurityLogon(m2, x.logonType, OrElse(x.targetLogonId, x.logonId), x.workstationName, x.ipAddress);
    Put(m3, SubjectProcessFullpath, x.processName)
  }

  /** The three processors in source order, each able to overwrite what an earlier one wrote. */
  function Processors(m: Record, x: DataFields, p: Derived): Record {
    PowerShellFields(SecurityFields(SysmonFields(m, x, p), x), x.scriptBlockText, x.hostApplication)
  }

  /**
   `normalize_event` (process_correlations.py:35-108): the System fields,
   then, when `EventData.Data` is a list, the processors on its fields.
   */
  function NormalizeEvent(e: Event): Record {
    var m := SystemFields(e.system);
    match e.data
    case None => m
    case Some(items) =>
      var x := EventFields(items);
      Processors(m, x, Derive(x))
  }

  /* ---------------------------------------------------------- field tables */

  /** Each Sysmon section writes only its own keys. */
  lemma SysmonFrames(x: DataFields, p: Derived)
    ensures forall k :: k != SubjectAccountDomain && k != SubjectAccountName ==> AccountValue(p.userDomain, p.userName, k) == None
    ensures forall k :: k != SubjectProcessFullpath && k != SubjectProcessPath && k != SubjectProcessName ==>
      PathValue(ProcessPathKeys, x.image, p.imageDir, p.imageName, k) == None
    ensures forall k :: k != SubjectProcessOriginalName && k != SubjectProcessVersion && k != SubjectProcessCmdline ==> ProcessInfoValue(x.originalFileName, x.fileVersion, x.commandLine, k) == None
    ensures forall k :: k != SubjectProcessId && k != SubjectProcessGuid && k != SubjectProcessCwd ==> ProcessIdsValue(x.processId, x.processGuid, x.currentDirectory, k) == None
    ensures forall k :: k != SubjectProcessHashMd5 && k != SubjectProcessHashSha1 && k != SubjectProcessHashSha256 && k != SubjectProcessHashImphash ==> HashKeyValue(p.md5, p.sha1, p.sha256, p.imphash, k) == None
    ensures forall k :: k != SubjectProcessParentFullpath && k != SubjectProcessParentPath && k != SubjectProcessParentName ==>
      PathValue(ParentPathKeys, x.parentImage, p.parentDir, p.parentName, k) == None
    ensures forall k :: k != SubjectProcessParentCmdline && k != SubjectProcessParentId && k != SubjectProcessParentGuid ==>
      ParentInfoValue(x.parentCommandLine, x.parentProcessId, x.parentProcessGuid, k) == None
    ensures forall k :: k != ObjectProcessFullpath && k != ObjectProcessPath && k != ObjectProcessName ==>
      PathValue(TargetPathKeys, x.targetImage, p.targetDir, p.targetName, k) == None
    ensures forall k :: k != DstIp && k != DstPort && k != DstHostname ==>
      DestinationValue(x.destinationIp, x.destinationPort, x.destinationHostname, k) == None
    ensures forall k :: k != ObjectPath ==> ObjectPathValue(x.targetObject, x.targetFilename, k) == None
  {
  }

  /** Each Security section, and the PowerShell processor, writes only its own keys. */
  lemma SecurityFrames(x: DataFields)
    ensures forall k :: k != ObjectAccountName && k != ObjectAccountDomain && k != ObjectAccountId ==>
      TargetAccountValue(x.targetUserName, x.targetDomainName, OrElse(x.targetUserSid, x.targetSid), k) == None
    ensures forall k :: k != SubjectAccountName && k != SubjectAccountDomain && k != SubjectAccountId ==>
      SubjectAccountValue(x.subjectUserName, x.subjectDomainName, x.subjectUserSid, k) == None
    ensures forall k :: k != LogonType && k != SubjectAccountSessionId && k != SrcHostname && k != SrcIp ==>
      LogonValue(x.logonType, OrElse(x.targetLogonId, x.logonId), x.workstationName, x.ipAddress, k) == None
    ensures forall k :: k != ObjectValue && k != SubjectProcessCmdline ==> PowerShellValue(x.scriptBlockText, x.hostApplication, k) == None
  {
  }

  /** What `_process_sysmon_fields` writes into `k`: its sections' tables, later sections over earlier ones. */
  function SysmonValue(x: DataFields, p: Derived, k: Key): Option<string> {
    First(ObjectPathValue(x.targetObject, x.targetFilename, k),
    First(DestinationValue(x.destinationIp, x.destinationPort, x.destinationHostname, k),
    First(PathValue(TargetPathKeys, x.targetImage, p.targetDir, p.targetName, k),
    First(ParentInfoValue(x.parentCommandLine, x.parentProcessId, x.parentProcessGuid, k),
    First(PathValue(ParentPathKeys, x.parentImage, p.parentDir, p.parentName, k),
    First(if k == SubjectProcessMeta then p.meta else None,
    First(HashKeyValue(p.md5, p.sha1, p.sha256, p.imphash, k),
    First(ProcessIdsValue(x.processId, x.processGuid, x.currentDirectory, k),
    First(ProcessInfoValue(x.originalFileName, x.fileVersion, x.commandLine, k),
    First(PathValue(ProcessPathKeys, x.image, p.imageDir, p.imageName, k),
          AccountValue(p.userDomain, p.userName, k)))))))))))
  }

  /** What `_process_security_fields` writes into `k`. */
  function SecurityValue(x: DataFields, k: Key): Option<string> {
    First(if k == SubjectProcessFullpath then FieldValue(x.processName) else None,
    First(LogonValue(x.logonType, OrElse(x.targetLogonId, x.logonId), x.workstationName, x.ipAddress, k),
    First(SubjectAccountValue(x.subjectUserName, x.subjectDomainName, x.subjectUserSid, k),
          TargetAccountValue(x.targetUserName, x.targetDomainName, OrElse(x.targetUserSid, x.targetSid), k))))
  }

  /** What the three processors together write into `k`. */
  function DataValue(x: DataFields, p: Derived, k: Key): Option<string> {
    First(PowerShellValue(x.scriptBlockText, x.hostApplication, k), First(SecurityValue(x, k), SysmonValue(x, p, k)))
  }

  /** The Sysmon processor writes its table over the record. */
  lemma SysmonTable(m: Record, x: DataFields, p: Derived, k: Key)
    ensures Lookup(SysmonFields(m, x, p), k) == First(SysmonValue(x, p, k), Lookup(m, k))
  {
  }

  /** The Security processor writes its table over the record. */
  lemma SecurityTable(m: Record, x: DataFields, k: Key)
    ensures Lookup(SecurityFields(m, x), k) == First(SecurityValue(x, k), Lookup(m, k))
  {
  }

  /** The processors together write their table over the record. */
  lemma ProcessorsTable(m: Record, x: DataFields, p: Derived, k: Key)
    ensures Lookup(Processors(m, x, p), k) == First(DataValue(x, p, k), Lookup(m, k))
  {
    SysmonTable(m, x, p, k);
    SecurityTable(SysmonFields(m, x, p), x, k);
  }

  /* ------------------------------------------------------------ the record */

  /**
   What the normalised record holds under `k`: the System table, overwritten
   by the processors' table when the event carries a `Data` list.
   */
  function ExpectedValue(e: Event, k: Key): Option<string> {
    match e.data
    case None => SystemValue(e.system, k)
    case Some(items) =>
      var x := EventFields(items);
      First(DataValue(x, Derive(x), k), SystemValue(e.system, k))
  }

  /** The record `normalize_event` builds holds, for every key, exactly the table's value. */
  lemma NormalizeEventTable(e: Event, k: Key)
    ensures Lookup(NormalizeEvent(e), k) == ExpectedValue(e, k)
  {
    var m := SystemFields(e.system);
    match e.data
    case None =>
    case Some(items) =>
      var x := EventFields(items);
      ProcessorsTable(m, x, Derive(x), k);
  }

  /* ---------------------------------------------------------- consequences */

  /** Every key some Sysmon section writes. */
  const SysmonKeys: set<Key> := {
    SubjectAccountDomain, SubjectAccountName,
    SubjectProcessFullpath, SubjectProcessPath, SubjectProcessName,
    SubjectProcessOriginalName, SubjectProcessVersion, SubjectProcessCmdline,
    SubjectProcessId, SubjectProcessGuid, SubjectProcessCwd,
    SubjectProcessHashMd5, SubjectProcessHashSha1, SubjectProcessHashSha256, SubjectProcessHashImphash,
    SubjectProcessMeta,
    SubjectProcessParentFullpath, SubjectProcessParentPath, SubjectProcessParentName,
    SubjectProcessParentCmdline, SubjectProcessParentId, SubjectProcessParentGuid,
    ObjectProcessFullpath, ObjectProcessPath, ObjectProcessName,
    DstIp, DstPort, DstHostname,
    ObjectPath}

  /** Every key some Security section writes. */
  const SecurityKeys: set<Key> := {
    ObjectAccountName, ObjectAccountDomain, ObjectAccountId,
    SubjectAccountName, SubjectAccountDomain, SubjectAccountId,
    LogonType, SubjectAccountSessionId, SrcHostname, SrcIp,
    SubjectProcessFullpath}

  /** The keys the PowerShell processor writes. */
  const PowerShellKeys: set<Key> := {ObjectValue, SubjectProcessCmdline}

  /** The Sysmon processor writes nothing outside its keys. */
  lemma SysmonOwnKeys(x: DataFields, p: Derived, k: Key)
    requires k !in SysmonKeys
    ensures SysmonValue(x, p, k) == None
  {
    SysmonFrames(x, p);
  }

  /** The Security processor writes nothing outside its keys. */
  lemma SecurityOwnKeys(x: DataFields, k: Key)
    requires k !in SecurityKeys
    ensures SecurityValue(x, k) == None
  {
    SecurityFrames(x);
  }

  /*
   What each processor gives the keys where processors overlap or fall back:
   one lemma per key keeps each evaluation of a table small.
   */

  lemma SysmonAccountName(x: DataFields, p: Derived)
    ensures SysmonValue(x, p, SubjectAccountName) == p.userName
  {
    SysmonFrames(x, p);
  }

  lemma SysmonAccountDomain(x: DataFields, p: Derived)
    ensures SysmonValue(x, p, SubjectAccountDomain) == p.userDomain
  {
    SysmonFrames(x, p);
  }

  lemma SysmonFullpath(x: DataFields, p: Derived)
    ensures SysmonValue(x, p, SubjectProcessFullpath) == FieldValue(x.image)
  {
    SysmonFrames(x, p);
  }

  lemma SysmonCmdline(x: DataFields, p: Derived)
    ensures SysmonValue(x, p, SubjectProcessCmdline) == FieldValue(x.commandLine)
  {
    SysmonFrames(x, p);
  }

  lemma SysmonObjectAccountId(x: DataFields, p: Derived)
    ensures SysmonValue(x, p, ObjectAccountId) == None
  {
    SysmonFrames(x, p);
  }

  lemma SysmonSessionId(x: DataFields, p: Derived)
    ensures SysmonValue(x, p, SubjectAccountSessionId) == None
  {
    SysmonFrames(x, p);
  }

  lemma SysmonSourceIp(x: DataFields, p: Derived)
    ensures SysmonValue(x, p, SrcIp) == None
  {
    SysmonFrames(x, p);
  }

  lemma SecurityAccountName(x: DataFields)
    ensures SecurityValue(x, SubjectAccountName) == FieldValue(x.subjectUserName)
  {
    SecurityFrames(x);
  }

  lemma SecurityAccountDomain(x: DataFields)
    ensures SecurityValue(x, SubjectAccountDomain) == FieldValue(x.subjectDomainName)
  {
    SecurityFrames(x);
  }

  lemma SecurityFullpath(x: DataFields)
    ensures SecurityValue(x, SubjectProcessFullpath) == FieldValue(x.processName)
  {
    SecurityFrames(x);
  }

  lemma SecurityCmdline(x: DataFields)
    ensures SecurityValue(x, SubjectProcessCmdline) == None
  {
    SecurityFrames(x);
  }

  lemma SecurityObjectAccountId(x: DataFields)
    ensures SecurityValue(x, ObjectAccountId) == FieldValue(OrElse(x.targetUserSid, x.targetSid))
  {
    SecurityFrames(x);
  }

  lemma SecuritySessionId(x: DataFields)
    ensures SecurityValue(x, SubjectAccountSessionId) == FieldValue(OrElse(x.targetLogonId, x.logonId))
  {
    SecurityFrames(x);
  }

  lemma SecuritySourceIp(x: DataFields)
    ensures SecurityValue(x, SrcIp) == IpValue(x.ipAddress)
  {
    SecurityFrames(x);
  }

  /** `a or b` on two fields: the first field's value, the second's when the first is empty. */
  lemma OrElseFallback(a: string, b: string)
    ensures FieldValue(OrElse(a, b)) == First(FieldValue(a), FieldValue(b))
  {
  }

  /** The System keys are none of the keys a processor writes. */
  lemma SystemKeysDisjoint(k: Key)
    requires k in SystemKeys
    ensures k !in SysmonKeys && k !in SecurityKeys && k !in PowerShellKeys
  {
    if k == Time {
    } else if k == EventSrcTitle {
    } else if k == EventSrcSubsys {
    } else if k == EventSrcVendor {
    } else if k == EventSrcHostname {
    } else if k == EventSrcId {
    }
  }

  /** No processor writes a key of the System block. */
  lemma DataSkipsSystemKeys(x: DataFields, p: Derived, k: Key)
    requires k in SystemKeys
    ensures DataValue(x, p, k) == None
  {
    SystemKeysDisjoint(k);
    SysmonOwnKeys(x, p, k);
    SecurityOwnKeys(x, k);
    SecurityFrames(x);
  }

  /** So the System block's values survive the processors. */
  lemma ProcessorsKeepSystemKeys(m: Record, x: DataFields, p: Derived, k: Key)
    requires k in SystemKeys
    ensures Lookup(Processors(m, x, p), k) == Lookup(m, k)
  {
    ProcessorsTable(m, x, p, k);
    DataSkipsSystemKeys(x, p, k);
  }

  /** Security's `SubjectUserName` wins over the name part of Sysmon's `User`. */
  lemma AccountNamePrecedence(x: DataFields, p: Derived)
    ensures DataValue(x, p, SubjectAccountName) == First(FieldValue(x.subjectUserName), p.userName)
  {
    SecurityFrames(x);
    SysmonAccountName(x, p);
    SecurityAccountName(x);
  }

  /** Security's `SubjectDomainName` wins over the domain part of Sysmon's `User`. */
  lemma AccountDomainPrecedence(x: DataFields, p: Derived)
    ensures DataValue(x, p, SubjectAccountDomain) == First(FieldValue(x.subjectDomainName), p.userDomain)
  {
    SecurityFrames(x);
    SysmonAccountDomain(x, p);
    SecurityAccountDomain(x);
  }

  /** Security's `ProcessName` wins over Sysmon's `Image` for the full path. */
  lemma FullpathPrecedence(x: DataFields, p: Derived)
    ensures DataValue(x, p, SubjectProcessFullpath) == First(FieldValue(x.processName), FieldValue(x.image))
  {
    SecurityFrames(x);
    SysmonFullpath(x, p);
    SecurityFullpath(x);
  }

  /** PowerShell's `HostApplication` wins over Sysmon's `CommandLine`. */
  lemma CmdlinePrecedence(x: DataFields, p: Derived)
    ensures DataValue(x, p, SubjectProcessCmdline) == First(FieldValue(x.hostApplication), FieldValue(x.commandLine))
  {
    SysmonCmdline(x, p);
    SecurityCmdline(x);
  }

  /** `TargetSid` stands in for an empty `TargetUserSid`. */
  lemma TargetSidFallback(x: DataFields, p: Derived)
    ensures DataValue(x, p, ObjectAccountId) == First(FieldValue(x.targetUserSid), FieldValue(x.targetSid))
  {
    SecurityFrames(x);
    OrElseFallback(x.targetUserSid, x.targetSid);
    SysmonObjectAccountId(x, p);
    SecurityObjectAccountId(x);
  }

  /** `LogonId` stands in for an empty `TargetLogonId`. */
  lemma LogonIdFallback(x: DataFields, p: Derived)
    ensures DataValue(x, p, SubjectAccountSessionId) == First(FieldValue(x.targetLogonId), FieldValue(x.logonId))
  {
    SecurityFrames(x);
    OrElseFallback(x.targetLogonId, x.logonId);
    SysmonSessionId(x, p);
    SecuritySessionId(x);
  }

  /** An `IpAddress` of "-" gives no `src.ip`, any other non-empty one gives it lower-cased. */
  lemma SourceIpDash(x: DataFields, p: Derived)
    ensures DataValue(x, p, SrcIp).Some? <==> x.ipAddress != "" && x.ipAddress != "-"
    ensures DataValue(x, p, SrcIp).Some? ==> DataValue(x, p, SrcIp).value == Lower(x.ipAddress)
  {
    SecurityFrames(x);
    SysmonSourceIp(x, p);
    SecuritySourceIp(x);
    assert DataValue(x, p, SrcIp) == IpValue(x.ipAddress);
  }

  lemma SysmonObjectPathKey(x: DataFields, p: Derived)
    ensures SysmonValue(x, p, ObjectPath) == First(FieldValue(x.targetFilename), FieldValue(x.targetObject))
  {
    SysmonFrames(x, p);
  }

  lemma SecurityObjectPath(x: DataFields)
    ensures SecurityValue(x, ObjectPath) == None
  {
    SecurityFrames(x);
  }

  /** `TargetFilename` wins over `TargetObject` for `object.path`, and no later processor writes it. */
  lemma ObjectPathPrecedence(x: DataFields, p: Derived)
    ensures DataValue(x, p, ObjectPath) == First(FieldValue(x.targetFilename), FieldValue(x.targetObject))
  {
    SecurityFrames(x);
    SysmonObjectPathKey(x, p);
    SecurityObjectPath(x);
  }

  /* ------------------------------------------------------ the System block */

  /** `event_src.vendor` is "microsoft" exactly when the provider name is non-empty. */
  lemma VendorIffProvider(sys: System)
    ensures SystemValue(sys, EventSrcVendor).Some? <==> sys.providerName != ""
    ensures SystemValue(sys, EventSrcVendor).Some? ==> SystemValue(sys, EventSrcVendor).value == "microsoft"
  {
  }

  /** `event_src.subsys` is absent exactly when the provider is empty or names none of the three subsystems. */
  lemma SubsystemAbsent(sys: System)
    ensures SystemValue(sys, EventSrcSubsys).None? <==>
      sys.providerName == "" ||
      (!Contains(Lower(sys.providerName), "sysmon") && !Contains(Lower(sys.providerName), "security") &&
       !Contains(Lower(sys.providerName), "powershell"))
  {
  }

  /** An event without a `Data` list yields only System keys. */
  lemma NoDataOnlySystemKeys(e: Event, k: Key)
    requires e.data.None?
    requires k !in SystemKeys
    ensures Lookup(NormalizeEvent(e), k) == None
  {
    NormalizeEventTable(e, k);
  }

  /* -------------------------------------------------------- lower case */

  predicate LowerOrNone(o: Option<string>) {
    o.Some? ==> IsLower(o.value)
  }

  lemma FieldValueLower(v: string)
    ensures LowerOrNone(FieldValue(v))
  {
    LowerIsLower(v);
  }

  lemma AllFieldValuesLower()
    ensures forall v :: LowerOrNone(FieldValue(v))
  {
    forall v ensures LowerOrNone(FieldValue(v)) {
      LowerIsLower(v);
    }
  }

  predicate DerivedLower(p: Derived) {
    LowerOrNone(p.userDomain) && LowerOrNone(p.userName) &&
    LowerOrNone(p.imageDir) && LowerOrNone(p.imageName) &&
    LowerOrNone(p.parentDir) && LowerOrNone(p.parentName) &&
    LowerOrNone(p.targetDir) && LowerOrNone(p.targetName) &&
    LowerOrNone(p.md5) && LowerOrNone(p.sha1) && LowerOrNone(p.sha256) && LowerOrNone(p.imphash) &&
    LowerOrNone(p.meta)
  }

  lemma HashValueLower(hashes: string, algo: string)
    ensures LowerOrNone(HashValue(hashes, algo))
  {
    if HashValue(hashes, algo).Some? {
      LowerIsLower(ParseHashes(hashes)[algo]);
    }
  }

  /** The values computed from `User`, the paths, `Hashes` and the metadata are lower case. */
  lemma DeriveLower(x: DataFields)
    ensures DerivedLower(Derive(x))
  {
    HashValueLower(x.hashes, "MD5");
    HashValueLower(x.hashes, "SHA1");
    HashValueLower(x.hashes, "SHA256");
    HashValueLower(x.hashes, "IMPHASH");
    var meta := MetaValue(x.description, x.product, x.company);
    if meta.Some? {
      LowerIsLower(Join(MetaParts(x.description, x.product, x.company), MetaSeparator));
    }
  }

  lemma FirstLower()
    ensures forall later, earlier :: LowerOrNone(later) && LowerOrNone(earlier) ==> LowerOrNone(First(later, earlier))
  {
  }

  /** Each Sysmon section writes lower-case values. */
  lemma SubjectTablesLower(x: DataFields, p: Derived)
    requires DerivedLower(p)
    ensures forall k :: LowerOrNone(AccountValue(p.userDomain, p.userName, k))
    ensures forall k :: LowerOrNone(PathValue(ProcessPathKeys, x.image, p.imageDir, p.imageName, k))
    ensures forall k :: LowerOrNone(ProcessInfoValue(x.originalFileName, x.fileVersion, x.commandLine, k))
    ensures forall k :: LowerOrNone(ProcessIdsValue(x.processId, x.processGuid, x.currentDirectory, k))
    ensures forall k :: LowerOrNone(HashKeyValue(p.md5, p.sha1, p.sha256, p.imphash, k))
  {
    FieldValueLower(x.image);
    FieldValueLower(x.originalFileName);
    FieldValueLower(x.fileVersion);
    FieldValueLower(x.commandLine);
    FieldValueLower(x.processId);
    FieldValueLower(x.processGuid);
    FieldValueLower(x.currentDirectory);
  }

  lemma RelatedPathsLower(x: DataFields, p: Derived)
    requires DerivedLower(p)
    ensures forall k :: LowerOrNone(PathValue(ParentPathKeys, x.parentImage, p.parentDir, p.parentName, k))
    ensures forall k :: LowerOrNone(PathValue(TargetPathKeys, x.targetImage, p.targetDir, p.targetName, k))
  {
    FieldValueLower(x.parentImage);
    FieldValueLower(x.targetImage);
  }

  lemma RelatedTablesLower(x: DataFields)
    ensures forall k :: LowerOrNone(ParentInfoValue(x.parentCommandLine, x.parentProcessId, x.parentProcessGuid, k))
    ensures forall k :: LowerOrNone(DestinationValue(x.destinationIp, x.destinationPort, x.destinationHostname, k))
    ensures forall k :: LowerOrNone(ObjectPathValue(x.targetObject, x.targetFilename, k))
  {
    FieldValueLower(x.parentCommandLine);
    FieldValueLower(x.parentProcessId);
    FieldValueLower(x.parentProcessGuid);
    FieldValueLower(x.destinationIp);
    FieldValueLower(x.destinationPort);
    FieldValueLower(x.destinationHostname);
    FieldValueLower(x.targetObject);
    FieldValueLower(x.targetFilename);
  }

  lemma SysmonLower(x: DataFields, p: Derived, k: Key)
    requires DerivedLower(p)
    ensures LowerOrNone(SysmonValue(x, p, k))
  {
    SubjectTablesLower(x, p);
    RelatedPathsLower(x, p);
    RelatedTablesLower(x);
    FirstLower();
  }

  lemma SecurityLower(x: DataFields, k: Key)
    ensures LowerOrNone(SecurityValue(x, k))
  {
    AllFieldValuesLower();
    LowerIsLower(x.ipAddress);
    var process := if k == SubjectProcessFullpath then FieldValue(x.processName) else None;
    var logon := LogonValue(x.logonType, OrElse(x.targetLogonId, x.logonId), x.workstationName, x.ipAddress, k);
    var subject := SubjectAccountValue(x.subjectUserName, x.subjectDomainName, x.subjectUserSid, k);
    var target := TargetAccountValue(x.targetUserName, x.targetDomainName, OrElse(x.targetUserSid, x.targetSid), k);
    assert LowerOrNone(logon);
    assert LowerOrNone(subject) && LowerOrNone(target);
    FirstLower();
  }

  lemma SubsystemLower(providerName: string)
    ensures LowerOrNone(Subsystem(providerName))
  {
    var r := Subsystem(providerName);
    if r == Some("sysmon") {
      assert IsLower("sysmon");
    } else if r == Some("security") {
      assert IsLower("security");
    } else if r == Some("powershell") {
      assert IsLower("powershell");
    }
  }

  lemma ProviderLower(providerName: string, k: Key)
    ensures LowerOrNone(ProviderValue(providerName, k))
  {
    if |providerName| == 0 {
    } else if k == EventSrcTitle {
      LowerIsLower(providerName);
    } else if k == EventSrcSubsys {
      SubsystemLower(providerName);
    } else if k == EventSrcVendor {
      assert IsLower("microsoft");
    }
  }

  lemma SystemLower(sys: System, k: Key)
    ensures LowerOrNone(SystemValue(sys, k))
  {
    FieldValueLower(sys.systemTime);
    FieldValueLower(sys.computer);
    FieldValueLower(sys.eventId);
    FieldValueLower(sys.channel);
    ProviderLower(sys.providerName, k);
  }

  lemma PowerShellLower(x: DataFields, k: Key)
    ensures LowerOrNone(PowerShellValue(x.scriptBlockText, x.hostApplication, k))
  {
    FieldValueLower(x.scriptBlockText);
    FieldValueLower(x.hostApplication);
  }

  lemma DataLower(x: DataFields, p: Derived, k: Key)
    requires DerivedLower(p)
    ensures LowerOrNone(DataValue(x, p, k))
  {
    SysmonLower(x, p, k);
    SecurityLower(x, k);
    PowerShellLower(x, k);
    FirstLower();
  }

  lemma ExpectedIsLower(e: Event, k: Key)
    ensures LowerOrNone(ExpectedValue(e, k))
  {
    SystemLower(e.system, k);
    FirstLower();
    if e.data.Some? {
      var x := EventFields(e.data.value);
      DeriveLower(x);
      DataLower(x, Derive(x), k);
    }
  }

  /** Every value of the normalised record is lower case. */
  lemma RecordIsLower(e: Event, k: Key)
    ensures LowerOrNone(Lookup(NormalizeEvent(e), k))
  {
    NormalizeEventTable(e, k);
    ExpectedIsLower(e, k);
  }
}
