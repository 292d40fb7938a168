# Windows correlation pipeline — a Dafny model

This project models the deterministic core of a small pipeline. The pipeline prepares Windows
correlation rules for a SIEM. Five Python scripts do the work:

- **Event normalisation** (`process_correlations.py`, `EventNormalizer`). A raw Windows event is
  its `System` block plus a list of `Name`/`text` data items. It becomes a flat record from dotted
  SIEM field names (`subject.process.cmdline`, `dst.ip`, ...) to lower-cased strings. The System
  fields come first. Then the Sysmon, Security and PowerShell processors run in that order, and a
  later write to a key overwrites an earlier one.
- **Heuristic MITRE ATT&CK classification** (`generate_answers.py`). The events of a correlation
  are reduced to one lower-cased text and a set of event ids. An ordered table of regex rules is
  tried first, then the event-id table, then a "powershell" default, then a generic default.
  `process_correlation` classifies the first five `norm_fields_*.json` files by name.
- **Placeholder localisation files** (`generate_i18n.py`). The first key of an ordered table that
  occurs in the technique name selects a description. `str.format` then fills an English and a
  Russian template.
- **Helpers of the LLM-driven classifier** (`classify_and_localize.py`):
  - the `{`…`}` span of a reply and the default answer;
  - the Markdown-fence cleanup of generated YAML;
  - the per-event summary of relevant fields;
  - grouping `norm_fields_<i>_<j>.json` files by `i` and choosing the group with the least `i`.
- **The Ollama classifier** (`improve_with_ollama.py`):
  - cutting JSON out of fenced output;
  - unwrapping a list reply;
  - the acceptance test that decides whether `answers.json` is written;
  - the 30/40-character display of tactic and technique.

The model leaves out the language models, `json.loads`, regular-expression search and the file
system. `json.loads` is a parameter `parse: string -> Option<Json>`. Regex search is a parameter
`matches(pattern, text)`. The order in which Python iterates a set is a parameter `order`. The file
system appears as booleans (a file exists) and as lists of file names with their contents.

Modules, one per file:

| module | file | what it holds |
|---|---|---|
| `Wrappers` | wrappers.dfy | `Option` |
| `Text` | text.dfy | ASCII case mapping, `strip`, `find`/`rfind`, `split`, `join`, digits |
| `Ordering` | ordering.dfy | code-point order of strings, `min`, sorting by file name |
| `Normalizer` | normalizer.dfy | process_correlations.py |
| `Heuristics` | heuristics.dfy | generate_answers.py |
| `I18n` | i18n.dfy | generate_i18n.py, with a small `str.format` interpreter |
| `JsonValue` | json.dfy | decoded JSON values, Python truth testing and `in` |
| `Localize` | localize.dfy | classify_and_localize.py |
| `Ollama` | ollama.dfy | improve_with_ollama.py |

## Model

| member | source | states |
|---|---|---|
| Normalizer.BuildData | process_correlations.py:89-98 | a name is in the data dict iff it is non-empty and some object item carries it; its value is the text of the last such item |
| Normalizer.FieldOfItems | process_correlations.py:92-98 | `data.get(n, "")` on the built dict is the text of the last item named `n`, or "" |
| Normalizer.UnnamedItemIgnored | process_correlations.py:93-98 | inserting a non-object item, or one with an empty name, anywhere in the list leaves the data dict unchanged |
| Normalizer.Subsystem | process_correlations.py:60-71 | the subsystem is sysmon iff the lower-cased provider contains "sysmon"; security iff it contains "security" but not "sysmon"; powershell likewise; otherwise none |
| Normalizer.PutProvider | process_correlations.py:54-71 | a non-empty provider name writes title, subsystem and vendor; every other key is left as it was |
| Normalizer.SystemFields | process_correlations.py:44-86 | the record built from the System block holds exactly the System table's value under every key |
| Normalizer.VendorIffProvider | process_correlations.py:54-71 | `event_src.vendor` is present iff the provider name is non-empty, and it is then "microsoft" |
| Normalizer.SubsystemAbsent | process_correlations.py:57-71 | `event_src.subsys` is absent iff the provider is empty or names none of the three subsystems |
| Normalizer.SplitAccount | process_correlations.py:112-119 | `DOMAIN\user` splits at its first backslash into a domain with no backslash and the rest as the name, which may hold further backslashes; without a backslash the whole value is the name; both are lower case |
| Normalizer.UserParts | process_correlations.py:112-119 | the name is present iff `User` is non-empty; the domain iff `User` has a backslash; domain + `\` + name rebuilds the lower-cased `User` |
| Normalizer.SplitPath | process_correlations.py:121-132 | a path has a directory part iff it holds `\` or `/`; directory + name rebuild the lower-cased path; the directory ends in the separator (`\` preferred) and the name holds none |
| Normalizer.ImageParts | process_correlations.py:121-132 | the path keys: the name is present iff the image is non-empty; the directory iff it has a separator; directory + name is the lower-cased image |
| Normalizer.HashDict | process_correlations.py:308-312 | an algorithm is in the hash dict iff some entry names it; its value is the value of the last such entry |
| Normalizer.HashValueLast | process_correlations.py:305-321 | each hash key gets the lower-cased value of the last `ALGO=value` part with that upper-cased, stripped algorithm |
| Normalizer.ParseHashes | process_correlations.py:305-312 | `_parse_hashes`' dictionary for a `Hashes` value; `HashDict` and `HashValueLast` state what it holds |
| Normalizer.MetaShape | process_correlations.py:168-180 | meta is absent iff description, product and company are all empty; it has one part per non-empty field, description first and company last; a single part is lower-cased on its own |
| Normalizer.MetaValue | process_correlations.py:168-180 | the present parts joined with " \| " and lower-cased; `MetaShape` and `MetaJoined` state its value |
| Normalizer.MetaJoined | process_correlations.py:172-180 | two or three present parts are joined with " \| " in the order description, product, company, then lower-cased |
| Normalizer.SysmonAccount | process_correlations.py:112-119 | writes only `subject.account.domain`/`.name`, each when `User` gives it |
| Normalizer.PutPath | process_correlations.py:121-132 | writes only the fullpath, path and name keys of one executable, each when present |
| Normalizer.SysmonProcessInfo | process_correlations.py:134-147 | writes only original name, version and command line, each when non-empty |
| Normalizer.SysmonProcessIds | process_correlations.py:149-161 | writes only process id, guid and current directory, each when non-empty |
| Normalizer.PutHashes | process_correlations.py:163-166 | writes only the four hash keys, each when `Hashes` gives it |
| Normalizer.SysmonParentInfo | process_correlations.py:194-204 | writes only the parent command line, id and guid, each when non-empty |
| Normalizer.SysmonDestination | process_correlations.py:218-229 | writes only `dst.ip`, `dst.port`, `dst.hostname`, each when non-empty |
| Normalizer.SysmonObjectPath | process_correlations.py:231-239 | writes only `object.path`: TargetFilename when non-empty, else TargetObject |
| Normalizer.SecurityTarget | process_correlations.py:243-254 | writes only the object account name, domain and id |
| Normalizer.SecuritySubject | process_correlations.py:256-267 | writes only the subject account name, domain and id |
| Normalizer.SecurityLogon | process_correlations.py:269-286 | writes only logon type, session id, source hostname and source IP |
| Normalizer.PowerShellFields | process_correlations.py:293-303 | writes only `object.value` and `subject.process.cmdline` |
| Normalizer.SysmonFields | process_correlations.py:110-239 | the Sysmon sections applied in source order; `SysmonTable` states the result key by key |
| Normalizer.SecurityFields | process_correlations.py:241-291 | the Security sections applied in source order; `SecurityTable` states the result key by key |
| Normalizer.Processors | process_correlations.py:101-103 | Sysmon, then Security, then PowerShell; `ProcessorsTable` states the result key by key |
| Normalizer.NormalizeEvent | process_correlations.py:35-108 | the System fields, then the processors when `EventData.Data` is a list; `NormalizeEventTable` states every key |
| Normalizer.SysmonFrames | process_correlations.py:110-239 | each Sysmon section leaves every key outside its own untouched |
| Normalizer.SecurityFrames | process_correlations.py:241-303 | each Security section, and the PowerShell processor, leaves every key outside its own untouched |
| Normalizer.SysmonTable | process_correlations.py:110-239 | the Sysmon processor writes its section table over the record, later sections over earlier ones |
| Normalizer.SecurityTable | process_correlations.py:241-291 | the Security processor writes its section table over the record |
| Normalizer.ProcessorsTable | process_correlations.py:101-103 | the three processors in order write their combined table over the record |
| Normalizer.NormalizeEventTable | process_correlations.py:35-108 | the record holds, for every key, the System value overwritten by the processors' value when the event has a Data list |
| Normalizer.SysmonOwnKeys | process_correlations.py:110-239 | the Sysmon processor writes nothing outside its keys |
| Normalizer.SecurityOwnKeys | process_correlations.py:241-291 | the Security processor writes nothing outside its keys |
| Normalizer.SysmonAccountName | process_correlations.py:112-119 | Sysmon's `subject.account.name` is the name part of `User` |
| Normalizer.SysmonAccountDomain | process_correlations.py:112-117 | Sysmon's `subject.account.domain` is the domain part of `User` |
| Normalizer.SysmonFullpath | process_correlations.py:122-124 | Sysmon's fullpath is the lower-cased Image |
| Normalizer.SysmonCmdline | process_correlations.py:145-147 | Sysmon's command line is the lower-cased CommandLine |
| Normalizer.SysmonObjectAccountId | process_correlations.py:110-239 | Sysmon never writes `object.account.id` |
| Normalizer.SysmonSessionId | process_correlations.py:110-239 | Sysmon never writes the session id |
| Normalizer.SysmonSourceIp | process_correlations.py:110-239 | Sysmon never writes `src.ip` |
| Normalizer.SecurityAccountName | process_correlations.py:257-259 | Security's `subject.account.name` is the lower-cased SubjectUserName |
| Normalizer.SecurityAccountDomain | process_correlations.py:261-263 | Security's `subject.account.domain` is the lower-cased SubjectDomainName |
| Normalizer.SecurityFullpath | process_correlations.py:289-291 | Security's fullpath is the lower-cased ProcessName |
| Normalizer.SecurityCmdline | process_correlations.py:241-291 | Security never writes the command line |
| Normalizer.SecurityObjectAccountId | process_correlations.py:252-254 | `object.account.id` is TargetUserSid, or TargetSid when that is empty |
| Normalizer.SecuritySessionId | process_correlations.py:274-276 | the session id is TargetLogonId, or LogonId when that is empty |
| Normalizer.SecuritySourceIp | process_correlations.py:284-286 | `src.ip` is the IP address unless it is empty or "-" |
| Normalizer.OrElseFallback | process_correlations.py:252 | `a or b` contributes `a` when non-empty, else `b` |
| Normalizer.SystemKeysDisjoint | process_correlations.py:44-103 | no System key is a key a processor writes |
| Normalizer.DataSkipsSystemKeys | process_correlations.py:101-103 | the processors' table is empty on System keys |
| Normalizer.ProcessorsKeepSystemKeys | process_correlations.py:44-103 | the System block's values survive the processors |
| Normalizer.AccountNamePrecedence | process_correlations.py:117-119 | Security's SubjectUserName wins over the name part of Sysmon's User |
| Normalizer.AccountDomainPrecedence | process_correlations.py:116 | Security's SubjectDomainName wins over the domain part of Sysmon's User |
| Normalizer.FullpathPrecedence | process_correlations.py:124 | Security's ProcessName wins over Sysmon's Image for the fullpath |
| Normalizer.CmdlinePrecedence | process_correlations.py:147 | PowerShell's HostApplication wins over Sysmon's CommandLine |
| Normalizer.TargetSidFallback | process_correlations.py:252-254 | the record's object account id falls back from TargetUserSid to TargetSid |
| Normalizer.LogonIdFallback | process_correlations.py:274-276 | the record's session id falls back from TargetLogonId to LogonId |
| Normalizer.SourceIpDash | process_correlations.py:284-286 | `src.ip` is present iff IpAddress is neither empty nor "-", and it is then lower-cased |
| Normalizer.SysmonObjectPathKey | process_correlations.py:231-239 | within Sysmon, TargetFilename wins over TargetObject |
| Normalizer.SecurityObjectPath | process_correlations.py:241-291 | Security never writes `object.path` |
| Normalizer.ObjectPathPrecedence | process_correlations.py:231-239 | the record's `object.path` is TargetFilename when non-empty, else TargetObject |
| Normalizer.NoDataOnlySystemKeys | process_correlations.py:88-103 | an event without a Data list yields nothing outside the System keys |
| Normalizer.FieldValueLower | process_correlations.py:51 | every written field value is lower case |
| Normalizer.AllFieldValuesLower | process_correlations.py:51 | every written field value is lower case, for all fields at once |
| Normalizer.HashValueLower | process_correlations.py:314-321 | hash values are lower case |
| Normalizer.DeriveLower | process_correlations.py:112-239 | the values the Sysmon processor computes are lower case |
| Normalizer.FirstLower | process_correlations.py:101-103 | overwriting keeps a lower-case record lower case |
| Normalizer.SubjectTablesLower | process_correlations.py:112-166 | the subject sections write lower case |
| Normalizer.RelatedPathsLower | process_correlations.py:183-216 | the parent and target path sections write lower case |
| Normalizer.RelatedTablesLower | process_correlations.py:194-239 | the parent, destination and object sections write lower case |
| Normalizer.SysmonLower | process_correlations.py:110-239 | the Sysmon processor writes lower case |
| Normalizer.SecurityLower | process_correlations.py:241-291 | the Security processor writes lower case |
| Normalizer.SubsystemLower | process_correlations.py:60-71 | the subsystem is lower case |
| Normalizer.ProviderLower | process_correlations.py:54-71 | the provider keys are lower case |
| Normalizer.SystemLower | process_correlations.py:44-86 | the System keys are lower case |
| Normalizer.PowerShellLower | process_correlations.py:293-303 | the PowerShell processor writes lower case |
| Normalizer.DataLower | process_correlations.py:101-103 | the processors together write lower case |
| Normalizer.ExpectedIsLower | process_correlations.py:35-108 | the expected record is lower case at every key |
| Normalizer.RecordIsLower | process_correlations.py:35-108 | every value of the normalised record is lower case |
| Heuristics.ParseImportance | generate_answers.py:15-146 | an importance is read iff it is low, medium or high, and it prints back as the same word |
| Heuristics.ImportanceRoundTrip | generate_answers.py:15-146 | printing and reading an importance is the identity |
| Heuristics.AsDict | generate_answers.py:190-194 | the returned dict has exactly the keys tactic, technique and importance, holding the classification's values |
| Heuristics.AllText | generate_answers.py:176-182 | the combined text is lower case |
| Heuristics.EventText | generate_answers.py:177-182 | one event's " cmdline name parent_cmdline", lower-cased; `EventTextParts` states its pieces |
| Heuristics.AllTextAppend | generate_answers.py:176-182 | the text of two event lists is the concatenation of their texts |
| Heuristics.AllTextAt | generate_answers.py:176-182 | event `i` contributes its piece between the text of the events before and after it |
| Heuristics.EventTextParts | generate_answers.py:177-182 | each event contributes " cmdline name parent_cmdline", lower-cased |
| Heuristics.EventFieldsInText | generate_answers.py:176-182 | every event's command line, process name and parent command line occur in the combined text |
| Heuristics.EventIds | generate_answers.py:174-184 | an id is collected iff it is non-empty and some event carries it |
| Heuristics.FirstMatch | generate_answers.py:187-194 | returns the first rule with a matching pattern, and none iff no rule matches |
| Heuristics.FirstMatchingUnique | generate_answers.py:187-194 | the first matching rule is unique |
| Heuristics.FirstMapped | generate_answers.py:197-199 | the id chosen is in the iteration order and the mapping; none iff no id in the order is mapped; a mapped first id is taken |
| Heuristics.Classify | generate_answers.py:169-214 | a matching rule decides; otherwise a mapped id decides; otherwise "powershell" in the text gives the PowerShell default; otherwise the generic default |
| Heuristics.ClassifyEvents | generate_answers.py:169-214 | `classify_events` with the actual pattern and event-id tables satisfies the same four stages |
| Heuristics.EveryMappedIdReachable | generate_answers.py:197-199 | when no rule matches, every mapped id present is chosen under some iteration order of the id set |
| Heuristics.EventIdStageReachable | generate_answers.py:149-199 | the same for the concrete event-id table |
| Heuristics.ContextWindow | generate_answers.py:228-235 | the files read are the first min(5, n) by name: sorted and drawn from the listing |
| Heuristics.ContextWindowFirst | generate_answers.py:228-235 | a file left out sorts no earlier than any file read |
| Heuristics.Readable | generate_answers.py:234-243 | no more events than files; empty iff no file could be read; holds the content of every readable file and nothing else |
| Heuristics.ReadableOne | generate_answers.py:235-243 | one file contributes its content when it could be read and nothing otherwise |
| Heuristics.ReadableAppend | generate_answers.py:235-243 | the events of two listings are those of the first followed by those of the second: file order and repeats are kept |
| Heuristics.ProcessCorrelation | generate_answers.py:217-252 | skips when answers.json exists; stops without files or without a readable one; otherwise classifies the readable contents of the first five files |
| I18n.InLang | generate_i18n.py:74 | a description is found iff the language is "en" or "ru" (otherwise KeyError) |
| I18n.FirstKey | generate_i18n.py:72-74 | the index of the first table key occurring in the technique; none iff no key occurs |
| I18n.TechniqueDescription | generate_i18n.py:70-79 | the first key occurring in the technique selects its entry; no key gives the per-language default; en and ru always succeed |
| I18n.PrefixKeyWins | generate_i18n.py:72-74 | a technique starting with a key, and holding no earlier key, gets that key's entry |
| I18n.LsassGetsParentDescription | generate_i18n.py:31-34 | "OS Credential Dumping: LSASS Memory" gets the credential-dumping descriptions |
| I18n.LsassMissesFirstKey | generate_i18n.py:27 | that technique does not contain the first key |
| I18n.UnknownGetsDefault | generate_i18n.py:76-79 | "Unknown" matches no key and gets the default |
| I18n.FirstKeyIn | generate_i18n.py:72-74 | for a technique that is a string, list or object: the first key that is `in` it, none iff no key is; on a string it is `FirstKey` |
| I18n.DescriptionIn | generate_i18n.py:70-79 | the first key `in` the technique selects its entry, no key gives the default; it fails for null, boolean and number techniques (the `TypeError` of `in`) when the table is non-empty |
| I18n.DescriptionOf | generate_i18n.py:70-79 | for en and ru it fails exactly for null, boolean and number techniques |
| I18n.DescriptionOfString | generate_i18n.py:70-79 | a technique that is a string is described by its name |
| I18n.ListTechniqueElement | generate_i18n.py:73 | a list holding the key "Process Injection" as an element gets its entry |
| I18n.ListTechniqueNoSubstring | generate_i18n.py:73 | a list whose element only contains a key gets the default: `in` on a list compares whole elements |
| I18n.CloseBrace | generate_i18n.py:110-121 | finds the first `}`: none before it |
| I18n.FormatLiteral | generate_i18n.py:110-121 | `str.format` copies brace-free text |
| I18n.FormatField | generate_i18n.py:110-121 | `{name}` is replaced by its argument |
| I18n.FormatEscaped | generate_i18n.py:16 | `{{name}}` renders as `{name}` |
| I18n.Format | generate_i18n.py:110-121 | `str.format` on `{name}`, `{{` and `}}`; `FormatLiteral`, `FormatField`, `FormatEscaped` and `FormatSource` state what it renders |
| I18n.FillIsConcat | generate_i18n.py:13-23 | filling a template concatenates what each part renders to |
| I18n.FillAppend | generate_i18n.py:13-23 | filling distributes over concatenating templates |
| I18n.FormatSource | generate_i18n.py:110-121 | formatting a well-formed template's source text with all its arguments gives the filled template |
| I18n.Fill | generate_i18n.py:13-23 | a template as a list of literal and field parts, filled; `FillIsConcat` and `FillAppend` state it |
| I18n.EnFileText | generate_i18n.py:13-17 | the English file is the description line, the id lines and the event line with placeholders in single braces |
| I18n.RuFileText | generate_i18n.py:19-23 | the Russian file likewise |
| I18n.EnFile | generate_i18n.py:110-113 | `EN_TEMPLATE.format(...)`; `EnFileText` states the text |
| I18n.RuFile | generate_i18n.py:118-121 | `RU_TEMPLATE.format(...)`; `RuFileText` states the text |
| I18n.TechniqueOf | generate_i18n.py:100 | `answers.get("technique", "Unknown")`: the stored value when the key is present, the string "Unknown" otherwise |
| I18n.GenerateI18n | generate_i18n.py:82-125 | skips when the i18n directory exists; stops without answers.json; crashes iff json.load fails, the answers are not an object, or the technique is null, a boolean or a number; otherwise writes both files from the technique's descriptions |
| I18n.StringTechniqueGenerates | generate_i18n.py:97-125 | an answers object with a string technique produces the files of that technique's descriptions |
| I18n.StringAnswersCrash | generate_i18n.py:97-100 | answers.json holding the string "tactic technique" stops the script at `answers.get` |
| I18n.SameLocalizationId | generate_i18n.py:15 | both files carry the same `corrname_<directory>` id |
| I18n.MissingTechniqueUsesDefault | generate_i18n.py:100-104 | without a technique, both files use the default descriptions |
| JsonValue.In | improve_with_ollama.py:128 | `key in x` is key membership for a dict, element equality for a list, substring search for a string, and a TypeError otherwise |
| JsonValue.ObjectWithKeyIsTruthy | improve_with_ollama.py:128 | an object holding a key is truthy and contains it |
| Localize.BraceSpan | classify_and_localize.py:156-159 | a span exists iff some `{` precedes some `}`; it runs from the first `{` to the last `}`, with no `{` before it and no `}` after it |
| Localize.BraceSpanOf | classify_and_localize.py:156-159 | an object between text without `{` before and without `}` after is exactly the span |
| Localize.ClassifyResponse | classify_and_localize.py:154-172 | no span, or a span that does not parse, gives the default answer; otherwise the parsed span |
| Localize.ReplyWithObject | classify_and_localize.py:154-161 | a reply wrapping one object in prose yields what the object parses to |
| Localize.ReplyWithoutBrace | classify_and_localize.py:162-172 | a reply without `{` gives the default answer |
| Localize.DefaultAnswerShape | classify_and_localize.py:168-172 | the default answer has exactly tactic, technique and importance, all strings |
| Localize.CleanFences | classify_and_localize.py:237-244 | the cleaned YAML is stripped and no longer than the reply |
| Localize.Unfence | classify_and_localize.py:238-243 | the fence removal never lengthens the text; `UnfenceSplits` and `UnfenceYamlBlock` state what it removes |
| Localize.UnfenceSplits | classify_and_localize.py:238-243 | each `split`/`rsplit` used on a prefix or suffix fence removes exactly that fence |
| Localize.CleanFencesPlain | classify_and_localize.py:237-244 | a reply without a backtick is only stripped |
| Localize.UnfenceYamlBlock | classify_and_localize.py:238-243 | a ```` ```yaml ```` block loses both fences |
| Localize.CleanFencesYamlBlock | classify_and_localize.py:278-285 | cleaning a ```` ```yaml ```` block gives its stripped body |
| Localize.PresentKeys | classify_and_localize.py:198-200 | the keys listed are exactly the relevant keys present in the event, in table order |
| Localize.PresentKeysUnique | classify_and_localize.py:192-200 | for a duplicate-free table, any in-order selection with the same members is that list |
| Localize.RelevantKeysDistinct | classify_and_localize.py:192-197 | the relevant-keys table has no duplicates |
| Localize.KeyLines | classify_and_localize.py:198-200 | the `  key: value` lines of the keys given; `KeyLinesContain` states their presence |
| Localize.KeyLinesContain | classify_and_localize.py:198-200 | the summary holds a `key: value` line for each present key |
| Localize.EventSummary | classify_and_localize.py:189-201 | "Event n key fields:" and the lines of the present relevant keys; `SummaryShowsPresentKey` states it |
| Localize.SummaryShowsPresentKey | classify_and_localize.py:189-201 | event `idx`'s summary shows every relevant key the event holds |
| Localize.EventsText | classify_and_localize.py:203 | the summaries joined with newlines; `EventsTextHasEverySummary` states it |
| Localize.EventsTextHasEverySummary | classify_and_localize.py:203 | the joined text contains every event's summary |
| Localize.DigitsThen | classify_and_localize.py:302 | a `\d+` capture is a non-empty run of digits followed by the stop text |
| Localize.DigitsThenOf | classify_and_localize.py:302 | a digit run followed by the stop text is captured exactly |
| Localize.ParseNormName | classify_and_localize.py:302-306 | both captures of `norm_fields_(\d+)_(\d+)\.json` are non-empty digit strings |
| Localize.ParseNormNameShape | classify_and_localize.py:302-306 | a matched name starts with `norm_fields_<i>_<j>.json` built from its captures |
| Localize.ParseNormNameOf | classify_and_localize.py:302-306 | any name starting with `norm_fields_<i>_<j>.json` matches, giving back `i` and `j` |
| Localize.NormIndex | classify_and_localize.py:301-306 | the `i` capture of a matching file name; `ParseNormNameOf` and `ParseNormNameShape` state the match |
| Localize.Indices | classify_and_localize.py:300-311 | the `i` of every matching file, in listing order; `IndicesMembers` states its members |
| Localize.IndicesMembers | classify_and_localize.py:300-311 | the group keys are exactly the `i` of the matching files |
| Localize.GroupOf | classify_and_localize.py:307-311 | a group has no more events than there are files |
| Localize.Groups | classify_and_localize.py:300-311 | the `groups` dict built by the loop; `GroupsAreFilters` relates it to `GroupOf` |
| Localize.GroupsAreFilters | classify_and_localize.py:300-311 | the groups dict has one entry per `i`, holding the contents of that `i`'s files in listing order |
| Localize.GroupOfEmpty | classify_and_localize.py:307-311 | an `i` no file has gets no events |
| Localize.SelectBy | classify_and_localize.py:295-318 | no tests directory stops; no matching file stops; otherwise the group is that of an existing `i` no greater than any other, in sorted order, and non-empty |
| Localize.SelectGroup | classify_and_localize.py:295-318 | the same for the actual file-name pattern |
| Localize.StringOrderOfIndices | classify_and_localize.py:318 | with groups "10" and "2", "10" is chosen: `min` compares the keys as strings |
| Ordering.MinOf | classify_and_localize.py:318 | `min` of the keys is one of them and no greater than any |
| Ordering.SortByName | classify_and_localize.py:301 | `sorted` gives the same files in code-point order of their names |
| Ollama.FenceCandidate | improve_with_ollama.py:68-71 | never longer than the output; stripped whenever there is a fence; the output itself without any fence |
| Ollama.FenceCandidateIsSplit | improve_with_ollama.py:68-71 | the fence cut is `split(open)[1].split("```")[0].strip()` |
| Ollama.FencedPart | improve_with_ollama.py:68-71 | after the first opening fence, the text up to the next fence is the cut, and nothing in it is a fence |
| Ollama.FenceCandidateJson | improve_with_ollama.py:68-69 | output with "```json" is cut after its first "```json" and up to the next "```" |
| Ollama.FenceCandidatePlain | improve_with_ollama.py:70-71 | output with only "```" is cut between its first two fences |
| Ollama.FenceCandidateUnfenced | improve_with_ollama.py:68-71 | output without a fence is left as it is |
| Ollama.Candidate | improve_with_ollama.py:65-78 | the text parsed is the brace span of the cut output when it has one (so it starts with `{` and ends with `}`), and the cut output otherwise |
| Ollama.FencedObjectPart | improve_with_ollama.py:65-71 | a fenced object is the cut of its fenced output |
| Ollama.CandidateOfFencedObject | improve_with_ollama.py:65-78 | a fenced object whose span is itself is the text parsed |
| Ollama.FencedObjectCandidate | improve_with_ollama.py:65-78 | "```json{...}```" without further backticks yields exactly the object to parse |
| Ollama.ReadReply | improve_with_ollama.py:61-97 | no output or a parse error gives nothing; a list gives its first element (nothing when empty); anything else is returned |
| Ollama.FencedObjectReply | improve_with_ollama.py:65-86 | a fenced object reply reads back as the parsed object |
| Text.Take | improve_with_ollama.py:134-135 | `s[:n]`: the prefix of `s` of length exactly `min(len(s), n)`, all of `s` when it is no longer than `n` |
| Ollama.Slice | improve_with_ollama.py:134-135 | `v[:n]` is defined iff `v` is a string or list; it is then the prefix of exactly `min(len(v), n)` characters or items |
| Ollama.Review | improve_with_ollama.py:128-137 | fails iff there is no classification, it is falsy, or `in` finds no tactic or no technique; improves iff it is an object holding both keys whose values can be sliced, showing exactly `v[:30]` and `v[:40]` of the saved fields; crashes before saving iff the first `in` raises; crashes after saving iff both `in` tests pass but `.get` or a slice fails |
| Ollama.ReviewCrashesOnString | improve_with_ollama.py:128-134 | a JSON string "tactic technique" passes the test, is saved, then `.get` fails |
| Ollama.ReviewCrashesOnNullTactic | improve_with_ollama.py:128-134 | an object with a null tactic passes, is saved, then slicing None fails |
| Ollama.ReviewChecked | improve_with_ollama.py:128-137 | never crashes; improves iff the classification is an object with string tactic and technique; shows exactly the first 30 and 40 characters of the saved tactic and technique |
| Ollama.ReviewCheckedAgrees | improve_with_ollama.py:128-137 | on such objects the corrected test behaves exactly as the original |
| Ollama.ReviewCheckedKeepsStringResults | improve_with_ollama.py:128-137 | wherever the original saves and shows two strings, the corrected test gives the same result |
| Ollama.ReviewKeepsListTactic | improve_with_ollama.py:128-135 | an object with a list as its tactic is kept by the test as written and refused by the corrected one |
| Ollama.WellFormedAgrees | improve_with_ollama.py:128-137 | on a missing classification or a string-valued object, both tests agree |
| Ollama.ProcessAll | improve_with_ollama.py:114-137 | the loop with the corrected test: the answers saved are `Saved`, and it completes iff no correlation's events raise |
| Ollama.Saved | improve_with_ollama.py:114-137 | at most one saved answer per correlation, each an object with string tactic and technique |
| Ollama.RaisedEndsSaving | improve_with_ollama.py:16-31 | after a correlation whose events raise, later correlations save nothing |
| Ollama.SavedNext | improve_with_ollama.py:114-137 | one more correlation adds its answer exactly when no earlier one raised, its events load and exist, and the corrected test keeps it |
| Ollama.Reviews | improve_with_ollama.py:119-128 | one reviewed result per correlation |
| Ollama.Reviewed | improve_with_ollama.py:119-135 | none exactly for a correlation without events; a crash with nothing written when its events raise; otherwise `Review` of its classification |
| Ollama.Play | improve_with_ollama.py:114-137 | the loop as written over reviewed results: no more answers than correlations, and each answer written without a failure is counted |
| Ollama.Advance | improve_with_ollama.py:128-137 | a failure skips; a kept classification is written and counted; a crash ends the run, with the classification written when `json.dump` had run |
| Ollama.AsWritten | improve_with_ollama.py:114-137 | the loop as written over the correlations, with the same bounds |
| Ollama.AsWrittenNext | improve_with_ollama.py:114-137 | one more correlation is skipped after a crash or without events, ends the run with nothing written when its events raise, and is otherwise reviewed |
| Ollama.CrashEndsRun | improve_with_ollama.py:114-137 | after an uncaught error, later correlations change nothing |
| Ollama.ProcessAllAsWritten | improve_with_ollama.py:114-137 | the loop as written, left at the first uncaught error — from loading or summarising events, or after the acceptance test — computes `AsWritten` |
| Ollama.AsWrittenAgrees | improve_with_ollama.py:114-137 | when every classification is missing or a string-valued object, the loop as written saves what the corrected loop saves and counts each, and fails iff some correlation's events raise |
| Ollama.AsWrittenPassedTest | improve_with_ollama.py:128-132 | everything the loop as written writes passed `classification and 'tactic' in c and 'technique' in c` |
| Ollama.ListTacticSaved | improve_with_ollama.py:128-137 | as written, a list-valued tactic is saved and counted; the corrected loop saves nothing |
| Ollama.StringReplyEndsRun | improve_with_ollama.py:114-137 | as written, the classification "tactic technique" is written and ends the run before a well-formed one; the corrected loop saves the well-formed one |
| Ollama.RaisedEndsRun | improve_with_ollama.py:16-31 | an events file that raises ends both loops before a well-formed classification after it |

## Left out

- I/O: file reads and writes, directory listings, `print`, the `subprocess` call to Ollama and the HTTP calls to model APIs. Existence checks and listings are inputs; the exit status of Ollama is the `None` of `ReadReply`'s output.
- `json.loads` and `json.load`: a parameter, or in `I18n.GenerateI18n` the loaded value with `None` for a failing load. A failing `json.load` in the grouping loop of classify_and_localize.py:310-311 raises out of `process_correlation`; the model assumes every grouped file parses.
- Regex search: a parameter in the heuristic classifier. The file-name pattern is modelled concretely, with `\d` as the ASCII digits only.
- `str.lower`, `str.upper` and `str.strip` act on ASCII letters and ASCII whitespace only. Python applies them to all of Unicode.
- Normalizer.NormalizeEventTable: non-string JSON values (an `EventID` that is a number, or a `User` that is a list) are not modelled. Every field is a string, "" for a missing one, so `str(x).lower()` is `Lower(x)`. The `except` at process_correlations.py:105-106 therefore never fires in the model.
- `normalize_all_events`, the taxonomy loader and the rest of process_correlations.py after line 322 are not part of this model.
- The prompts, and the event summaries built for prompts in `classify_mitre_attack` (classify_and_localize.py:107-114) and improve_with_ollama.py:27-35, are text for a language model; only the relevant-keys summary of `generate_localization` is modelled.
- Localize.SelectBy: the `except` at classify_and_localize.py:349-352 (a missing `tactic` in the model's answer, a failed write) is outside the model; it stops at choosing the group.
- Localize.CleanFences: the code removes a leading "```yaml" and then, independently, a leading "```". It is not an either-or, and the model follows the code.
- I18n.EnFileText: the concrete template literals are not checked character by character to be free of stray braces. The relation between `str.format` on a template's source and its filled parts is proved generically (`I18n.FormatSource`). The files are stated as the filled parts.
- I18n.Format: only the `{name}`, `{{` and `}}` forms of `str.format` are interpreted. Format specs, conversions, indexing and positional fields do not occur in the templates.
- Heuristics.NormFields: a `norm_fields_*.json` file is taken to be an object with string values, because process_correlations.py:356-360 writes each one from `normalize_event`, whose values are all strings. A list would make `fields.get` raise at generate_answers.py:177-180, and a non-string value would be printed by `str()` at generate_answers.py:182 and classify_and_localize.py:200; neither is modelled.
- JSON numbers are one kind (`real`); Python's distinction of `int` and `float` changes none of the modelled decisions.
- Ollama.Run: a correlation carries the classification `classify_with_ollama` returned for it, or `Raised` when loading or summarising its events raised; how that value is read from Ollama's output is `ReadReply`, stated on its own, so the loops take the parsed classification rather than the raw output. Which events files raise is an input; the JSON shapes that make them raise are not modelled.
- The `print` of tactic and technique after slicing (improve_with_ollama.py:136) shows a list as its `repr`; the model keeps the sliced JSON value instead.
- improve_with_github_models.py, create_zip.py and run_homework.py are callers and packaging scripts and are not part of this model.

## Findings

| source | as written | input that shows it | evidently intended | confidence | as-written member | corrected member |
|---|---|---|---|---|---|---|
| improve_with_ollama.py:128-135 | the test `classification and 'tactic' in classification and 'technique' in classification` accepts any value for which `in` finds both words, then writes it to answers.json and calls `.get` and slices on it, outside any `try` | a reply that parses to the JSON string "tactic technique", or to `{"tactic": null, "technique": "PowerShell"}`: it is saved, and the run then stops with an uncaught AttributeError or TypeError | accept only an object whose tactic and technique are strings, and show prefixes of 30 and 40 characters | not executed | Ollama.Review (ReviewCrashesOnString, ReviewCrashesOnNullTactic), Ollama.ProcessAllAsWritten (StringReplyEndsRun) | Ollama.ReviewChecked (ReviewCheckedAgrees, used by ProcessAll; AsWrittenAgrees) |
