/** The text that execute_task (src/api/api_service.py) writes into a task
    record: the transcription of the engine's history into strings, and the
    file paths it reads from the configuration. */
module TaskText {
  import opened Base

  /** A dict produced by the engine. Its text exists only through the two
      encoders below. */
  datatype Obj = Obj(entries: map<string, string>)

  /** `json.dumps` and `str()` applied to a dict; both belong to Python's
      library and are given from outside. */
  datatype Encoders = Encoders(jsonDumps: Obj -> string, pyStr: Obj -> string)

  /** One value found in the engine's history: a dict, or any other value,
      represented by the text `str()` gives for it. */
  datatype Item = Structured(obj: Obj) | Text(text: string)

  /** What a history accessor returns: a list of items, or one non-list
      value. */
  datatype Trace = List(items: seq<Item>) | Single(item: Item)

  /** One list item as the generator writes it: dicts JSON-encoded,
      everything else `str()`-ed. */
  function ItemText(enc: Encoders, item: Item): string
  {
    match item
    case Structured(o) => enc.jsonDumps(o)
    case Text(s) => s
  }

  function ItemTexts(enc: Encoders, items: seq<Item>): (r: seq<string>)
    ensures |r| == |items|
    ensures forall i | 0 <= i < |items| :: r[i] == ItemText(enc, items[i])
  {
    seq(|items|, i requires 0 <= i < |items| => ItemText(enc, items[i]))
  }

  /** `"\n".join(parts)`. */
  function Join(parts: seq<string>): string
  {
    if |parts| == 0 then ""
    else if |parts| == 1 then parts[0]
    else parts[0] + "\n" + Join(parts[1..])
  }

  /** `s.split("\n")`: the pieces between newlines, always at least one. */
  function Split(s: string): (r: seq<string>)
    ensures |r| >= 1
  {
    if s == [] then [""]
    else
      var rest := Split(s[1..]);
      if s[0] == '\n' then [""] + rest
      else [[s[0]] + rest[0]] + rest[1..]
  }

  /** Number of newlines in `s`. */
  function Newlines(s: string): nat
  {
    if s == [] then 0 else (if s[0] == '\n' then 1 else 0) + Newlines(s[1..])
  }

  /** Total number of newlines inside the parts themselves. */
  function InnerNewlines(parts: seq<string>): nat
  {
    if parts == [] then 0 else Newlines(parts[0]) + InnerNewlines(parts[1..])
  }

  /** The errors, model_actions and model_thoughts fields: a list becomes
      the newline-join of its item texts; any other value is `str()`-ed
      (a dict here gets `str()`, not JSON). */
  function Transcript(enc: Encoders, t: Trace): (r: string)
    ensures t.List? ==> r == Join(ItemTexts(enc, t.items))
    ensures t.List? && t.items == [] ==> r == ""
    ensures t.List? && |t.items| == 1 ==> r == ItemText(enc, t.items[0])
    ensures t.Single? && t.item.Structured? ==> r == enc.pyStr(t.item.obj)
    ensures t.Single? && t.item.Text? ==> r == t.item.text
  {
    match t
    case List(items) => Join(ItemTexts(enc, items))
    case Single(Structured(o)) => enc.pyStr(o)
    case Single(Text(s)) => s
  }

  /** The final_result field: JSON-encoded when the value is a dict,
      `str()`-ed otherwise. */
  function FinalResultText(enc: Encoders, value: Item): (r: string)
    ensures value.Structured? ==> r == enc.jsonDumps(value.obj)
    ensures value.Text? ==> r == value.text
  {
    ItemText(enc, value)
  }

  /** A configuration value, as far as this code looks at it: its Python
      truthiness and its `str()` text. */
  datatype ConfigValue =
    | CNone
    | CBool(b: bool)
    | CStr(s: string)
    | COther(truthy: bool, text: string)

  /** The configuration dict. */
  type Config = map<string, ConfigValue>

  /** `config.get(key)`: None for a missing key. */
  function Get(cfg: Config, key: string): ConfigValue
  {
    if key in cfg then cfg[key] else CNone
  }

  /** Python truthiness. */
  predicate Truthy(v: ConfigValue)
    ensures v.CNone? ==> !Truthy(v)
    ensures v.CBool? ==> Truthy(v) == v.b
    ensures v.CStr? ==> (Truthy(v) <==> v.s != "")
  {
    match v
    case CNone => false
    case CBool(b) => b
    case CStr(s) => s != ""
    case COther(t, _) => t
  }

  /** Python `str()`. */
  function Str(v: ConfigValue): (r: string)
    ensures v.CNone? ==> r == "None"
    ensures v.CBool? ==> r == (if v.b then "True" else "False")
    ensures v.CStr? ==> r == v.s
    ensures v.CBool? ==> (Truthy(v) <==> r == "True")
    ensures v.CStr? ==> (Truthy(v) <==> r != "")
  {
    match v
    case CNone => "None"
    case CBool(b) => if b then "True" else "False"
    case CStr(s) => s
    case COther(_, text) => text
  }

  /** A path read from the configuration into a record field: None stays
      None, anything else is kept as its text. */
  function PathValue(v: ConfigValue): (r: Option<string>)
    ensures r.None? <==> v.CNone?
    ensures v.CStr? ==> r == Some(v.s)
  {
    if v.CNone? then None else Some(Str(v))
  }

  /** The recording_path field. */
  function RecordingPath(cfg: Config): (r: Option<string>)
    ensures Truthy(Get(cfg, "enable_recording")) ==> r == PathValue(Get(cfg, "save_recording_path"))
    ensures !Truthy(Get(cfg, "enable_recording")) ==> r.None?
    ensures "save_recording_path" !in cfg ==> r.None?
  {
    if Truthy(Get(cfg, "enable_recording")) then PathValue(Get(cfg, "save_recording_path")) else None
  }

  /** The trace_file field. */
  function TraceFile(cfg: Config): (r: Option<string>)
    ensures r.None? <==> Get(cfg, "save_trace_path").CNone?
    ensures Get(cfg, "save_trace_path").CStr? ==> r == Some(Get(cfg, "save_trace_path").s)
    ensures r == PathValue(Get(cfg, "save_trace_path"))
  {
    PathValue(Get(cfg, "save_trace_path"))
  }

  /** Directory of the agent history files. */
  const DefaultHistoryDir: string := "tmp/agent_history"

  /** `config.get('save_agent_history_path', 'tmp/agent_history')`, as text.
      A key present with the value None gives the text "None". */
  function HistoryDir(cfg: Config): (r: string)
    ensures "save_agent_history_path" !in cfg ==> r == DefaultHistoryDir
    ensures "save_agent_history_path" in cfg ==> r == Str(cfg["save_agent_history_path"])
  {
    if "save_agent_history_path" in cfg then Str(cfg["save_agent_history_path"]) else DefaultHistoryDir
  }

  /** The history_file field: `<dir>/<agent id>.json`. */
  function HistoryFile(cfg: Config, agentId: string): (r: string)
    ensures |r| == |HistoryDir(cfg)| + 1 + |agentId| + 5
    ensures r[..|HistoryDir(cfg)|] == HistoryDir(cfg) && r[|HistoryDir(cfg)|] == '/'
    ensures r[|HistoryDir(cfg)| + 1..|r| - 5] == agentId
    ensures r[|r| - 5..] == ".json"
    ensures "save_agent_history_path" !in cfg ==> r == "tmp/agent_history/" + agentId + ".json"
  {
    HistoryDir(cfg) + "/" + agentId + ".json"
  }

  /** `bool(config.get('keep_browser_open', False))`. */
  predicate KeepBrowserOpen(cfg: Config)
    ensures KeepBrowserOpen(cfg) <==> "keep_browser_open" in cfg && Truthy(cfg["keep_browser_open"])
    ensures KeepBrowserOpen(cfg) == Truthy(Get(cfg, "keep_browser_open"))
  {
    Truthy(if "keep_browser_open" in cfg then cfg["keep_browser_open"] else CBool(false))
  }
}
