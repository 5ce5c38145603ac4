/**
 * The configuration checks the JSON-driven scripts share: load_config,
 * require_string and require_int, plus the error each one raises.
 */
module ConfigChecks {
  import opened Wrappers
  import opened PyText
  import opened JsonValue

  /** Why a script stopped with SystemExit before doing any work. */
  datatype ConfigError =
    | Usage(script: string)
    | NotAnObject
    | NotNonEmptyString(key: string)
    | NotNonEmptyArray(key: string)
    | EntriesNotIntegers(key: string)
    | NotInteger(key: string)
    | NotNumber(key: string)
    | NotOneOf(key: string, choices: string)

  /** `Config "<key>"` at the head of a message: the error names its key. */
  predicate NamesKey(m: string, key: string) {
    |m| > |key| + 8 && m[..8] == "Config \"" && m[8..8 + |key|] == key && m[8 + |key|] == '"'
  }

  /** `Config "<key>"` followed by the rest of the message. */
  function KeyMessage(key: string, rest: string): (m: string)
    ensures NamesKey(m, key)
  {
    var m := "Config \"" + key + "\"" + rest;
    assert m[..8] == "Config \"" && m[8..8 + |key|] == key;
    m
  }

  /** The text the script exits with. */
  function Message(e: ConfigError): (r: string)
    ensures e.Usage? ==> |r| > |e.script| + 14 && r[14..14 + |e.script|] == e.script
    ensures !e.Usage? && !e.NotAnObject? ==> NamesKey(r, e.key)
  {
    match e
    case Usage(script) => "Usage: python " + script + " <config.json>"
    case NotAnObject => "Config must be a JSON object"
    case NotNonEmptyString(key) => KeyMessage(key, " must be a non-empty string")
    case NotNonEmptyArray(key) => KeyMessage(key, " must be a non-empty array")
    case EntriesNotIntegers(key) => KeyMessage(key, " entries must be integers")
    case NotInteger(key) => KeyMessage(key, " must be an integer")
    case NotNumber(key) => KeyMessage(key, " must be a number")
    case NotOneOf(key, choices) => KeyMessage(key, " must be one of: " + choices)
  }

  type Config = map<string, JValue>

  /**
   * load_config: exactly one command-line argument (argv has two entries,
   * the script name first), and the document read from that path must be a
   * JSON object. Reading and decoding the file are not modelled: `document`
   * is what json.load returned.
   */
  function LoadConfig(script: string, argv: seq<string>, document: JValue): (r: Result<Config, ConfigError>)
    ensures r.Ok? <==> |argv| == 2 && document.JObj?
    ensures r.Ok? ==> r.value == document.fields
    ensures |argv| != 2 ==> r == Err(Usage(script))
    ensures |argv| == 2 && !document.JObj? ==> r == Err(NotAnObject)
  {
    if |argv| != 2 then Err(Usage(script))
    else if !document.JObj? then Err(NotAnObject)
    else Ok(document.fields)
  }

  /** `isinstance(v, str) and v.strip()` for the value under key. */
  predicate NonBlankStringAt(c: Config, key: string) {
    Get(c, key).JStr? && !IsBlank(Get(c, key).s)
  }

  /** The test `not isinstance(v, str) or not v.strip()`. */
  predicate IsNonEmptyString(v: JValue) {
    v.JStr? && Strip(v.s) != []
  }

  /**
   * require_string: the value must be a string with a non-white-space
   * character; it is returned as given, not stripped.
   */
  function RequireString(config: Config, key: string): (r: Result<string, ConfigError>)
    ensures r.Ok? <==> key in config && config[key].JStr? && !IsBlank(config[key].s)
    ensures r.Ok? ==> r.value == config[key].s
    ensures r.Err? ==> r.error == NotNonEmptyString(key)
  {
    var v := Get(config, key);
    StripEmptyIffBlank(if v.JStr? then v.s else "");
    if IsNonEmptyString(v) then Ok(v.s) else Err(NotNonEmptyString(key))
  }

  /**
   * require_int: the value must pass isinstance(v, int), so a JSON boolean
   * is accepted and behaves as 1 or 0.
   */
  function RequireInt(config: Config, key: string): (r: Result<int, ConfigError>)
    ensures r.Ok? <==> key in config && (config[key].JInt? || config[key].JBool?)
    ensures r.Ok? && config[key].JInt? ==> r.value == config[key].i
    ensures r.Ok? && config[key].JBool? ==> r.value == (if config[key].b then 1 else 0)
    ensures r.Err? ==> r.error == NotInteger(key)
  {
    var v := Get(config, key);
    if IsPyInt(v) then Ok(PyIntValue(v)) else Err(NotInteger(key))
  }

  /** A value require_string turns away: white space only. */
  lemma BlankStringRejected(config: Config, key: string)
    requires key in config && config[key] == JStr(" \t\n")
    ensures RequireString(config, key) == Err(NotNonEmptyString(key))
  {
    assert IsBlank(config[key].s);
  }

  /** JSON true passes require_int and reads as 1. */
  lemma BoolPassesRequireInt(config: Config, key: string)
    requires key in config && config[key] == JBool(true)
    ensures RequireInt(config, key) == Ok(1)
  {
  }
}
