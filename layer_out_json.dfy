/**
 * src/debug/reference/hf_layer_out.py: the JSON configuration checks, then
 * the layer report.
 */
module LayerOutJson {
  import opened Wrappers
  import opened PyText
  import opened JsonValue
  import opened ConfigChecks
  import opened LayerReport

  const Script := "hf_layer_out.py"

  /**
   * The validated configuration. `token` is the integer a JSON int or bool
   * stands for; `tokenIsBool` records that it was a bool, which the tensor
   * subscript treats differently.
   */
  datatype LayerOutConfig = LayerOutConfig(model: string, prompt: string, layers: seq<int>, token: int, tokenIsBool: bool)

  /** `isinstance(layers, list) and layers`. */
  predicate IsNonEmptyList(v: JValue) {
    v.JList? && |v.items| > 0
  }

  /** `all(isinstance(x, int) for x in layers)`. */
  predicate AllPyInts(items: seq<JValue>) {
    forall k :: 0 <= k < |items| ==> IsPyInt(items[k])
  }

  /** The layer numbers, booleans read as 0 and 1. */
  function PyInts(items: seq<JValue>): (r: seq<int>)
    requires AllPyInts(items)
    ensures |r| == |items| && forall k :: 0 <= k < |r| ==> r[k] == PyIntValue(items[k])
  {
    if items == [] then [] else [PyIntValue(items[0])] + PyInts(items[1..])
  }

  /** The layer checks: a non-empty list whose entries are all ints. */
  predicate LayersOk(c: Config) {
    IsNonEmptyList(Get(c, "layers")) && AllPyInts(Get(c, "layers").items)
  }

  /** All checks of the script pass. */
  predicate ValidConfig(c: Config) {
    && NonBlankStringAt(c, "model") && NonBlankStringAt(c, "prompt")
    && LayersOk(c) && IsPyInt(Get(c, "token"))
  }

  /**
   * The checks in the script's order; the first that fails decides the
   * error.
   */
  function ValidateConfig(argv: seq<string>, document: JValue): (r: Result<LayerOutConfig, ConfigError>)
    ensures r.Ok? <==> |argv| == 2 && document.JObj? && ValidConfig(document.fields)
    ensures r.Ok? ==> var c := document.fields;
      && r.value.model == c["model"].s && r.value.prompt == c["prompt"].s
      && r.value.layers == PyInts(c["layers"].items) && r.value.token == PyIntValue(c["token"])
      && (r.value.tokenIsBool <==> c["token"].JBool?)
    ensures |argv| != 2 ==> r == Err(Usage(Script))
    ensures |argv| == 2 && !document.JObj? ==> r == Err(NotAnObject)
    ensures |argv| == 2 && document.JObj? ==> var c := document.fields;
      && (!NonBlankStringAt(c, "model") ==> r == Err(NotNonEmptyString("model")))
      && (NonBlankStringAt(c, "model") && !NonBlankStringAt(c, "prompt") ==> r == Err(NotNonEmptyString("prompt")))
      && (NonBlankStringAt(c, "model") && NonBlankStringAt(c, "prompt") && !IsNonEmptyList(Get(c, "layers"))
          ==> r == Err(NotNonEmptyArray("layers")))
      && ((NonBlankStringAt(c, "model") && NonBlankStringAt(c, "prompt") && IsNonEmptyList(Get(c, "layers"))
           && !AllPyInts(Get(c, "layers").items)) ==> r == Err(EntriesNotIntegers("layers")))
      && ((NonBlankStringAt(c, "model") && NonBlankStringAt(c, "prompt") && LayersOk(c)
           && !IsPyInt(Get(c, "token"))) ==> r == Err(NotInteger("token")))
  {
    match LoadConfig(Script, argv, document)
    case Err(e) => Err(e)
    case Ok(c) =>
      match RequireString(c, "model")
      case Err(e) => Err(e)
      case Ok(model) =>
        match RequireString(c, "prompt")
        case Err(e) => Err(e)
        case Ok(prompt) =>
          var layers := Get(c, "layers");
          if !IsNonEmptyList(layers) then Err(NotNonEmptyArray("layers"))
          else if !AllPyInts(layers.items) then Err(EntriesNotIntegers("layers"))
          else
            var token := Get(c, "token");
            if !IsPyInt(token) then Err(NotInteger("token"))
            else Ok(LayerOutConfig(model, prompt, PyInts(layers.items), PyIntValue(token), token.JBool?))
  }

  /**
   * The whole script once the framework has tokenized the prompt into
   * `numTokens` tokens and produced `hidden`.
   */
  method Run(argv: seq<string>, document: JValue, hidden: seq<Tensor>, numTokens: nat)
    returns (r: Result<LayerOutReport, ConfigError>)
    requires WellShaped(hidden)
    ensures r.Err? <==> ValidateConfig(argv, document).Err?
    ensures r.Err? ==> r.error == ValidateConfig(argv, document).error
    ensures r.Ok? ==> var c := ValidateConfig(argv, document).value;
      && (!c.tokenIsBool ==> IsReport(r.value, hidden, c.layers, c.token, numTokens))
      && (c.tokenIsBool ==> IsBoolTokenReport(r.value, hidden, c.layers, c.token))
  {
    var c := ValidateConfig(argv, document);
    if c.Err? {
      return Err(c.error);
    }
    if c.value.tokenIsBool {
      var main, mainDone := BoolTokenMainSection(hidden, c.value.layers);
      return Ok(LayerOutReport(c.value.token, main, [], mainDone));
    }
    var report := Report(hidden, c.value.layers, c.value.token, numTokens);
    r := Ok(report);
  }

  /**
   * The main loop when `token` is a JSON bool. `token_idx` stays True or
   * False (a bool is >= 0), and torch reads a bool subscript as a mask, not
   * as a row: for True the first-8 list comes out nested and formatting it
   * raises TypeError, for False the selection is empty and max() raises.
   * So the loop prints the OUT OF RANGE markers before the first in-range
   * layer and then raises.
   */
  method BoolTokenMainSection(hidden: seq<Tensor>, layers: seq<int>)
    returns (entries: seq<MainEntry>, completed: bool)
    ensures |entries| <= |layers|
    ensures forall k :: 0 <= k < |entries| ==>
      OutOfRangeLayer(hidden, layers[k]) && entries[k] == OutOfRange(layers[k])
    ensures completed <==> |entries| == |layers|
    ensures !completed ==> !OutOfRangeLayer(hidden, layers[|entries|])
  {
    entries := [];
    for i := 0 to |layers|
      invariant |entries| == i
      invariant forall k :: 0 <= k < i ==> OutOfRangeLayer(hidden, layers[k]) && entries[k] == OutOfRange(layers[k])
    {
      var layer := layers[i];
      if layer < |hidden| - 1 {
        return entries, false;
      }
      entries := entries + [OutOfRange(layer)];
    }
    completed := true;
  }

  /** What Run promises when the token is a bool: markers only, then a raise unless every layer is out of range. */
  predicate IsBoolTokenReport(r: LayerOutReport, hidden: seq<Tensor>, layers: seq<int>, token: int) {
    && r.tokenIdx == token
    && |r.main| <= |layers|
    && (forall k :: 0 <= k < |r.main| ==> OutOfRangeLayer(hidden, layers[k]) && r.main[k] == OutOfRange(layers[k]))
    && (r.completed <==> |r.main| == |layers|)
    && (!r.completed ==> !OutOfRangeLayer(hidden, layers[|r.main|]))
    && r.bos == []
  }

  /**
   * With a bool token the script finishes exactly when no requested layer
   * is in range, and then its (empty) BOS section is the one the in-range
   * layers give.
   */
  lemma BoolTokenCompletesIffNoneInRange(r: LayerOutReport, hidden: seq<Tensor>, layers: seq<int>, token: int)
    requires IsBoolTokenReport(r, hidden, layers, token)
    ensures r.completed <==> InRangeLayers(hidden, layers) == []
  {
    if r.completed {
      InRangeNone(hidden, layers);
    } else {
      var first := layers[|r.main|];
      InRangeMembership(hidden, layers, first);
      assert first in InRangeLayers(hidden, layers);
    }
  }

  /** A JSON true among the layers is accepted and asks for layer 1. */
  lemma BoolLayerReadsAsOne(argv: seq<string>, fields: map<string, JValue>)
    requires |argv| == 2
    requires Get(fields, "model") == JStr("m") && Get(fields, "prompt") == JStr("p")
    requires Get(fields, "layers") == JList([JBool(true)]) && Get(fields, "token") == JInt(-1)
    ensures ValidateConfig(argv, JObj(fields)) == Ok(LayerOutConfig("m", "p", [1], -1, false))
  {
    assert !IsSpace("m"[0]) && !IsSpace("p"[0]);
    assert RequireString(fields, "model") == Ok("m");
    assert RequireString(fields, "prompt") == Ok("p");
    assert PyInts([JBool(true)]) == [1];
  }

  /** A JSON true token passes the integer check but is flagged as a bool. */
  lemma BoolTokenFlagged(argv: seq<string>, fields: map<string, JValue>)
    requires |argv| == 2
    requires Get(fields, "model") == JStr("m") && Get(fields, "prompt") == JStr("p")
    requires Get(fields, "layers") == JList([JInt(0)]) && Get(fields, "token") == JBool(true)
    ensures ValidateConfig(argv, JObj(fields)) == Ok(LayerOutConfig("m", "p", [0], 1, true))
  {
    assert !IsSpace("m"[0]) && !IsSpace("p"[0]);
    assert RequireString(fields, "model") == Ok("m");
    assert RequireString(fields, "prompt") == Ok("p");
    assert PyInts([JInt(0)]) == [0];
  }

  /** An empty layer list is refused before the entries are looked at. */
  lemma EmptyLayersRejected(argv: seq<string>, fields: map<string, JValue>)
    requires |argv| == 2
    requires Get(fields, "model") == JStr("m") && Get(fields, "prompt") == JStr("p")
    requires Get(fields, "layers") == JList([])
    ensures ValidateConfig(argv, JObj(fields)) == Err(NotNonEmptyArray("layers"))
  {
    assert !IsSpace("m"[0]) && !IsSpace("p"[0]);
    assert RequireString(fields, "model") == Ok("m");
    assert RequireString(fields, "prompt") == Ok("p");
  }
}
