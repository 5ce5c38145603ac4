/**
 * src/debug/reference/hf_embed_check.py: the configuration checks, the
 * three last-token samples and the per-token maxAbs loop. The raw and
 * scaled embeddings and the output the layer-0 hook records are framework
 * outputs given as matrices.
 */
module EmbedCheck {
  import opened Wrappers
  import opened PyText
  import opened JsonValue
  import opened ConfigChecks
  import opened Stats

  const Script := "hf_embed_check.py"

  datatype EmbedConfig = EmbedConfig(model: string, prompt: string)

  /** load_config, then require_string for model and for prompt. */
  function ValidateConfig(argv: seq<string>, document: JValue): (r: Result<EmbedConfig, ConfigError>)
    ensures r.Ok? <==> (|argv| == 2 && document.JObj?
      && Get(document.fields, "model").JStr? && !IsBlank(Get(document.fields, "model").s)
      && Get(document.fields, "prompt").JStr? && !IsBlank(Get(document.fields, "prompt").s))
    ensures r.Ok? ==> r.value == EmbedConfig(document.fields["model"].s, document.fields["prompt"].s)
    ensures |argv| != 2 ==> r == Err(Usage(Script))
    ensures |argv| == 2 && !document.JObj? ==> r == Err(NotAnObject)
    ensures |argv| == 2 && document.JObj? ==> var c := document.fields;
      && (!NonBlankStringAt(c, "model") ==> r == Err(NotNonEmptyString("model")))
      && (NonBlankStringAt(c, "model") && !NonBlankStringAt(c, "prompt") ==> r == Err(NotNonEmptyString("prompt")))
  {
    match LoadConfig(Script, argv, document)
    case Err(e) => Err(e)
    case Ok(c) =>
      match RequireString(c, "model")
      case Err(e) => Err(e)
      case Ok(model) =>
        match RequireString(c, "prompt")
        case Err(e) => Err(e)
        case Ok(prompt) => Ok(EmbedConfig(model, prompt))
  }

  /** This script samples 5 values, not 8. */
  const SampleSize: nat := 5

  /** `x[0, -1, :5]`: the first values of the last token's row. */
  function LastTokenHead(x: seq<seq<real>>): (r: seq<real>)
    requires |x| > 0
    ensures |r| == Min(5, |x[|x| - 1]|)
    ensures forall j :: 0 <= j < |r| ==> r[j] == x[|x| - 1][j]
  {
    Head(x[PyIndex(|x|, -1).value], SampleSize)
  }

  /** One line of the per-token comparison. */
  datatype TokenMaxAbs = TokenMaxAbs(token: nat, emb: real, layer0: real)

  /** `for t in range(num_tokens)` over the scaled embeddings and the layer-0 output. */
  method PerTokenMaxAbs(scaled: seq<seq<real>>, layer0: seq<seq<real>>, numTokens: nat)
    returns (lines: seq<TokenMaxAbs>)
    requires TokenRows(scaled, numTokens) && TokenRows(layer0, numTokens)
    ensures |lines| == numTokens
    ensures forall t :: 0 <= t < numTokens ==> lines[t] == TokenMaxAbs(t, MaxAbs(scaled[t]), MaxAbs(layer0[t]))
  {
    lines := [];
    for t := 0 to numTokens
      invariant |lines| == t
      invariant forall s :: 0 <= s < t ==> lines[s] == TokenMaxAbs(s, MaxAbs(scaled[s]), MaxAbs(layer0[s]))
    {
      var embMax := MaxAbs(scaled[t]);
      var l0Max := MaxAbs(layer0[t]);
      lines := lines + [TokenMaxAbs(t, embMax, l0Max)];
    }
  }

  datatype EmbedReport = EmbedReport(
    rawLast: seq<real>,
    scaledLast: seq<real>,
    layer0Last: seq<real>,
    perToken: seq<TokenMaxAbs>)

  method Report(raw: seq<seq<real>>, scaled: seq<seq<real>>, layer0: seq<seq<real>>, numTokens: nat)
    returns (r: EmbedReport)
    requires numTokens > 0
    requires TokenRows(raw, numTokens) && TokenRows(scaled, numTokens) && TokenRows(layer0, numTokens)
    ensures r.rawLast == LastTokenHead(raw) && r.scaledLast == LastTokenHead(scaled)
    ensures r.layer0Last == LastTokenHead(layer0)
    ensures |r.perToken| == numTokens
    ensures forall t :: 0 <= t < numTokens ==>
      r.perToken[t] == TokenMaxAbs(t, MaxAbs(scaled[t]), MaxAbs(layer0[t]))
  {
    var lines := PerTokenMaxAbs(scaled, layer0, numTokens);
    r := EmbedReport(LastTokenHead(raw), LastTokenHead(scaled), LastTokenHead(layer0), lines);
  }
}
