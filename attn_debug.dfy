/**
 * src/debug/reference/hf_attn_debug.py: the configuration checks, the
 * sampled rows and the per-token maxAbs loop. The embeddings, the input
 * norm and the Q/K/V projections are framework outputs given as matrices.
 */
module AttnDebug {
  import opened Wrappers
  import opened PyText
  import opened JsonValue
  import opened ConfigChecks
  import opened Stats

  const Script := "hf_attn_debug.py"

  datatype AttnConfig = AttnConfig(model: string, prompt: string, layer: int)

  /** load_config, then require_string for model and prompt, then require_int for layer. */
  function ValidateConfig(argv: seq<string>, document: JValue): (r: Result<AttnConfig, ConfigError>)
    ensures r.Ok? <==> (|argv| == 2 && document.JObj?
      && Get(document.fields, "model").JStr? && !IsBlank(Get(document.fields, "model").s)
      && Get(document.fields, "prompt").JStr? && !IsBlank(Get(document.fields, "prompt").s)
      && IsPyInt(Get(document.fields, "layer")))
    ensures r.Ok? ==> var c := document.fields;
      r.value == AttnConfig(c["model"].s, c["prompt"].s, PyIntValue(c["layer"]))
    ensures |argv| != 2 ==> r == Err(Usage(Script))
    ensures r.Err? && r.error == NotNonEmptyString("prompt") ==>
      document.JObj? && RequireString(document.fields, "model").Ok?
    ensures |argv| == 2 && !document.JObj? ==> r == Err(NotAnObject)
    ensures |argv| == 2 && document.JObj? ==> var c := document.fields;
      && (!NonBlankStringAt(c, "model") ==> r == Err(NotNonEmptyString("model")))
      && (NonBlankStringAt(c, "model") && !NonBlankStringAt(c, "prompt") ==> r == Err(NotNonEmptyString("prompt")))
      && ((NonBlankStringAt(c, "model") && NonBlankStringAt(c, "prompt") && !IsPyInt(Get(c, "layer")))
          ==> r == Err(NotInteger("layer")))
  {
    match LoadConfig(Script, argv, document)
    case Err(e) => Err(e)
    case Ok(c) =>
      match RequireString(c, "model")
      case Err(e) => Err(e)
      case Ok(model) =>
        match RequireString(c, "prompt")
        case Err(e) => Err(e)
        case Ok(prompt) =>
          match RequireInt(c, "layer")
          case Err(e) => Err(e)
          case Ok(layer) => Ok(AttnConfig(model, prompt, layer))
  }

  /** The first values of the last token's row (index -1) and of token 0. */
  datatype RowSamples = RowSamples(last: seq<real>, first: seq<real>)

  function SampleRows(x: seq<seq<real>>, n: nat): (r: RowSamples)
    requires |x| > 0
    ensures |r.last| == Min(n, |x[|x| - 1]|) && forall j :: 0 <= j < |r.last| ==> r.last[j] == x[|x| - 1][j]
    ensures |r.first| == Min(n, |x[0]|) && forall j :: 0 <= j < |r.first| ==> r.first[j] == x[0][j]
  {
    var last := PyIndex(|x|, -1).value;
    RowSamples(Head(x[last], n), Head(x[0], n))
  }

  /** One line of the per-token table. */
  datatype TokenMaxAbs = TokenMaxAbs(token: nat, q: real, k: real, v: real)

  /** `for t in range(num_tokens)`: one line per token, in ascending order. */
  method PerTokenMaxAbs(q: seq<seq<real>>, k: seq<seq<real>>, v: seq<seq<real>>, numTokens: nat)
    returns (lines: seq<TokenMaxAbs>)
    requires TokenRows(q, numTokens) && TokenRows(k, numTokens) && TokenRows(v, numTokens)
    ensures |lines| == numTokens
    ensures forall t :: 0 <= t < numTokens ==> lines[t] == TokenMaxAbs(t, MaxAbs(q[t]), MaxAbs(k[t]), MaxAbs(v[t]))
  {
    lines := [];
    for t := 0 to numTokens
      invariant |lines| == t
      invariant forall s :: 0 <= s < t ==> lines[s] == TokenMaxAbs(s, MaxAbs(q[s]), MaxAbs(k[s]), MaxAbs(v[s]))
    {
      var qMax := MaxAbs(q[t]);
      var kMax := MaxAbs(k[t]);
      var vMax := MaxAbs(v[t]);
      lines := lines + [TokenMaxAbs(t, qMax, kMax, vMax)];
    }
  }

  /** Everything the script prints after loading the model. */
  datatype AttnReport = AttnReport(
    hiddenLast: seq<real>,
    normed: RowSamples,
    q: RowSamples,
    k: RowSamples,
    v: RowSamples,
    perToken: seq<TokenMaxAbs>)

  /** The samples (first 8 of the last token and of token 0), then the per-token loop. */
  method Report(hidden: seq<seq<real>>, normed: seq<seq<real>>,
                q: seq<seq<real>>, k: seq<seq<real>>, v: seq<seq<real>>, numTokens: nat)
    returns (r: AttnReport)
    requires numTokens > 0
    requires TokenRows(hidden, numTokens) && TokenRows(normed, numTokens)
    requires TokenRows(q, numTokens) && TokenRows(k, numTokens) && TokenRows(v, numTokens)
    ensures r.hiddenLast == SampleRows(hidden, 8).last
    ensures r.normed == SampleRows(normed, 8) && r.q == SampleRows(q, 8)
    ensures r.k == SampleRows(k, 8) && r.v == SampleRows(v, 8)
    ensures |r.perToken| == numTokens
    ensures forall t :: 0 <= t < numTokens ==>
      r.perToken[t] == TokenMaxAbs(t, MaxAbs(q[t]), MaxAbs(k[t]), MaxAbs(v[t]))
  {
    var lines := PerTokenMaxAbs(q, k, v, numTokens);
    r := AttnReport(SampleRows(hidden, 8).last, SampleRows(normed, 8),
                    SampleRows(q, 8), SampleRows(k, 8), SampleRows(v, 8), lines);
  }
}
