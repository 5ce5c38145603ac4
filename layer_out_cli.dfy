/**
 * debug/reference/hf_layer_out.py: the command-line variant. Layers come as
 * one comma-separated string, each piece converted with int().
 */
module LayerOutCli {
  import opened Wrappers
  import opened PyText
  import opened PyInt
  import opened LayerReport

  datatype CliArgs = CliArgs(model: string, prompt: string, layers: string, token: int)

  /** The argparse defaults. */
  const Defaults := CliArgs("google/gemma-2-2b-it", "The color of the sky is", "0,12,25", -1)

  /** int() applied to each piece in turn; None as soon as one raises ValueError. */
  function ParseAll(pieces: seq<string>): (r: Option<seq<int>>)
    ensures r.Some? ==> |r.value| == |pieces|
  {
    if pieces == [] then Some([])
    else
      match ParseInt(pieces[0])
      case None => None
      case Some(v) =>
        match ParseAll(pieces[1..])
        case None => None
        case Some(vs) => Some([v] + vs)
  }

  /** The list exists exactly when every piece parses. */
  lemma ParseAllIff(pieces: seq<string>)
    ensures ParseAll(pieces).Some? <==> forall k :: 0 <= k < |pieces| ==> ParseInt(pieces[k]).Some?
  {
    if ParseAll(pieces).Some? {
      ParseAllValues(pieces);
    } else if forall k :: 0 <= k < |pieces| ==> ParseInt(pieces[k]).Some? {
      ParseAllComplete(pieces);
    }
  }

  /** When every piece parses, so does the list. */
  lemma {:induction false} ParseAllComplete(pieces: seq<string>)
    requires forall k :: 0 <= k < |pieces| ==> ParseInt(pieces[k]).Some?
    ensures ParseAll(pieces).Some?
  {
    if pieces != [] {
      var rest := pieces[1..];
      assert forall k :: 0 <= k < |rest| ==> rest[k] == pieces[k + 1];
      ParseAllComplete(rest);
      assert ParseInt(pieces[0]).Some?;
    }
  }

  /** Entry k of the list is int() of piece k. */
  lemma {:induction false} ParseAllValues(pieces: seq<string>)
    requires ParseAll(pieces).Some?
    ensures forall k :: 0 <= k < |pieces| ==> ParseInt(pieces[k]) == Some(ParseAll(pieces).value[k])
  {
    if pieces != [] {
      ParseAllValues(pieces[1..]);
      assert forall k :: 1 <= k < |pieces| ==> pieces[k] == pieces[1..][k - 1];
    }
  }

  /** `[int(x) for x in layers.split(",")]`. */
  function ParseLayers(arg: string): (r: Option<seq<int>>)
    ensures r.Some? ==> |r.value| == |Split(arg, ',')|
  {
    ParseAll(Split(arg, ','))
  }

  /** There is one layer more than there are commas. */
  lemma ParseLayersCount(arg: string)
    requires ParseLayers(arg).Some?
    ensures |ParseLayers(arg).value| == Count(arg, ',') + 1
  {
    SplitCount(arg, ',');
  }

  function Render(layers: seq<int>): (r: seq<string>)
    ensures |r| == |layers| && forall k :: 0 <= k < |r| ==> r[k] == DecimalString(layers[k])
  {
    if layers == [] then [] else [DecimalString(layers[0])] + Render(layers[1..])
  }

  /** The layers written as the script expects them: decimals joined by commas. */
  function LayersArg(layers: seq<int>): string
    requires |layers| >= 1
  {
    Join(Render(layers), ',')
  }

  lemma {:induction false} DecimalStringCommaFree(n: int)
    ensures ',' !in DecimalString(n)
  {
    var d := NatString(if n < 0 then -n else n);
    assert forall k :: 0 <= k < |d| ==> d[k] != ',';
    if n < 0 {
      assert DecimalString(n) == ['-'] + d;
    }
  }

  /** Any non-empty list of layers survives being written out and parsed back. */
  lemma ParseLayersArg(layers: seq<int>)
    requires |layers| >= 1
    ensures ParseLayers(LayersArg(layers)) == Some(layers)
  {
    var pieces := Render(layers);
    forall k | 0 <= k < |pieces| ensures ',' !in pieces[k] {
      DecimalStringCommaFree(layers[k]);
    }
    SplitJoin(pieces, ',');
    ParseRendered(layers);
  }

  lemma {:induction false} ParseRendered(layers: seq<int>)
    ensures ParseAll(Render(layers)) == Some(layers)
  {
    if layers != [] {
      var pieces := Render(layers);
      ParseDecimalString(layers[0]);
      ParseRendered(layers[1..]);
      assert pieces[1..] == Render(layers[1..]);
      assert [layers[0]] + layers[1..] == layers;
    }
  }

  /** The default "0,12,25" asks for layers 0, 12 and 25. */
  lemma DefaultLayers()
    ensures ParseLayers(Defaults.layers) == Some([0, 12, 25])
  {
    assert DecimalString(0) == "0";
    assert NatString(1) == "1";
    assert DecimalString(12) == "12";
    assert NatString(2) == "2";
    assert DecimalString(25) == "25";
    assert Render([0, 12, 25]) == ["0", "12", "25"];
    assert LayersArg([0, 12, 25]) == "0,12,25";
    ParseLayersArg([0, 12, 25]);
  }

  /** The default token -1 is the last token. */
  lemma DefaultTokenIsLast(numTokens: nat)
    requires numTokens >= 1
    ensures ResolveToken(Defaults.token, numTokens) == numTokens - 1
  {
  }

  /** A piece int() refuses stops the script before anything is printed. */
  lemma EmptyPieceRejected()
    ensures ParseLayers("0,,25") == None
  {
    assert Split("0,,25", ',')[1] == "";
  }

  datatype CliError = LayersValueError

  /** The whole script once the framework has produced `hidden`. */
  method Run(args: CliArgs, hidden: seq<Tensor>, numTokens: nat) returns (r: Result<LayerOutReport, CliError>)
    requires WellShaped(hidden)
    ensures r.Err? <==> ParseLayers(args.layers).None?
    ensures r.Ok? ==> IsReport(r.value, hidden, ParseLayers(args.layers).value, args.token, numTokens)
  {
    var layers := ParseLayers(args.layers);
    if layers.None? {
      return Err(LayersValueError);
    }
    var report := Report(hidden, layers.value, args.token, numTokens);
    r := Ok(report);
  }
}
