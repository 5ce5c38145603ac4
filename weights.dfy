/**
 * src/debug/reference/hf_weights.py: the configuration checks, the choice
 * of projections to show and the samples taken from each weight matrix.
 * The model and its layers come from the framework; here the four weight
 * matrices of the chosen layer are given.
 */
module Weights {
  import opened Wrappers
  import opened PyText
  import opened JsonValue
  import opened ConfigChecks
  import opened Stats

  const Script := "hf_weights.py"

  /** The keys of the `projections` dict, in insertion order. */
  const ProjectionNames: seq<string> := ["q", "k", "v", "o"]

  /** The values `proj` may take. */
  const ProjChoices: seq<string> := ["q", "k", "v", "o", "all"]

  datatype WeightsConfig = WeightsConfig(model: string, layer: int, proj: string)

  /** `proj in [...]`: only a string equal to one of the choices passes. */
  predicate IsProjChoice(v: JValue) {
    v.JStr? && v.s in ProjChoices
  }

  /** The script's checks: model, then layer, then proj. */
  function ValidateConfig(argv: seq<string>, document: JValue): (r: Result<WeightsConfig, ConfigError>)
    ensures r.Ok? <==> (|argv| == 2 && document.JObj?
      && Get(document.fields, "model").JStr? && !IsBlank(Get(document.fields, "model").s)
      && IsPyInt(Get(document.fields, "layer")) && IsProjChoice(Get(document.fields, "proj")))
    ensures r.Ok? ==> var c := document.fields;
      && r.value.model == c["model"].s && r.value.layer == PyIntValue(c["layer"])
      && r.value.proj == c["proj"].s && r.value.proj in ProjChoices
    ensures r.Err? && r.error.NotOneOf? ==>
      && r.error == NotOneOf("proj", "q, k, v, o, all")
      && document.JObj? && IsPyInt(Get(document.fields, "layer"))
      && !IsProjChoice(Get(document.fields, "proj"))
    ensures |argv| != 2 ==> r == Err(Usage(Script))
    ensures |argv| == 2 && !document.JObj? ==> r == Err(NotAnObject)
    ensures |argv| == 2 && document.JObj? ==> var c := document.fields;
      && (!NonBlankStringAt(c, "model") ==> r == Err(NotNonEmptyString("model")))
      && (NonBlankStringAt(c, "model") && !IsPyInt(Get(c, "layer")) ==> r == Err(NotInteger("layer")))
      && ((NonBlankStringAt(c, "model") && IsPyInt(Get(c, "layer")) && !IsProjChoice(Get(c, "proj")))
          ==> r == Err(NotOneOf("proj", "q, k, v, o, all")))
  {
    match LoadConfig(Script, argv, document)
    case Err(e) => Err(e)
    case Ok(c) =>
      match RequireString(c, "model")
      case Err(e) => Err(e)
      case Ok(model) =>
        match RequireInt(c, "layer")
        case Err(e) => Err(e)
        case Ok(layer) =>
          var proj := Get(c, "proj");
          if !IsProjChoice(proj) then Err(NotOneOf("proj", "q, k, v, o, all"))
          else Ok(WeightsConfig(model, layer, proj.s))
  }

  /**
   * projs_to_show: "all" stands for every projection, in the dict's key
   * order; any other valid choice for itself alone.
   */
  function ProjsToShow(proj: string): (r: seq<string>)
    requires proj in ProjChoices
    ensures forall n :: n in r <==> n in ProjectionNames && (proj == "all" || n == proj)
    ensures forall i, j :: 0 <= i < j < |r| ==> r[i] != r[j]
    ensures proj == "all" ==> r == ProjectionNames
    ensures proj != "all" ==> |r| == 1
  {
    if proj == "all" then ProjectionNames else [proj]
  }

  /** A weight matrix [out_features][in_features] with both sizes positive. */
  predicate IsMatrix(w: seq<seq<real>>) {
    |w| > 0 && |w[0]| > 0 && forall i :: 0 <= i < |w| ==> |w[i]| == |w[0]|
  }

  /** The four projections of the layer's self-attention block. */
  datatype AttnWeights = AttnWeights(q: seq<seq<real>>, k: seq<seq<real>>, v: seq<seq<real>>, o: seq<seq<real>>)

  predicate WellFormed(attn: AttnWeights) {
    IsMatrix(attn.q) && IsMatrix(attn.k) && IsMatrix(attn.v) && IsMatrix(attn.o)
  }

  /** `projections[name]`. */
  function Projection(attn: AttnWeights, name: string): seq<seq<real>>
    requires name in ProjectionNames
  {
    if name == "q" then attn.q
    else if name == "k" then attn.k
    else if name == "v" then attn.v
    else attn.o
  }

  /** What the loop prints about one projection. */
  datatype WeightSample = WeightSample(
    name: string,
    outFeatures: nat,
    inFeatures: nat,
    row0: seq<real>,
    col0: seq<real>,
    at100: Option<real>)

  /** The number of values in each printed slice. */
  const SliceSize: nat := 8

  /**
   * weight[0, :8], weight[:8, 0], and weight[0, 100] only when the row is
   * longer than 100.
   */
  function SampleOf(name: string, w: seq<seq<real>>): (s: WeightSample)
    requires IsMatrix(w)
    ensures s.name == name && s.outFeatures == |w| && s.inFeatures == |w[0]|
    ensures |s.row0| == Min(8, |w[0]|) && forall j :: 0 <= j < |s.row0| ==> s.row0[j] == w[0][j]
    ensures |s.col0| == Min(8, |w|) && forall i :: 0 <= i < |s.col0| ==> s.col0[i] == w[i][0]
    ensures s.at100.Some? <==> |w[0]| > 100
    ensures s.at100.Some? ==> s.at100.value == w[0][100]
  {
    var rows := Min(SliceSize, |w|);
    WeightSample(name, |w|, |w[0]|, Head(w[0], SliceSize),
                 seq(rows, i requires 0 <= i < rows => w[i][0]),
                 if |w[0]| > 100 then Some(w[0][100]) else None)
  }

  /** The `for name in projs_to_show` loop. */
  method ShowWeights(attn: AttnWeights, proj: string) returns (samples: seq<WeightSample>)
    requires proj in ProjChoices && WellFormed(attn)
    ensures |samples| == |ProjsToShow(proj)|
    ensures forall k :: 0 <= k < |samples| ==>
      samples[k] == SampleOf(ProjsToShow(proj)[k], Projection(attn, ProjsToShow(proj)[k]))
  {
    var names := ProjsToShow(proj);
    samples := [];
    for i := 0 to |names|
      invariant |samples| == i
      invariant forall k :: 0 <= k < i ==> samples[k] == SampleOf(names[k], Projection(attn, names[k]))
    {
      var name := names[i];
      var weight := Projection(attn, name);
      samples := samples + [SampleOf(name, weight)];
    }
  }

  /** With proj "all" the samples come out for q, k, v and o, in that order. */
  lemma ShowAllOrder(attn: AttnWeights, samples: seq<WeightSample>)
    requires WellFormed(attn)
    requires |samples| == |ProjsToShow("all")|
    requires forall k :: 0 <= k < |samples| ==>
      samples[k] == SampleOf(ProjsToShow("all")[k], Projection(attn, ProjsToShow("all")[k]))
    ensures |samples| == 4
    ensures samples[0].name == "q" && samples[1].name == "k" && samples[2].name == "v" && samples[3].name == "o"
    ensures samples[2] == SampleOf("v", attn.v)
  {
    assert ProjsToShow("all") == ProjectionNames;
    assert samples[2] == SampleOf(ProjectionNames[2], Projection(attn, ProjectionNames[2]));
  }
}
