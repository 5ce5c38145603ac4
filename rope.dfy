/**
 * src/debug/reference/hf_rope_check.py: the rotary-embedding reference.
 * The trigonometry and the powers of theta are left to the caller: the
 * model takes the cos and sin of each pair's angle as given sequences.
 */
module Rope {
  import opened Wrappers
  import opened PyText
  import opened JsonValue
  import opened ConfigChecks

  /**
   * torch.arange(0, head_dim, 2): the numerators of the frequency exponents,
   * one per frequency. A head_dim of 0 gives none; a negative one makes
   * arange raise (its end lies before its start), which is None here.
   */
  function FreqExponents(headDim: int): (r: Option<seq<int>>)
    ensures r.None? <==> headDim < 0
    ensures r.Some? ==> forall k :: 0 <= k < |r.value| ==> r.value[k] == 2 * k
  {
    if headDim < 0 then None else Some(seq((headDim + 1) / 2, k => 2 * k))
  }

  /** One frequency per even index below head_dim: (head_dim + 1) / 2 of them. */
  lemma FreqCount(headDim: nat)
    ensures FreqExponents(headDim).Some?
    ensures |FreqExponents(headDim).value| == (headDim + 1) / 2
    ensures forall j :: j in FreqExponents(headDim).value <==> 0 <= j < headDim && j % 2 == 0
  {
    var r := FreqExponents(headDim).value;
    forall j | 0 <= j < headDim && j % 2 == 0 ensures j in r {
      assert r[j / 2] == j;
    }
  }

  /** x[start::2] for start 0 or 1. */
  function Stride(x: seq<real>, start: nat): (r: seq<real>)
    requires start <= 1
    ensures |r| == (|x| + 1 - start) / 2
    ensures forall i :: 0 <= i < |r| ==> r[i] == x[start + 2 * i]
  {
    seq((|x| + 1 - start) / 2, i requires 0 <= i < (|x| + 1 - start) / 2 => x[start + 2 * i])
  }

  /** Element-wise product, difference and sum of equal-length vectors. */
  function Times(a: seq<real>, b: seq<real>): (r: seq<real>)
    requires |a| == |b|
    ensures |r| == |a| && forall i :: 0 <= i < |r| ==> r[i] == a[i] * b[i]
  {
    seq(|a|, i requires 0 <= i < |a| => a[i] * b[i])
  }

  function Minus(a: seq<real>, b: seq<real>): (r: seq<real>)
    requires |a| == |b|
    ensures |r| == |a| && forall i :: 0 <= i < |r| ==> r[i] == a[i] - b[i]
  {
    seq(|a|, i requires 0 <= i < |a| => a[i] - b[i])
  }

  function Plus(a: seq<real>, b: seq<real>): (r: seq<real>)
    requires |a| == |b|
    ensures |r| == |a| && forall i :: 0 <= i < |r| ==> r[i] == a[i] + b[i]
  {
    seq(|a|, i requires 0 <= i < |a| => a[i] + b[i])
  }

  /** A vector whose slots `0::2` hold `even` and slots `1::2` hold `odd`. */
  function Interleave(even: seq<real>, odd: seq<real>): (r: seq<real>)
    requires |even| == |odd|
    ensures |r| == 2 * |even|
    ensures forall i :: 0 <= i < |even| ==> r[2 * i] == even[i] && r[2 * i + 1] == odd[i]
  {
    if even == [] then []
    else [even[0], odd[0]] + Interleave(even[1..], odd[1..])
  }

  /**
   * The shapes the tensor arithmetic accepts: as many angles as pairs, and
   * an even length (an odd one leaves x[1::2] one shorter than x[0::2]).
   */
  predicate ShapeOk(n: nat, cosCount: nat, sinCount: nat) {
    n == 2 * cosCount && sinCount == cosCount
  }

  /**
   * The rotation slot by slot: an even slot 2i takes x[2i]·cos[i] − x[2i+1]·sin[i],
   * the odd slot after it x[2i]·sin[i] + x[2i+1]·cos[i].
   */
  function Rotate(x: seq<real>, cos: seq<real>, sin: seq<real>): (r: seq<real>)
    requires ShapeOk(|x|, |cos|, |sin|)
    ensures |r| == |x|
  {
    seq(|x|, k requires 0 <= k < |x| =>
      if k % 2 == 0 then x[k] * cos[k / 2] - x[k + 1] * sin[k / 2]
      else x[k - 1] * sin[k / 2] + x[k] * cos[k / 2])
  }

  datatype RopeError = DimensionMismatch

  /**
   * apply_rope_to_vector: the even/odd halves are rotated as whole vectors,
   * then written into a zero buffer of the input's length, first the even
   * slots and then the odd ones.
   */
  method ApplyRopeToVector(x: seq<real>, cos: seq<real>, sin: seq<real>)
    returns (r: Result<array<real>, RopeError>)
    ensures r.Ok? <==> ShapeOk(|x|, |cos|, |sin|)
    ensures r.Ok? ==> fresh(r.value) && r.value[..] == Rotate(x, cos, sin)
  {
    if !ShapeOk(|x|, |cos|, |sin|) {
      return Err(DimensionMismatch);
    }
    var xEven := Stride(x, 0);
    var xOdd := Stride(x, 1);
    var outEven := Minus(Times(xEven, cos), Times(xOdd, sin));
    var outOdd := Plus(Times(xEven, sin), Times(xOdd, cos));
    var out := new real[|x|](_ => 0.0);
    AssignStride(out, 0, outEven);
    AssignStride(out, 1, outOdd);
    InterleaveSlots(out[..], outEven, outOdd);
    SlicesRotate(x, cos, sin);
    r := Ok(out);
  }

  /** The slice assignment `out[start::2] = vals` on a buffer of twice the length. */
  method AssignStride(out: array<real>, start: nat, vals: seq<real>)
    requires start <= 1 && out.Length == 2 * |vals|
    modifies out
    ensures forall j :: 0 <= j < out.Length ==>
      out[j] == if j % 2 == start then vals[j / 2] else old(out[j])
  {
    for i := 0 to |vals|
      invariant forall j :: 0 <= j < out.Length ==>
        out[j] == if j % 2 == start && j / 2 < i then vals[j / 2] else old(out[j])
    {
      out[2 * i + start] := vals[i];
    }
  }

  /** A vector whose even and odd slots hold `even` and `odd` is their interleaving. */
  lemma InterleaveSlots(v: seq<real>, even: seq<real>, odd: seq<real>)
    requires |even| == |odd| && |v| == 2 * |even|
    requires forall j :: 0 <= j < |v| ==> v[j] == if j % 2 == 0 then even[j / 2] else odd[j / 2]
    ensures v == Interleave(even, odd)
  {
    var w := Interleave(even, odd);
    forall j | 0 <= j < |v| ensures v[j] == w[j] {
      var i := j / 2;
      if j % 2 == 0 {
        assert j == 2 * i;
      } else {
        assert j == 2 * i + 1;
      }
    }
  }

  /** Composing the slices as the script does yields the slot-by-slot rotation. */
  lemma SlicesRotate(x: seq<real>, cos: seq<real>, sin: seq<real>)
    requires ShapeOk(|x|, |cos|, |sin|)
    ensures Interleave(Minus(Times(Stride(x, 0), cos), Times(Stride(x, 1), sin)),
                       Plus(Times(Stride(x, 0), sin), Times(Stride(x, 1), cos)))
         == Rotate(x, cos, sin)
  {
    var xEven, xOdd := Stride(x, 0), Stride(x, 1);
    var outEven := Minus(Times(xEven, cos), Times(xOdd, sin));
    var outOdd := Plus(Times(xEven, sin), Times(xOdd, cos));
    var got, want := Interleave(outEven, outOdd), Rotate(x, cos, sin);
    forall j | 0 <= j < |x| ensures got[j] == want[j] {
      var i := j / 2;
      RotatePair(x, cos, sin, i);
      SlicePair(x, cos, sin, i);
      if j % 2 == 0 {
        assert j == 2 * i;
      } else {
        assert j == 2 * i + 1;
      }
    }
  }

  lemma SlicePair(x: seq<real>, cos: seq<real>, sin: seq<real>, i: nat)
    requires ShapeOk(|x|, |cos|, |sin|) && i < |cos|
    ensures Minus(Times(Stride(x, 0), cos), Times(Stride(x, 1), sin))[i] == x[2 * i] * cos[i] - x[2 * i + 1] * sin[i]
    ensures Plus(Times(Stride(x, 0), sin), Times(Stride(x, 1), cos))[i] == x[2 * i] * sin[i] + x[2 * i + 1] * cos[i]
  {
    var xEven, xOdd := Stride(x, 0), Stride(x, 1);
    assert xEven[i] == x[2 * i] && xOdd[i] == x[2 * i + 1];
  }

  /** out[2i] = x[2i]·cos[i] − x[2i+1]·sin[i] and out[2i+1] = x[2i]·sin[i] + x[2i+1]·cos[i]. */
  lemma RotatePair(x: seq<real>, cos: seq<real>, sin: seq<real>, i: nat)
    requires ShapeOk(|x|, |cos|, |sin|) && i < |cos|
    ensures |Rotate(x, cos, sin)| == |x|
    ensures Rotate(x, cos, sin)[2 * i] == x[2 * i] * cos[i] - x[2 * i + 1] * sin[i]
    ensures Rotate(x, cos, sin)[2 * i + 1] == x[2 * i] * sin[i] + x[2 * i + 1] * cos[i]
  {
    assert 2 * i + 1 < |x|;
  }

  /**
   * Pair convention: output pair i depends on input pair i and angle i only,
   * so two inputs that agree there give the same output pair.
   */
  lemma RotatePairLocal(x: seq<real>, y: seq<real>, cos: seq<real>, sin: seq<real>,
                        cos': seq<real>, sin': seq<real>, i: nat)
    requires ShapeOk(|x|, |cos|, |sin|) && ShapeOk(|y|, |cos'|, |sin'|)
    requires i < |cos| && i < |cos'|
    requires x[2 * i] == y[2 * i] && x[2 * i + 1] == y[2 * i + 1]
    requires cos[i] == cos'[i] && sin[i] == sin'[i]
    ensures Rotate(x, cos, sin)[2 * i] == Rotate(y, cos', sin')[2 * i]
    ensures Rotate(x, cos, sin)[2 * i + 1] == Rotate(y, cos', sin')[2 * i + 1]
  {
    RotatePair(x, cos, sin, i);
    RotatePair(y, cos', sin', i);
  }

  /** At position 0 (every cos 1, every sin 0) the vector is unchanged. */
  lemma RotateIdentity(x: seq<real>, cos: seq<real>, sin: seq<real>)
    requires ShapeOk(|x|, |cos|, |sin|)
    requires forall i :: 0 <= i < |cos| ==> cos[i] == 1.0
    requires forall i :: 0 <= i < |sin| ==> sin[i] == 0.0
    ensures Rotate(x, cos, sin) == x
  {
    var r := Rotate(x, cos, sin);
    forall j | 0 <= j < |x| ensures r[j] == x[j] {
      var i := j / 2;
      RotatePair(x, cos, sin, i);
      assert cos[i] == 1.0 && sin[i] == 0.0;
      if j % 2 == 0 {
        assert j == 2 * i;
      } else {
        assert j == 2 * i + 1;
      }
    }
  }

  /** The test vector's first pair (1, 0) comes out as (cos[0], sin[0]). */
  lemma RotateUnitPair(x: seq<real>, cos: seq<real>, sin: seq<real>)
    requires ShapeOk(|x|, |cos|, |sin|) && |cos| >= 1
    requires x[0] == 1.0 && x[1] == 0.0
    ensures Rotate(x, cos, sin)[0] == cos[0] && Rotate(x, cos, sin)[1] == sin[0]
  {
    RotatePair(x, cos, sin, 0);
  }

  function Negate(s: seq<real>): (r: seq<real>)
    ensures |r| == |s| && forall i :: 0 <= i < |s| ==> r[i] == -s[i]
  {
    seq(|s|, i requires 0 <= i < |s| => -s[i])
  }

  /**
   * Rotating by an angle and then by its negation (same cos, negated sin)
   * gives the input back, when each (cos, sin) lies on the unit circle.
   */
  lemma RotateInverse(x: seq<real>, cos: seq<real>, sin: seq<real>)
    requires ShapeOk(|x|, |cos|, |sin|)
    requires forall i :: 0 <= i < |cos| ==> cos[i] * cos[i] + sin[i] * sin[i] == 1.0
    ensures Rotate(Rotate(x, cos, sin), cos, Negate(sin)) == x
  {
    var z := Rotate(Rotate(x, cos, sin), cos, Negate(sin));
    forall j | 0 <= j < |x| ensures z[j] == x[j] {
      var i := j / 2;
      InverseAt(x, cos, sin, i);
      if j % 2 == 0 {
        assert j == 2 * i;
      } else {
        assert j == 2 * i + 1;
      }
    }
  }

  /** One pair of RotateInverse. */
  lemma InverseAt(x: seq<real>, cos: seq<real>, sin: seq<real>, i: nat)
    requires ShapeOk(|x|, |cos|, |sin|) && i < |cos|
    requires cos[i] * cos[i] + sin[i] * sin[i] == 1.0
    ensures |Rotate(Rotate(x, cos, sin), cos, Negate(sin))| == |x|
    ensures Rotate(Rotate(x, cos, sin), cos, Negate(sin))[2 * i] == x[2 * i]
    ensures Rotate(Rotate(x, cos, sin), cos, Negate(sin))[2 * i + 1] == x[2 * i + 1]
  {
    var y := Rotate(x, cos, sin);
    var ns := Negate(sin);
    RotatePair(x, cos, sin, i);
    RotatePair(y, cos, ns, i);
    PairInverse(x[2 * i], x[2 * i + 1], cos[i], sin[i]);
  }

  lemma PairInverse(a: real, b: real, c: real, s: real)
    requires c * c + s * s == 1.0
    ensures (a * c - b * s) * c - (a * s + b * c) * (-s) == a
    ensures (a * c - b * s) * (-s) + (a * s + b * c) * c == b
  {
    calc {
      (a * c - b * s) * c - (a * s + b * c) * (-s);
      a * (c * c + s * s);
      a;
    }
    calc {
      (a * c - b * s) * (-s) + (a * s + b * c) * c;
      b * (c * c + s * s);
      b;
    }
  }

  /**
   * With an even head_dim the frequencies match the pairs of a head_dim
   * vector; with an odd one the rotation is refused.
   */
  lemma HeadDimShapes(headDim: nat, x: seq<real>, cos: seq<real>, sin: seq<real>)
    requires |x| == headDim && |cos| == |FreqExponents(headDim).value| && |sin| == |cos|
    ensures ShapeOk(|x|, |cos|, |sin|) <==> headDim % 2 == 0
  {
    FreqCount(headDim);
  }

  datatype RopeConfig = RopeConfig(model: string, pos: int, dim: int, theta: real)

  const Script := "hf_rope_check.py"

  /** The script's checks: model, then pos, then dim, then theta. */
  function ValidateConfig(argv: seq<string>, document: JValue): (r: Result<RopeConfig, ConfigError>)
    ensures r.Ok? <==> (|argv| == 2 && document.JObj?
      && Get(document.fields, "model").JStr? && !IsBlank(Get(document.fields, "model").s)
      && IsPyInt(Get(document.fields, "pos")) && IsPyInt(Get(document.fields, "dim"))
      && IsPyNumber(Get(document.fields, "theta")))
    ensures r.Ok? ==> var c := document.fields;
      && r.value.model == c["model"].s && r.value.pos == PyIntValue(c["pos"])
      && r.value.dim == PyIntValue(c["dim"]) && r.value.theta == PyNumberValue(c["theta"])
    ensures |argv| != 2 ==> r == Err(Usage(Script))
    ensures |argv| == 2 && !document.JObj? ==> r == Err(NotAnObject)
    ensures |argv| == 2 && document.JObj? ==> var c := document.fields;
      && (!(Get(c, "model").JStr? && !IsBlank(Get(c, "model").s)) ==> r == Err(NotNonEmptyString("model")))
      && ((Get(c, "model").JStr? && !IsBlank(Get(c, "model").s) && !IsPyInt(Get(c, "pos")))
            ==> r == Err(NotInteger("pos")))
      && ((Get(c, "model").JStr? && !IsBlank(Get(c, "model").s) && IsPyInt(Get(c, "pos"))
           && !IsPyInt(Get(c, "dim"))) ==> r == Err(NotInteger("dim")))
      && ((Get(c, "model").JStr? && !IsBlank(Get(c, "model").s) && IsPyInt(Get(c, "pos"))
           && IsPyInt(Get(c, "dim")) && !IsPyNumber(Get(c, "theta"))) ==> r == Err(NotNumber("theta")))
  {
    match LoadConfig(Script, argv, document)
    case Err(e) => Err(e)
    case Ok(c) =>
      match RequireString(c, "model")
      case Err(e) => Err(e)
      case Ok(model) =>
        match RequireInt(c, "pos")
        case Err(e) => Err(e)
        case Ok(pos) =>
          match RequireInt(c, "dim")
          case Err(e) => Err(e)
          case Ok(dim) =>
            var theta := Get(c, "theta");
            if !IsPyNumber(theta) then Err(NotNumber("theta"))
            else Ok(RopeConfig(model, pos, dim, PyNumberValue(theta)))
  }
}
