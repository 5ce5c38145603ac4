/**
 * The report both hf_layer_out.py scripts print once the framework has
 * produced the hidden states: a main section with one entry per requested
 * layer at the chosen token, then a BOS section at position 0.
 *
 * hidden[0] holds the embeddings and hidden[L + 1] the output of layer L;
 * each hidden[j] is the [token][hidden] matrix of batch 0.
 */
module LayerReport {
  import opened Wrappers
  import opened PyText
  import opened Stats

  type Tensor = seq<seq<real>>

  /** Every row has at least one value (the hidden size is positive). */
  predicate WellShaped(hidden: seq<Tensor>) {
    forall l, t :: 0 <= l < |hidden| && 0 <= t < |hidden[l]| ==> |hidden[l][t]| > 0
  }

  /** Both sections print the first 8 values of a row. */
  const SampleSize: nat := 8

  datatype MainEntry =
    | OutOfRange(layer: int)
    | LayerOutput(layer: int, token: int, stats: RowStats)

  datatype BosEntry = BosEntry(layer: int, stats: RowStats)

  /** `token if token >= 0 else num_tokens + token`. */
  function ResolveToken(token: int, numTokens: nat): (r: int)
    ensures token >= 0 ==> r == token
    ensures 0 <= r < numTokens <==> -(numTokens as int) <= token < numTokens
  {
    if token >= 0 then token else numTokens + token
  }

  /** The only range check the scripts make: an upper bound on the layer. */
  predicate OutOfRangeLayer(hidden: seq<Tensor>, layer: int) {
    layer >= |hidden| - 1
  }

  /**
   * `hidden_states[layer + 1][0, row]` with Python's indexing on both
   * subscripts; None where Python raises IndexError.
   */
  function RowAt(hidden: seq<Tensor>, layer: int, row: int): (r: Option<seq<real>>)
    requires WellShaped(hidden)
    ensures r.Some? ==> |r.value| > 0
  {
    match PyIndex(|hidden|, layer + 1)
    case None => None
    case Some(h) =>
      match PyIndex(|hidden[h]|, row)
      case None => None
      case Some(t) => Some(hidden[h][t])
  }

  /** What the main loop prints for one requested layer; None if it raises. */
  function MainEntryFor(hidden: seq<Tensor>, layer: int, tokenIdx: int): (r: Option<MainEntry>)
    requires WellShaped(hidden)
    ensures (r.Some? && r.value.OutOfRange?) <==> OutOfRangeLayer(hidden, layer)
    ensures r.None? <==> !OutOfRangeLayer(hidden, layer) && RowAt(hidden, layer, tokenIdx).None?
  {
    if OutOfRangeLayer(hidden, layer) then Some(OutOfRange(layer))
    else
      match RowAt(hidden, layer, tokenIdx)
      case None => None
      case Some(row) => Some(LayerOutput(layer, tokenIdx, StatsOf(row, SampleSize)))
  }

  /** What the BOS loop prints for an in-range layer; None if it raises. */
  function BosEntryFor(hidden: seq<Tensor>, layer: int): (r: Option<BosEntry>)
    requires WellShaped(hidden)
    ensures r.Some? <==> RowAt(hidden, layer, 0).Some?
    ensures r.Some? ==> r.value.layer == layer
  {
    match RowAt(hidden, layer, 0)
    case None => None
    case Some(row) => Some(BosEntry(layer, StatsOf(row, SampleSize)))
  }

  /** The requested layers the BOS loop does not skip, in request order. */
  function InRangeLayers(hidden: seq<Tensor>, layers: seq<int>): (r: seq<int>)
    ensures |r| <= |layers|
  {
    if layers == [] then []
    else
      var last := layers[|layers| - 1];
      InRangeLayers(hidden, layers[..|layers| - 1]) + (if OutOfRangeLayer(hidden, last) then [] else [last])
  }

  /**
   * The main loop. It stops early only where indexing raises; the entries
   * printed up to that point are kept.
   */
  method MainSection(hidden: seq<Tensor>, layers: seq<int>, tokenIdx: int)
    returns (entries: seq<MainEntry>, completed: bool)
    requires WellShaped(hidden)
    ensures |entries| <= |layers|
    ensures forall k :: 0 <= k < |entries| ==> MainEntryFor(hidden, layers[k], tokenIdx) == Some(entries[k])
    ensures completed <==> |entries| == |layers|
    ensures !completed ==> MainEntryFor(hidden, layers[|entries|], tokenIdx) == None
  {
    entries := [];
    for i := 0 to |layers|
      invariant |entries| == i
      invariant forall k :: 0 <= k < i ==> MainEntryFor(hidden, layers[k], tokenIdx) == Some(entries[k])
    {
      var layer := layers[i];
      if layer >= |hidden| - 1 {
        entries := entries + [OutOfRange(layer)];
        continue;
      }
      var h := PyIndex(|hidden|, layer + 1);
      if h.None? {
        return entries, false;
      }
      var hs := hidden[h.value];
      var t := PyIndex(|hs|, tokenIdx);
      if t.None? {
        return entries, false;
      }
      var row := hs[t.value];
      entries := entries + [LayerOutput(layer, tokenIdx, RowStats(Head(row, 8), MaxAbs(row)))];
    }
    completed := true;
  }

  /**
   * The BOS loop: out-of-range layers are skipped without a marker, the
   * others report position 0.
   */
  method BosSection(hidden: seq<Tensor>, layers: seq<int>)
    returns (entries: seq<BosEntry>, completed: bool)
    requires WellShaped(hidden)
    ensures |entries| <= |InRangeLayers(hidden, layers)|
    ensures forall k :: 0 <= k < |entries| ==>
      BosEntryFor(hidden, InRangeLayers(hidden, layers)[k]) == Some(entries[k])
    ensures completed <==> |entries| == |InRangeLayers(hidden, layers)|
    ensures !completed ==> BosEntryFor(hidden, InRangeLayers(hidden, layers)[|entries|]) == None
  {
    entries := [];
    ghost var ranged: seq<int> := [];
    for i := 0 to |layers|
      invariant ranged == InRangeLayers(hidden, layers[..i])
      invariant |entries| == |ranged|
      invariant forall k :: 0 <= k < |entries| ==> BosEntryFor(hidden, ranged[k]) == Some(entries[k])
    {
      InRangeStep(hidden, layers, i);
      var layer := layers[i];
      if layer >= |hidden| - 1 {
        continue;
      }
      var h := PyIndex(|hidden|, layer + 1);
      if h.None? {
        BosStopped(hidden, layers, i, entries);
        return entries, false;
      }
      var hs := hidden[h.value];
      var t := PyIndex(|hs|, 0);
      if t.None? {
        BosStopped(hidden, layers, i, entries);
        return entries, false;
      }
      var row := hs[t.value];
      assert BosEntryFor(hidden, layer) == Some(BosEntry(layer, RowStats(Head(row, 8), MaxAbs(row))));
      entries := entries + [BosEntry(layer, RowStats(Head(row, 8), MaxAbs(row)))];
      ranged := ranged + [layer];
    }
    assert layers[..|layers|] == layers;
    completed := true;
  }

  /** Where the BOS loop raises, the entries so far are a proper prefix of the in-range ones. */
  lemma BosStopped(hidden: seq<Tensor>, layers: seq<int>, i: nat, entries: seq<BosEntry>)
    requires WellShaped(hidden) && i < |layers| && !OutOfRangeLayer(hidden, layers[i])
    requires BosEntryFor(hidden, layers[i]) == None
    requires |entries| == |InRangeLayers(hidden, layers[..i])|
    requires forall k :: 0 <= k < |entries| ==>
      BosEntryFor(hidden, InRangeLayers(hidden, layers[..i])[k]) == Some(entries[k])
    ensures |entries| < |InRangeLayers(hidden, layers)|
    ensures forall k :: 0 <= k < |entries| ==>
      BosEntryFor(hidden, InRangeLayers(hidden, layers)[k]) == Some(entries[k])
    ensures BosEntryFor(hidden, InRangeLayers(hidden, layers)[|entries|]) == None
  {
    InRangeNext(hidden, layers, i);
    EntriesStopAt(hidden, InRangeLayers(hidden, layers[..i]), InRangeLayers(hidden, layers), entries);
  }

  /** An in-range layer at i follows the in-range layers before it. */
  lemma InRangeNext(hidden: seq<Tensor>, layers: seq<int>, i: nat)
    requires i < |layers| && !OutOfRangeLayer(hidden, layers[i])
    ensures var before, all := InRangeLayers(hidden, layers[..i]), InRangeLayers(hidden, layers);
      && |before| < |all| && all[|before|] == layers[i]
      && forall k :: 0 <= k < |before| ==> all[k] == before[k]
  {
    var before, upTo, all := InRangeLayers(hidden, layers[..i]), InRangeLayers(hidden, layers[..i + 1]),
      InRangeLayers(hidden, layers);
    InRangeStep(hidden, layers, i);
    assert upTo == before + [layers[i]];
    InRangePrefix(hidden, layers, i + 1);
    assert upTo == all[..|upTo|];
  }

  /** Entries for a prefix of `all` are entries for `all`, up to the next layer. */
  lemma EntriesStopAt(hidden: seq<Tensor>, before: seq<int>, all: seq<int>, entries: seq<BosEntry>)
    requires WellShaped(hidden) && |before| < |all|
    requires forall k :: 0 <= k < |before| ==> all[k] == before[k]
    requires BosEntryFor(hidden, all[|before|]) == None
    requires |entries| == |before|
    requires forall k :: 0 <= k < |entries| ==> BosEntryFor(hidden, before[k]) == Some(entries[k])
    ensures |entries| < |all|
    ensures forall k :: 0 <= k < |entries| ==> BosEntryFor(hidden, all[k]) == Some(entries[k])
    ensures BosEntryFor(hidden, all[|entries|]) == None
  {
  }

  /** One more requested layer adds itself to the in-range layers unless it is skipped. */
  lemma InRangeStep(hidden: seq<Tensor>, layers: seq<int>, i: nat)
    requires i < |layers|
    ensures InRangeLayers(hidden, layers[..i + 1]) ==
      InRangeLayers(hidden, layers[..i]) + (if OutOfRangeLayer(hidden, layers[i]) then [] else [layers[i]])
  {
    assert layers[..i + 1][..i] == layers[..i];
  }

  /** The in-range layers of a prefix are a prefix of the in-range layers. */
  lemma {:induction false} InRangePrefix(hidden: seq<Tensor>, layers: seq<int>, i: nat)
    requires i <= |layers|
    ensures |InRangeLayers(hidden, layers[..i])| <= |InRangeLayers(hidden, layers)|
    ensures InRangeLayers(hidden, layers[..i]) == InRangeLayers(hidden, layers)[..|InRangeLayers(hidden, layers[..i])|]
    decreases |layers| - i
  {
    if i < |layers| {
      InRangePrefix(hidden, layers, i + 1);
      assert layers[..i + 1][..i] == layers[..i];
    } else {
      assert layers[..i] == layers;
    }
  }

  /** Both sections together, as the script prints them. */
  datatype LayerOutReport = LayerOutReport(
    tokenIdx: int,
    main: seq<MainEntry>,
    bos: seq<BosEntry>,
    completed: bool)

  /** What Report promises about its result, for the scripts that call it. */
  ghost predicate IsReport(r: LayerOutReport, hidden: seq<Tensor>, layers: seq<int>, token: int, numTokens: nat)
    requires WellShaped(hidden)
  {
    && r.tokenIdx == ResolveToken(token, numTokens)
    && |r.main| <= |layers|
    && (forall k :: 0 <= k < |r.main| ==> MainEntryFor(hidden, layers[k], r.tokenIdx) == Some(r.main[k]))
    && (r.completed <==> |r.main| == |layers|)
    && (!r.completed ==> MainEntryFor(hidden, layers[|r.main|], r.tokenIdx) == None && r.bos == [])
    && (r.completed ==> |r.bos| == |InRangeLayers(hidden, layers)|)
    && (forall k :: 0 <= k < |r.bos| ==>
          |r.bos| <= |InRangeLayers(hidden, layers)| &&
          BosEntryFor(hidden, InRangeLayers(hidden, layers)[k]) == Some(r.bos[k]))
  }

  /**
   * Resolve the token index, run the main loop and, if it did not raise,
   * the BOS loop. The BOS loop can then no longer raise.
   */
  method Report(hidden: seq<Tensor>, layers: seq<int>, token: int, numTokens: nat)
    returns (r: LayerOutReport)
    requires WellShaped(hidden)
    ensures IsReport(r, hidden, layers, token, numTokens)
  {
    var tokenIdx := if token >= 0 then token else numTokens + token;
    var main, mainDone := MainSection(hidden, layers, tokenIdx);
    if !mainDone {
      return LayerOutReport(tokenIdx, main, [], false);
    }
    var bos, bosDone := BosSection(hidden, layers);
    BosCompletesAfterMain(hidden, layers, tokenIdx);
    r := LayerOutReport(tokenIdx, main, bos, true);
  }

  /** Within [-n, n) the script's resolution agrees with Python indexing. */
  lemma ResolveTokenInRange(token: int, numTokens: nat)
    requires -(numTokens as int) <= token < numTokens
    ensures 0 <= ResolveToken(token, numTokens) < numTokens
    ensures PyIndex(numTokens, token) == Some(ResolveToken(token, numTokens))
  {
  }

  /**
   * Below -n the resolved index is still negative, and the tensor
   * subscript resolves it a second time: token -7 of 5 reads row 3.
   */
  lemma TokenResolvedTwice()
    ensures ResolveToken(-7, 5) == -2 && PyIndex(5, -2) == Some(3)
  {
  }

  /** A layer gets an OUT OF RANGE entry exactly when layer >= len(hidden_states) - 1. */
  lemma OutOfRangeIff(hidden: seq<Tensor>, layer: int, tokenIdx: int)
    requires WellShaped(hidden)
    ensures MainEntryFor(hidden, layer, tokenIdx) == Some(OutOfRange(layer)) <==> OutOfRangeLayer(hidden, layer)
  {
  }

  /** Every entry names the layer it was printed for, and the token index. */
  lemma MainEntryLabels(hidden: seq<Tensor>, layer: int, tokenIdx: int)
    requires WellShaped(hidden)
    requires MainEntryFor(hidden, layer, tokenIdx).Some?
    ensures MainEntryFor(hidden, layer, tokenIdx).value.layer == layer
    ensures MainEntryFor(hidden, layer, tokenIdx).value.LayerOutput? ==>
      MainEntryFor(hidden, layer, tokenIdx).value.token == tokenIdx
  {
  }

  /** An in-range layer L reads hidden_states[L + 1], skipping the embeddings. */
  lemma InRangeReadsNextState(hidden: seq<Tensor>, layer: int, tokenIdx: nat)
    requires WellShaped(hidden)
    requires -1 <= layer < |hidden| - 1
    requires tokenIdx < |hidden[layer + 1]|
    ensures MainEntryFor(hidden, layer, tokenIdx)
      == Some(LayerOutput(layer, tokenIdx, StatsOf(hidden[layer + 1][tokenIdx], SampleSize)))
  {
  }

  /** Only the upper bound is checked: layer -1 reads the embeddings. */
  lemma LayerMinusOneReadsEmbeddings(hidden: seq<Tensor>, tokenIdx: nat)
    requires WellShaped(hidden) && |hidden| >= 1 && tokenIdx < |hidden[0]|
    ensures MainEntryFor(hidden, -1, tokenIdx)
      == Some(LayerOutput(-1, tokenIdx, StatsOf(hidden[0][tokenIdx], SampleSize)))
  {
  }

  /** Layer -2 reads hidden_states[-1], the last layer's output. */
  lemma LayerMinusTwoReadsLastState(hidden: seq<Tensor>, tokenIdx: nat)
    requires WellShaped(hidden) && |hidden| >= 1 && tokenIdx < |hidden[|hidden| - 1]|
    ensures MainEntryFor(hidden, -2, tokenIdx)
      == Some(LayerOutput(-2, tokenIdx, StatsOf(hidden[|hidden| - 1][tokenIdx], SampleSize)))
  {
  }

  /** The BOS section keeps exactly the requested layers that are in range. */
  lemma {:induction false} InRangeMembership(hidden: seq<Tensor>, layers: seq<int>, x: int)
    ensures x in InRangeLayers(hidden, layers) <==> x in layers && !OutOfRangeLayer(hidden, x)
  {
    if layers != [] {
      var init := layers[..|layers| - 1];
      InRangeMembership(hidden, init, x);
      assert layers == init + [layers[|layers| - 1]];
    }
  }

  /** With every layer in range the BOS section follows the request exactly. */
  lemma {:induction false} InRangeAll(hidden: seq<Tensor>, layers: seq<int>)
    requires forall k :: 0 <= k < |layers| ==> !OutOfRangeLayer(hidden, layers[k])
    ensures InRangeLayers(hidden, layers) == layers
  {
    if layers != [] {
      InRangeAll(hidden, layers[..|layers| - 1]);
      assert layers == layers[..|layers| - 1] + [layers[|layers| - 1]];
    }
  }

  /** With no layer in range the BOS section is empty. */
  lemma {:induction false} InRangeNone(hidden: seq<Tensor>, layers: seq<int>)
    requires forall k :: 0 <= k < |layers| ==> OutOfRangeLayer(hidden, layers[k])
    ensures InRangeLayers(hidden, layers) == []
  {
    if layers != [] {
      InRangeNone(hidden, layers[..|layers| - 1]);
    }
  }

  /**
   * If the main loop printed every layer, the BOS loop raises on none: each
   * in-range layer's tensor had a row at the token index, so it has a row 0.
   */
  lemma BosCompletesAfterMain(hidden: seq<Tensor>, layers: seq<int>, tokenIdx: int)
    requires WellShaped(hidden)
    requires forall k :: 0 <= k < |layers| ==> MainEntryFor(hidden, layers[k], tokenIdx).Some?
    ensures forall k :: 0 <= k < |InRangeLayers(hidden, layers)| ==>
      BosEntryFor(hidden, InRangeLayers(hidden, layers)[k]).Some?
  {
    var ir := InRangeLayers(hidden, layers);
    forall k | 0 <= k < |ir| ensures BosEntryFor(hidden, ir[k]).Some? {
      InRangeMembership(hidden, layers, ir[k]);
      var j :| 0 <= j < |layers| && layers[j] == ir[k];
      assert MainEntryFor(hidden, layers[j], tokenIdx).Some?;
    }
  }
}
