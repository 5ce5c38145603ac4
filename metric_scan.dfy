/**
 * The two case-insensitive regular expressions of
 * benchmarks/kernels/benchmark_gptoss_moe.py, as a small pattern language:
 * a pattern is a sequence of elements (a literal, `c*`, `c+`, or the one
 * capturing group `(c+)`), matched left to right.
 *
 * Scan is the matcher: each run takes the longest stretch it can, as a
 * greedy regex run does. Matches is the regex meaning: the text between
 * consecutive bounds matches consecutive elements. For patterns in which
 * no run can eat the first character of what follows it (Deterministic),
 * the two agree, so the greedy scan loses no match and finds the capture
 * that backtracking would.
 */
module MetricScan {
  import opened Wrappers
  import opened PyText

  datatype CharClass = Space | Digit | DigitOrDot

  /** `\s` (the str.isspace set), `[0-9]` and `[0-9.]`. */
  predicate InClass(cls: CharClass, c: char) {
    match cls
    case Space => IsSpace(c)
    case Digit => '0' <= c <= '9'
    case DigitOrDot => ('0' <= c <= '9') || c == '.'
  }

  function AsciiLower(c: char): char {
    if 'A' <= c <= 'Z' then (c as int + 32) as char else c
  }

  /**
   * re.IGNORECASE for an ASCII pattern character: the two ASCII cases,
   * plus the characters whose lower case is that letter (U+0130 for i,
   * U+212A for k) and the ones the regex engine treats as equivalent
   * (U+0131 for i, U+017F for s).
   */
  predicate CharMatchesCI(p: char, c: char) {
    || AsciiLower(c) == AsciiLower(p)
    || (AsciiLower(p) == 'i' && (c == 'İ' || c == 'ı'))
    || (AsciiLower(p) == 's' && c == 'ſ')
    || (AsciiLower(p) == 'k' && c == 'K')
  }

  predicate LiteralMatches(lit: string, w: string) {
    |w| == |lit| && forall k :: 0 <= k < |lit| ==> CharMatchesCI(lit[k], w[k])
  }

  /** Every character of s[i..j] is in the class. */
  predicate AllIn(s: string, i: nat, j: nat, cls: CharClass)
    requires i <= j <= |s|
  {
    forall k :: i <= k < j ==> InClass(cls, s[k])
  }

  datatype Elem =
    | Lit(text: string)
    | Star(cls: CharClass)
    | Plus(cls: CharClass)
    | Group(cls: CharClass)

  predicate IsRun(e: Elem) {
    !e.Lit?
  }

  /** The element's meaning: s[i..j] is a text it matches. */
  predicate ElemMatches(s: string, i: nat, j: nat, e: Elem) {
    i <= j <= |s| &&
    match e
    case Lit(t) => j == i + |t| && LiteralMatches(t, s[i..j])
    case Star(c) => AllIn(s, i, j, c)
    case Plus(c) => i < j && AllIn(s, i, j, c)
    case Group(c) => i < j && AllIn(s, i, j, c)
  }

  /**
   * The pattern's meaning: bounds[k]..bounds[k+1] is the text element k
   * matches, for every k.
   */
  predicate Matches(s: string, p: seq<Elem>, bounds: seq<nat>)
    decreases p
  {
    |bounds| == |p| + 1 && bounds[0] <= |s| &&
    (p != [] ==> ElemMatches(s, bounds[0], bounds[1], p[0]) && Matches(s, p[1..], bounds[1..]))
  }

  datatype Capture = Capture(start: nat, end: nat)

  /** The span of the first group under a decomposition. */
  function GroupOf(p: seq<Elem>, bounds: seq<nat>): Option<Capture>
    requires |bounds| == |p| + 1
    decreases p
  {
    if p == [] then None
    else if p[0].Group? then Some(Capture(bounds[0], bounds[1]))
    else GroupOf(p[1..], bounds[1..])
  }

  predicate HasGroup(p: seq<Elem>) {
    exists k :: 0 <= k < |p| && p[k].Group?
  }

  /** The end of the longest run of class `cls` from i. */
  function SkipRun(s: string, i: nat, cls: CharClass): (j: nat)
    requires i <= |s|
    ensures i <= j <= |s| && AllIn(s, i, j, cls)
    ensures j == |s| || !InClass(cls, s[j])
    decreases |s| - i
  {
    if i < |s| && InClass(cls, s[i]) then SkipRun(s, i + 1, cls) else i
  }

  /** The end of the text one element matches at i, taking runs whole. */
  function Step(s: string, i: nat, e: Elem): (r: Option<nat>)
    requires i <= |s|
    ensures r.Some? ==> ElemMatches(s, i, r.value, e)
  {
    match e
    case Lit(t) =>
      if i + |t| <= |s| && LiteralMatches(t, s[i..i + |t|]) then Some(i + |t|) else None
    case Star(c) => Some(SkipRun(s, i, c))
    case Plus(c) => var j := SkipRun(s, i, c); if j == i then None else Some(j)
    case Group(c) => var j := SkipRun(s, i, c); if j == i then None else Some(j)
  }

  datatype Match = Match(end: nat, group: Option<Capture>)

  /** An attempt to match the whole pattern starting at i. */
  function Scan(s: string, i: nat, p: seq<Elem>): (r: Option<Match>)
    requires i <= |s|
    ensures r.Some? ==> i <= r.value.end <= |s|
    ensures r.Some? ==> (r.value.group.Some? <==> HasGroup(p))
    ensures r.Some? && r.value.group.Some? ==>
      i <= r.value.group.value.start <= r.value.group.value.end <= r.value.end
    decreases p
  {
    if p == [] then Some(Match(i, None))
    else
      match Step(s, i, p[0])
      case None => None
      case Some(j) =>
        match Scan(s, j, p[1..])
        case None => None
        case Some(m) =>
          assert HasGroup(p) <==> p[0].Group? || HasGroup(p[1..]) by {
            if HasGroup(p[1..]) {
              var k :| 0 <= k < |p[1..]| && p[1..][k].Group?;
              assert p[k + 1].Group?;
            }
            if HasGroup(p) && !p[0].Group? {
              var k :| 0 <= k < |p| && p[k].Group?;
              assert p[1..][k - 1].Group?;
            }
          }
          Some(Match(m.end, if p[0].Group? then Some(Capture(i, j)) else m.group))
  }

  /** No character of class c1 is in class c2. */
  predicate Disjoint(c1: CharClass, c2: CharClass) {
    forall ch :: InClass(c1, ch) ==> !InClass(c2, ch)
  }

  /**
   * No character that can start text `q` matches belongs to class c (a
   * `*` run can be empty, so what follows it counts as well).
   */
  predicate StartsOutside(q: seq<Elem>, c: CharClass)
    decreases q
  {
    q != [] &&
    match q[0]
    case Lit(t) => |t| > 0 && forall ch :: CharMatchesCI(t[0], ch) ==> !InClass(c, ch)
    case Star(c2) => Disjoint(c2, c) && StartsOutside(q[1..], c)
    case Plus(c2) => Disjoint(c2, c)
    case Group(c2) => Disjoint(c2, c)
  }

  /** Every run is followed by text that stops it. */
  predicate Deterministic(p: seq<Elem>)
    decreases p
  {
    p == [] || ((IsRun(p[0]) ==> StartsOutside(p[1..], p[0].cls)) && Deterministic(p[1..]))
  }

  /** Text that stops a run of c starts with a character outside c. */
  lemma {:induction false} StopsRun(s: string, q: seq<Elem>, bounds: seq<nat>, c: CharClass)
    requires Matches(s, q, bounds) && StartsOutside(q, c)
    ensures bounds[0] < |s| && !InClass(c, s[bounds[0]])
    decreases q
  {
    var i := bounds[0];
    match q[0]
    case Lit(t) =>
      assert CharMatchesCI(t[0], s[i..bounds[1]][0]);
    case Star(c2) =>
      if i == bounds[1] {
        StopsRun(s, q[1..], bounds[1..], c);
      } else {
        assert InClass(c2, s[i]);
      }
    case Plus(c2) =>
      assert InClass(c2, s[i]);
    case Group(c2) =>
      assert InClass(c2, s[i]);
  }

  /** A run taken whole ends exactly where a stopping character begins. */
  lemma SkipRunStops(s: string, i: nat, j: nat, c: CharClass)
    requires i <= j < |s| && AllIn(s, i, j, c) && !InClass(c, s[j])
    ensures SkipRun(s, i, c) == j
    decreases j - i
  {
    if i < j {
      SkipRunStops(s, i + 1, j, c);
    }
  }

  /** Soundness: a scan that succeeds has found a decomposition. */
  lemma {:induction false} ScanSound(s: string, i: nat, p: seq<Elem>)
    requires i <= |s| && Scan(s, i, p).Some?
    ensures exists bounds :: (Matches(s, p, bounds) && bounds[0] == i
      && bounds[|p|] == Scan(s, i, p).value.end && GroupOf(p, bounds) == Scan(s, i, p).value.group)
    decreases p
  {
    if p == [] {
      assert Matches(s, p, [i]);
    } else {
      var j := Step(s, i, p[0]).value;
      ScanSound(s, j, p[1..]);
      var rest :| Matches(s, p[1..], rest) && rest[0] == j
        && rest[|p[1..]|] == Scan(s, j, p[1..]).value.end && GroupOf(p[1..], rest) == Scan(s, j, p[1..]).value.group;
      var bounds := [i] + rest;
      assert bounds[1..] == rest;
      assert Matches(s, p, bounds);
    }
  }

  /**
   * Completeness: in a deterministic pattern any decomposition from i is
   * the one the scan finds, capture included.
   */
  lemma {:induction false} ScanComplete(s: string, p: seq<Elem>, bounds: seq<nat>)
    requires Deterministic(p) && Matches(s, p, bounds)
    ensures Scan(s, bounds[0], p) == Some(Match(bounds[|p|], GroupOf(p, bounds)))
    decreases p
  {
    if p != [] {
      var i, j := bounds[0], bounds[1];
      ScanComplete(s, p[1..], bounds[1..]);
      if IsRun(p[0]) {
        StopsRun(s, p[1..], bounds[1..], p[0].cls);
        SkipRunStops(s, i, j, p[0].cls);
      }
      assert Step(s, i, p[0]) == Some(j);
    }
  }

  /** re.search: the leftmost start from i at which the pattern matches. */
  function SearchFrom(s: string, i: nat, p: seq<Elem>): (r: Option<(nat, Match)>)
    requires i <= |s|
    ensures r.Some? ==> i <= r.value.0 <= |s| && Scan(s, r.value.0, p) == Some(r.value.1)
    ensures r.Some? ==> forall k :: i <= k < r.value.0 ==> Scan(s, k, p).None?
    ensures r.None? ==> forall k :: i <= k <= |s| ==> Scan(s, k, p).None?
    decreases |s| - i
  {
    var m := Scan(s, i, p);
    if m.Some? then Some((i, m.value))
    else if i == |s| then None
    else SearchFrom(s, i + 1, p)
  }

  /** The text a capture spans (empty if it lies outside s). */
  function Text(s: string, g: Option<Capture>): Option<string> {
    match g
    case None => None
    case Some(c) => Some(if c.start <= c.end <= |s| then s[c.start..c.end] else [])
  }

  /** `match.group(1)` of the leftmost match, or None when nothing matches. */
  function SearchLexeme(s: string, p: seq<Elem>): Option<string> {
    LexemeOf(s, SearchFrom(s, 0, p))
  }

  /** The captured text of a search outcome. */
  function LexemeOf(s: string, r: Option<(nat, Match)>): Option<string> {
    match r
    case None => None
    case Some((_, m)) => Text(s, m.group)
  }

  /** The text matches the pattern starting at i. */
  ghost predicate MatchesAt(s: string, i: nat, p: seq<Elem>) {
    exists bounds :: Matches(s, p, bounds) && bounds[0] == i
  }

  /** i is the leftmost start at which the text matches. */
  ghost predicate Leftmost(s: string, p: seq<Elem>, i: nat) {
    MatchesAt(s, i, p) && forall k :: 0 <= k < i ==> !MatchesAt(s, k, p)
  }

  lemma ScanIffMatchesAt(s: string, i: nat, p: seq<Elem>)
    requires Deterministic(p) && i <= |s|
    ensures Scan(s, i, p).Some? <==> MatchesAt(s, i, p)
  {
    if Scan(s, i, p).Some? {
      ScanSound(s, i, p);
    }
    if MatchesAt(s, i, p) {
      var bounds :| Matches(s, p, bounds) && bounds[0] == i;
      ScanComplete(s, p, bounds);
    }
  }

  /** re.search finds a match exactly when the pattern matches somewhere. */
  lemma SearchFindsIffMatches(s: string, p: seq<Elem>)
    requires Deterministic(p) && HasGroup(p)
    ensures SearchLexeme(s, p).Some? <==> exists i :: 0 <= i <= |s| && MatchesAt(s, i, p)
  {
    var r := SearchFrom(s, 0, p);
    if r.Some? {
      ScanIffMatchesAt(s, r.value.0, p);
    } else {
      forall i | 0 <= i <= |s| ensures !MatchesAt(s, i, p) {
        ScanIffMatchesAt(s, i, p);
      }
    }
  }

  /**
   * The value is the group of the leftmost match, whichever decomposition
   * of it one takes.
   */
  lemma SearchTakesLeftmost(s: string, p: seq<Elem>, bounds: seq<nat>)
    requires Deterministic(p) && Matches(s, p, bounds) && Leftmost(s, p, bounds[0])
    ensures SearchLexeme(s, p) == Text(s, GroupOf(p, bounds))
  {
    var i := bounds[0];
    ScanComplete(s, p, bounds);
    var r := SearchFrom(s, 0, p);
    if r.value.0 < i {
      ScanIffMatchesAt(s, r.value.0, p);
      assert false;
    }
    assert r.value.0 == i;
  }

  /** Text after a match does not undo it. */
  lemma {:induction false} MatchesExtend(s: string, t: string, p: seq<Elem>, bounds: seq<nat>)
    requires Matches(s, p, bounds)
    ensures Matches(s + t, p, bounds)
    decreases p
  {
    if p != [] {
      MatchesExtend(s, t, p[1..], bounds[1..]);
      assert (s + t)[bounds[0]..bounds[1]] == s[bounds[0]..bounds[1]];
    }
  }

  function Shift(bounds: seq<nat>, d: nat): (r: seq<nat>)
    ensures |r| == |bounds| && forall k :: 0 <= k < |r| ==> r[k] == bounds[k] + d
  {
    seq(|bounds|, k requires 0 <= k < |bounds| => bounds[k] + d)
  }

  /** Text before a match moves it without undoing it. */
  lemma {:induction false} MatchesShift(t: string, s: string, p: seq<Elem>, bounds: seq<nat>)
    requires Matches(s, p, bounds)
    ensures Matches(t + s, p, Shift(bounds, |t|))
    decreases p
  {
    var b := Shift(bounds, |t|);
    if p != [] {
      MatchesShift(t, s, p[1..], bounds[1..]);
      assert b[1..] == Shift(bounds[1..], |t|);
      assert (t + s)[b[0]..b[1]] == s[bounds[0]..bounds[1]];
    }
  }

  /** `First token\s*:\s*([0-9.]+)ms` */
  const FirstTokenPattern: seq<Elem> :=
    [Lit("First token"), Star(Space), Lit(":"), Star(Space), Group(DigitOrDot), Lit("ms")]

  /** `Generated\s*:\s*[0-9]+\s*tokens\s*\(([0-9.]+) tok/s\)` */
  const ThroughputPattern: seq<Elem> :=
    [Lit("Generated"), Star(Space), Lit(":"), Star(Space), Plus(Digit), Star(Space),
     Lit("tokens"), Star(Space), Lit("("), Group(DigitOrDot), Lit(" tok/s)")]

  lemma ClassesDisjoint()
    ensures Disjoint(Digit, Space) && Disjoint(DigitOrDot, Space)
  {
  }

  lemma PatternsDeterministic()
    ensures Deterministic(FirstTokenPattern) && HasGroup(FirstTokenPattern)
    ensures Deterministic(ThroughputPattern) && HasGroup(ThroughputPattern)
  {
    assert FirstTokenPattern[4].Group?;
    assert ThroughputPattern[9].Group?;
    ClassesDisjoint();
    var f := FirstTokenPattern;
    assert StartsOutside(f[5..], DigitOrDot);
    assert StartsOutside(f[4..], Space);
    assert StartsOutside(f[2..], Space);
    assert Deterministic(f[5..]);
    assert Deterministic(f[4..]);
    assert Deterministic(f[3..]);
    assert Deterministic(f[2..]);
    assert Deterministic(f[1..]);
    var g := ThroughputPattern;
    assert StartsOutside(g[10..], DigitOrDot);
    assert StartsOutside(g[8..], Space);
    assert StartsOutside(g[6..], Space);
    assert StartsOutside(g[5..], Digit);
    assert StartsOutside(g[4..], Space);
    assert StartsOutside(g[2..], Space);
    assert Deterministic(g[10..]);
    assert Deterministic(g[9..]);
    assert Deterministic(g[8..]);
    assert Deterministic(g[7..]);
    assert Deterministic(g[6..]);
    assert Deterministic(g[5..]);
    assert Deterministic(g[4..]);
    assert Deterministic(g[3..]);
    assert Deterministic(g[2..]);
    assert Deterministic(g[1..]);
  }

  /** Under a decomposition the group lies inside the text. */
  lemma {:induction false} GroupInside(s: string, p: seq<Elem>, bounds: seq<nat>)
    requires Matches(s, p, bounds)
    ensures GroupOf(p, bounds).Some? ==>
      bounds[0] <= GroupOf(p, bounds).value.start <= GroupOf(p, bounds).value.end <= |s|
    decreases p
  {
    if p != [] && !p[0].Group? {
      GroupInside(s, p[1..], bounds[1..]);
    }
  }

  /** A capture moved d characters on. */
  function ShiftCapture(g: Option<Capture>, d: nat): Option<Capture> {
    match g
    case None => None
    case Some(c) => Some(Capture(c.start + d, c.end + d))
  }

  lemma {:induction false} GroupShift(p: seq<Elem>, bounds: seq<nat>, d: nat)
    requires |bounds| == |p| + 1
    ensures GroupOf(p, Shift(bounds, d)) == ShiftCapture(GroupOf(p, bounds), d)
    decreases p
  {
    if p != [] && !p[0].Group? {
      GroupShift(p[1..], bounds[1..], d);
      assert Shift(bounds, d)[1..] == Shift(bounds[1..], d);
    }
  }

  /**
   * A text w that one element matches whole, put before a decomposed text
   * t, extends the decomposition; the group is w itself or t's group.
   */
  lemma ConsText(w: string, t: string, e: Elem, q: seq<Elem>, b: seq<nat>) returns (nb: seq<nat>)
    requires ElemMatches(w, 0, |w|, e) && Matches(t, q, b) && b[0] == 0
    ensures Matches(w + t, [e] + q, nb) && nb[0] == 0
    ensures Text(w + t, GroupOf([e] + q, nb)) == if e.Group? then Some(w) else Text(t, GroupOf(q, b))
  {
    nb := [0] + Shift(b, |w|);
    ConsMatches(w, t, e, q, b);
    if !e.Group? {
      assert GroupOf([e] + q, nb) == GroupOf(q, Shift(b, |w|)) by {
        assert ([e] + q)[1..] == q && nb[1..] == Shift(b, |w|);
      }
      GroupShift(q, b, |w|);
      GroupInside(t, q, b);
      TextPastLeading(w, t, GroupOf(q, b));
    }
  }

  /** The decomposition ConsText builds. */
  lemma ConsMatches(w: string, t: string, e: Elem, q: seq<Elem>, b: seq<nat>)
    requires ElemMatches(w, 0, |w|, e) && Matches(t, q, b) && b[0] == 0
    ensures Matches(w + t, [e] + q, [0] + Shift(b, |w|))
  {
    var s, p, nb := w + t, [e] + q, [0] + Shift(b, |w|);
    MatchesShift(w, t, q, b);
    assert p[1..] == q && nb[1..] == Shift(b, |w|);
    assert s[0..|w|] == w;
    assert ElemMatches(s, 0, |w|, e);
  }

  lemma WholeLit(w: string, lit: string)
    requires LiteralMatches(lit, w)
    ensures ElemMatches(w, 0, |w|, Lit(lit))
  {
    assert w[0..|w|] == w;
  }

  /** A non-empty text of one class: what `c+` and `(c+)` match whole. */
  predicate Lexeme(w: string, c: CharClass) {
    |w| > 0 && forall k :: 0 <= k < |w| ==> InClass(c, w[k])
  }

  lemma WholeRun(w: string, c: CharClass)
    requires forall k :: 0 <= k < |w| ==> InClass(c, w[k])
    ensures ElemMatches(w, 0, |w|, Star(c))
    ensures |w| > 0 ==> ElemMatches(w, 0, |w|, Plus(c)) && ElemMatches(w, 0, |w|, Group(c))
  {
  }

  /** Proof helper: regrouping a concatenation, used by the line lemmas. */
  lemma Assoc(x: string, y: string, z: string)
    ensures x + y + z == x + (y + z)
  {
  }

  /** A match at position 0 is the leftmost one. */
  lemma SearchFromStart(s: string, p: seq<Elem>, bounds: seq<nat>)
    requires p == FirstTokenPattern || p == ThroughputPattern
    requires Matches(s, p, bounds) && bounds[0] == 0
    ensures SearchLexeme(s, p) == Text(s, GroupOf(p, bounds))
  {
    PatternsDeterministic();
    SearchTakesLeftmost(s, p, bounds);
  }

  /** For the two metric patterns, a match anywhere gives a value. */
  lemma MetricPatternFound(s: string, p: seq<Elem>, i: nat)
    requires p == FirstTokenPattern || p == ThroughputPattern
    requires i <= |s| && MatchesAt(s, i, p)
    ensures SearchLexeme(s, p).Some?
  {
    PatternsDeterministic();
    SearchFindsIffMatches(s, p);
  }

  /**
   * Any line "First token", white space, ":", white space, a digit/dot run
   * and "ms" — each literal in any case — yields that run, whatever follows.
   */
  lemma LatencyLine(a: string, w1: string, w2: string, num: string, u: string, tail: string)
    requires LiteralMatches("First token", a) && IsBlank(w1) && IsBlank(w2)
    requires Lexeme(num, DigitOrDot) && LiteralMatches("ms", u)
    ensures SearchLexeme(a + w1 + ":" + w2 + num + u + tail, FirstTokenPattern) == Some(num)
  {
    var b0: seq<nat> := [0];
    assert Matches(tail, [], b0);
    WholeLit(u, "ms");
    var b1 := ConsText(u, tail, Lit("ms"), [], b0);
    var t1, q1 := u + tail, [Lit("ms")];
    WholeRun(num, DigitOrDot);
    var b2 := ConsText(num, t1, Group(DigitOrDot), q1, b1);
    var t2, q2 := num + t1, [Group(DigitOrDot)] + q1;
    WholeRun(w2, Space);
    var b3 := ConsText(w2, t2, Star(Space), q2, b2);
    var t3, q3 := w2 + t2, [Star(Space)] + q2;
    WholeLit(":", ":");
    var b4 := ConsText(":", t3, Lit(":"), q3, b3);
    var t4, q4 := ":" + t3, [Lit(":")] + q3;
    WholeRun(w1, Space);
    var b5 := ConsText(w1, t4, Star(Space), q4, b4);
    var t5, q5 := w1 + t4, [Star(Space)] + q4;
    WholeLit(a, "First token");
    var bounds := ConsText(a, t5, Lit("First token"), q5, b5);
    var s := a + t5;
    assert [Lit("First token")] + q5 == FirstTokenPattern;
    Assoc(a + w1 + ":" + w2 + num, u, tail);
    Assoc(a + w1 + ":" + w2, num, t1);
    Assoc(a + w1 + ":", w2, t2);
    Assoc(a + w1, ":", t3);
    Assoc(a, w1, t4);
    SearchFromStart(s, FirstTokenPattern, bounds);
  }

  /**
   * The part of a throughput line from "tokens" on: the literal, white
   * space, "(", the digit/dot run and " tok/s)".
   */
  lemma RateTail(tk: string, w4: string, num: string, u: string, tail: string) returns (b: seq<nat>)
    requires LiteralMatches("tokens", tk) && IsBlank(w4)
    requires Lexeme(num, DigitOrDot) && LiteralMatches(" tok/s)", u)
    ensures Matches(tk + w4 + "(" + num + u + tail, ThroughputPattern[6..], b) && b[0] == 0
    ensures Text(tk + w4 + "(" + num + u + tail, GroupOf(ThroughputPattern[6..], b)) == Some(num)
  {
    var b0: seq<nat> := [0];
    assert Matches(tail, [], b0);
    WholeLit(u, " tok/s)");
    var b1 := ConsText(u, tail, Lit(" tok/s)"), [], b0);
    var t1, q1 := u + tail, [Lit(" tok/s)")];
    WholeRun(num, DigitOrDot);
    var b2 := ConsText(num, t1, Group(DigitOrDot), q1, b1);
    var t2, q2 := num + t1, [Group(DigitOrDot)] + q1;
    WholeLit("(", "(");
    var b3 := ConsText("(", t2, Lit("("), q2, b2);
    var t3, q3 := "(" + t2, [Lit("(")] + q2;
    WholeRun(w4, Space);
    var b4 := ConsText(w4, t3, Star(Space), q3, b3);
    var t4, q4 := w4 + t3, [Star(Space)] + q3;
    WholeLit(tk, "tokens");
    b := ConsText(tk, t4, Lit("tokens"), q4, b4);
    assert [Lit("tokens")] + q4 == ThroughputPattern[6..];
    Assoc(tk + w4 + "(" + num, u, tail);
    Assoc(tk + w4 + "(", num, t1);
    Assoc(tk + w4, "(", t2);
    Assoc(tk, w4, t3);
  }

  /**
   * Any line "Generated", ":", a digit run, "tokens", "(", a digit/dot run
   * and " tok/s)", with white space where the pattern allows it and the
   * literals in any case, yields the run in parentheses.
   */
  lemma ThroughputLine(a: string, w1: string, w2: string, count: string, w3: string, rest: string,
                       tk: string, w4: string, num: string, u: string, tail: string)
    requires LiteralMatches("Generated", a) && IsBlank(w1) && IsBlank(w2) && Lexeme(count, Digit) && IsBlank(w3)
    requires LiteralMatches("tokens", tk) && IsBlank(w4)
    requires Lexeme(num, DigitOrDot) && LiteralMatches(" tok/s)", u)
    requires rest == tk + w4 + "(" + num + u + tail
    ensures SearchLexeme(a + w1 + ":" + w2 + count + w3 + rest, ThroughputPattern) == Some(num)
  {
    var b0 := RateTail(tk, w4, num, u, tail);
    var q0 := ThroughputPattern[6..];
    WholeRun(w3, Space);
    var b1 := ConsText(w3, rest, Star(Space), q0, b0);
    var t1, q1 := w3 + rest, [Star(Space)] + q0;
    WholeRun(count, Digit);
    var b2 := ConsText(count, t1, Plus(Digit), q1, b1);
    var t2, q2 := count + t1, [Plus(Digit)] + q1;
    WholeRun(w2, Space);
    var b3 := ConsText(w2, t2, Star(Space), q2, b2);
    var t3, q3 := w2 + t2, [Star(Space)] + q2;
    WholeLit(":", ":");
    var b4 := ConsText(":", t3, Lit(":"), q3, b3);
    var t4, q4 := ":" + t3, [Lit(":")] + q3;
    WholeRun(w1, Space);
    var b5 := ConsText(w1, t4, Star(Space), q4, b4);
    var t5, q5 := w1 + t4, [Star(Space)] + q4;
    WholeLit(a, "Generated");
    var bounds := ConsText(a, t5, Lit("Generated"), q5, b5);
    var s := a + t5;
    assert [Lit("Generated")] + q5 == ThroughputPattern;
    Assoc(a + w1 + ":" + w2 + count, w3, rest);
    Assoc(a + w1 + ":" + w2, count, t1);
    Assoc(a + w1 + ":", w2, t2);
    Assoc(a + w1, ":", t3);
    Assoc(a, w1, t4);
    SearchFromStart(s, ThroughputPattern, bounds);
  }

  // Proof helpers for the example lines below: literal facts and literal
  // splits of each concrete text (IgnoresCasePieces, NonNumberPieces,
  // RatePieces, RateLiterals, RateTailJoin, RateLineJoin). They state
  // nothing about the scripts by themselves.

  lemma IgnoresCasePieces()
    ensures LiteralMatches("First token", "first TOKEN") && LiteralMatches("ms", "MS")
    ensures IsBlank(" ") && Lexeme("12.5", DigitOrDot)
    ensures "first TOKEN" + " " + ":" + " " + "12.5" + "MS" + "" == "first TOKEN : 12.5MS"
  {
  }

  /** Matching ignores case: "first TOKEN : 12.5MS" gives "12.5". */
  lemma LatencyIgnoresCase()
    ensures SearchLexeme("first TOKEN : 12.5MS", FirstTokenPattern) == Some("12.5")
  {
    IgnoresCasePieces();
    LatencyLine("first TOKEN", " ", " ", "12.5", "MS", "");
  }

  lemma NonNumberPieces()
    ensures LiteralMatches("First token", "First token") && LiteralMatches("ms", "ms")
    ensures IsBlank("") && IsBlank(" ") && Lexeme("1.2.3", DigitOrDot)
    ensures "First token" + "" + ":" + " " + "1.2.3" + "ms" + "" == "First token: 1.2.3ms"
  {
  }

  /**
   * `[0-9.]+` admits lexemes float() refuses, so "First token: 1.2.3ms"
   * captures "1.2.3".
   */
  lemma LatencyAdmitsNonNumber()
    ensures SearchLexeme("First token: 1.2.3ms", FirstTokenPattern) == Some("1.2.3")
  {
    NonNumberPieces();
    LatencyLine("First token", "", " ", "1.2.3", "ms", "");
  }

  lemma RatePieces()
    ensures LiteralMatches("Generated", "Generated") && LiteralMatches("tokens", "tokens")
    ensures LiteralMatches(" tok/s)", " tok/s)")
    ensures IsBlank("") && IsBlank(" ") && Lexeme("100", Digit) && Lexeme("33.3", DigitOrDot)
    ensures "tokens (33.3 tok/s)" == "tokens" + " " + "(" + "33.3" + " tok/s)" + ""
    ensures "Generated" + "" + ":" + " " + "100" + " " + "tokens (33.3 tok/s)" == "Generated: 100 tokens (33.3 tok/s)"
  {
    RateLiterals();
    RateTailJoin();
    RateLineJoin();
  }

  lemma RateLiterals()
    ensures LiteralMatches("Generated", "Generated") && LiteralMatches("tokens", "tokens")
    ensures LiteralMatches(" tok/s)", " tok/s)")
    ensures IsBlank("") && IsBlank(" ") && Lexeme("100", Digit) && Lexeme("33.3", DigitOrDot)
  {
  }

  lemma RateTailJoin()
    ensures "tokens (33.3 tok/s)" == "tokens" + " " + "(" + "33.3" + " tok/s)" + ""
  {
  }

  lemma RateLineJoin()
    ensures "Generated" + "" + ":" + " " + "100" + " " + "tokens (33.3 tok/s)" == "Generated: 100 tokens (33.3 tok/s)"
  {
  }

  /** The rate in parentheses is captured, not the token count. */
  lemma ThroughputTakesRate()
    ensures SearchLexeme("Generated: 100 tokens (33.3 tok/s)", ThroughputPattern) == Some("33.3")
  {
    RatePieces();
    ThroughputLine("Generated", "", " ", "100", " ", "tokens (33.3 tok/s)", "tokens", " ", "33.3", " tok/s)", "");
  }

  lemma ScanStops(s: string, i: nat, p: seq<Elem>, j: nat)
    requires i <= |s| && p != [] && Step(s, i, p[0]) == Some(j) && Scan(s, j, p[1..]).None?
    ensures Scan(s, i, p).None?
  {
  }

  /** A search in which only position 0 can start a match. */
  lemma OnlyStartCanMatch(s: string, p: seq<Elem>)
    requires |s| > 0 && p != [] && p[0].Lit? && |p[0].text| > 0
    requires forall i :: 1 <= i < |s| ==> !CharMatchesCI(p[0].text[0], s[i])
    requires Scan(s, 0, p).None?
    ensures SearchLexeme(s, p) == None
  {
    forall i | 1 <= i <= |s| ensures Scan(s, i, p).None? {
      if i < |s| {
        assert Step(s, i, p[0]).None? by {
          if i + |p[0].text| <= |s| {
            assert s[i..i + |p[0].text|][0] == s[i];
          }
        }
      }
    }
  }

  /** A text in which no character can start the leading literal holds no match. */
  lemma AbsentStartNoMatch(s: string, p: seq<Elem>)
    requires p != [] && p[0].Lit? && |p[0].text| > 0
    requires forall i :: 0 <= i < |s| ==> !CharMatchesCI(p[0].text[0], s[i])
    ensures SearchLexeme(s, p) == None
  {
    if |s| > 0 {
      assert Step(s, 0, p[0]).None? by {
        if |p[0].text| <= |s| {
          assert s[0..|p[0].text|][0] == s[0];
        }
      }
      OnlyStartCanMatch(s, p);
    }
  }

  /** One element's match inside t + s, past t, is a match in s. */
  lemma ElemUnshift(t: string, s: string, i: nat, j: nat, e: Elem)
    requires ElemMatches(t + s, i, j, e) && |t| <= i
    ensures ElemMatches(s, i - |t|, j - |t|, e)
  {
    var u := t + s;
    assert u[i..j] == s[i - |t|..j - |t|];
    if !e.Lit? {
      forall k | i - |t| <= k < j - |t| ensures InClass(e.cls, s[k]) {
        assert s[k] == u[k + |t|];
      }
    }
  }

  /** A match in t + s that starts past t is a match in s. */
  lemma {:induction false} MatchesUnshift(t: string, s: string, p: seq<Elem>, bounds: seq<nat>)
    requires Matches(t + s, p, bounds) && |t| <= bounds[0]
    ensures MatchesAt(s, bounds[0] - |t|, p)
    decreases p
  {
    if p == [] {
      assert Matches(s, p, [bounds[0] - |t|]);
    } else {
      MatchesUnshift(t, s, p[1..], bounds[1..]);
      var rest :| Matches(s, p[1..], rest) && rest[0] == bounds[1] - |t|;
      ElemUnshift(t, s, bounds[0], bounds[1], p[0]);
      var b := [bounds[0] - |t|] + rest;
      assert b[1..] == rest;
      assert Matches(s, p, b);
    }
  }

  /** No match starts at a character that cannot begin the leading literal. */
  lemma NoStartAt(s: string, p: seq<Elem>, k: nat)
    requires p != [] && p[0].Lit? && |p[0].text| > 0
    requires k < |s| && !CharMatchesCI(p[0].text[0], s[k])
    ensures !MatchesAt(s, k, p)
  {
    forall b | Matches(s, p, b)
      ensures b[0] < |s| && CharMatchesCI(p[0].text[0], s[b[0]])
    {
      assert s[b[0]..b[1]][0] == s[b[0]];
    }
  }

  /** Every match in t + s starts past t and comes from a match in s. */
  lemma MatchesPastLeading(t: string, s: string, p: seq<Elem>, k: nat)
    requires p != [] && p[0].Lit? && |p[0].text| > 0
    requires forall i :: 0 <= i < |t| ==> !CharMatchesCI(p[0].text[0], t[i])
    requires MatchesAt(t + s, k, p)
    ensures |t| <= k && MatchesAt(s, k - |t|, p)
  {
    if k < |t| {
      assert (t + s)[k] == t[k];
      NoStartAt(t + s, p, k);
    } else {
      var b :| Matches(t + s, p, b) && b[0] == k;
      MatchesUnshift(t, s, p, b);
    }
  }

  /** The leftmost match in s, moved past t, is the leftmost one in t + s. */
  lemma LeftmostPastLeading(t: string, s: string, p: seq<Elem>, bounds: seq<nat>)
    requires p != [] && p[0].Lit? && |p[0].text| > 0
    requires forall i :: 0 <= i < |t| ==> !CharMatchesCI(p[0].text[0], t[i])
    requires Matches(s, p, bounds) && Leftmost(s, p, bounds[0])
    ensures Matches(t + s, p, Shift(bounds, |t|)) && Leftmost(t + s, p, |t| + bounds[0])
  {
    MatchesShift(t, s, p, bounds);
    forall k | 0 <= k < |t| + bounds[0] ensures !MatchesAt(t + s, k, p) {
      if MatchesAt(t + s, k, p) {
        MatchesPastLeading(t, s, p, k);
      }
    }
  }

  /** A capture inside s, moved past t, spans the same text of t + s. */
  lemma TextPastLeading(t: string, s: string, g: Option<Capture>)
    requires g.Some? ==> g.value.start <= g.value.end <= |s|
    ensures Text(t + s, ShiftCapture(g, |t|)) == Text(s, g)
  {
    if g.Some? {
      var c := g.value;
      assert (t + s)[c.start + |t|..c.end + |t|] == s[c.start..c.end];
    }
  }

  /** The leftmost match in s, found by the scanner. */
  lemma LeftmostFound(s: string, p: seq<Elem>) returns (bounds: seq<nat>)
    requires Deterministic(p) && SearchFrom(s, 0, p).Some?
    ensures Matches(s, p, bounds) && Leftmost(s, p, bounds[0])
  {
    var i := SearchFrom(s, 0, p).value.0;
    ScanIffMatchesAt(s, i, p);
    bounds :| Matches(s, p, bounds) && bounds[0] == i;
    forall k | 0 <= k < i ensures !MatchesAt(s, k, p) {
      ScanIffMatchesAt(s, k, p);
    }
  }

  /**
   * Leading text none of whose characters can start the pattern changes
   * nothing: the search finds the same lexeme after it.
   */
  lemma LeadingTextSkipped(t: string, s: string, p: seq<Elem>)
    requires Deterministic(p) && HasGroup(p)
    requires p != [] && p[0].Lit? && |p[0].text| > 0
    requires forall i :: 0 <= i < |t| ==> !CharMatchesCI(p[0].text[0], t[i])
    ensures SearchLexeme(t + s, p) == SearchLexeme(s, p)
  {
    if SearchFrom(s, 0, p).Some? {
      var bounds := LeftmostFound(s, p);
      LeadingTextFound(t, s, p, bounds);
    } else {
      LeadingTextNotFound(t, s, p);
    }
  }

  lemma LeadingTextFound(t: string, s: string, p: seq<Elem>, bounds: seq<nat>)
    requires Deterministic(p)
    requires p != [] && p[0].Lit? && |p[0].text| > 0
    requires forall i :: 0 <= i < |t| ==> !CharMatchesCI(p[0].text[0], t[i])
    requires Matches(s, p, bounds) && Leftmost(s, p, bounds[0])
    ensures SearchLexeme(t + s, p) == SearchLexeme(s, p)
  {
    SearchTakesLeftmost(s, p, bounds);
    LeftmostPastLeading(t, s, p, bounds);
    var moved := Shift(bounds, |t|);
    assert moved[0] == |t| + bounds[0];
    SearchTakesLeftmost(t + s, p, moved);
    GroupShift(p, bounds, |t|);
    GroupInside(s, p, bounds);
    TextPastLeading(t, s, GroupOf(p, bounds));
  }

  lemma LeadingTextNotFound(t: string, s: string, p: seq<Elem>)
    requires Deterministic(p) && HasGroup(p)
    requires p != [] && p[0].Lit? && |p[0].text| > 0
    requires forall i :: 0 <= i < |t| ==> !CharMatchesCI(p[0].text[0], t[i])
    requires SearchFrom(s, 0, p).None?
    ensures SearchLexeme(t + s, p) == SearchLexeme(s, p)
  {
    SearchFindsIffMatches(s, p);
    SearchFindsIffMatches(t + s, p);
    forall k | 0 <= k <= |t + s| ensures !MatchesAt(t + s, k, p) {
      if MatchesAt(t + s, k, p) {
        MatchesPastLeading(t, s, p, k);
      }
    }
  }

  /** The characters of "First token: 12.5 ms" that its scan looks at. */
  predicate SpacedUnitText(s: string) {
    |s| == 20 && s[0..11] == "First token" && s[11] == ':' && s[12] == ' '
    && s[13] == '1' && s[14] == '2' && s[15] == '.' && s[16] == '5' && s[17] == ' '
  }

  lemma SpacedUnitTextHolds(s: string)
    requires s == "First token: 12.5 ms"
    ensures SpacedUnitText(s)
  {
    assert s[0..11] == "First token";
  }

  /** The one attempt, at position 0, fails on the space before "ms". */
  lemma SpacedUnitScanFails(s: string)
    requires SpacedUnitText(s)
    ensures Scan(s, 0, FirstTokenPattern).None?
  {
    var f := FirstTokenPattern;
    assert Step(s, 17, Lit("ms")).None? by {
      assert s[17..19][0] == ' ';
    }
    assert f[5..][0] == Lit("ms");
    assert Scan(s, 17, f[5..]).None?;
    SkipRunStops(s, 13, 17, DigitOrDot);
    assert f[4..][1..] == f[5..];
    ScanStops(s, 13, f[4..], 17);
    SkipRunStops(s, 12, 13, Space);
    assert f[3..][1..] == f[4..];
    ScanStops(s, 12, f[3..], 13);
    assert Step(s, 11, Lit(":")) == Some(12) by {
      assert s[11..12] == ":";
    }
    assert f[2..][1..] == f[3..];
    ScanStops(s, 11, f[2..], 12);
    SkipRunStops(s, 11, 11, Space);
    assert f[1..][1..] == f[2..];
    ScanStops(s, 11, f[1..], 11);
    assert Step(s, 0, Lit("First token")) == Some(11) by {
      assert LiteralMatches("First token", s[0..11]);
    }
    ScanStops(s, 0, f, 11);
  }

  lemma SpacedUnitOneStart()
    ensures forall i :: 1 <= i < 20 ==> !CharMatchesCI(FirstTokenPattern[0].text[0], "First token: 12.5 ms"[i])
  {
  }

  /** "ms" must follow the number at once: "First token: 12.5 ms" gives nothing. */
  lemma LatencyNeedsAdjacentUnit()
    ensures SearchLexeme("First token: 12.5 ms", FirstTokenPattern) == None
  {
    SpacedUnitTextHolds("First token: 12.5 ms");
    SpacedUnitScanFails("First token: 12.5 ms");
    SpacedUnitOneStart();
    OnlyStartCanMatch("First token: 12.5 ms", FirstTokenPattern);
  }

  /** The characters of "Generated: 100 tokens (33.3  tok/s)" that its scan looks at. */
  predicate DoubleSpaceText(s: string) {
    |s| == 35 && s[0..9] == "Generated" && s[9] == ':' && s[10] == ' '
    && s[11] == '1' && s[12] == '0' && s[13] == '0' && s[14] == ' ' && s[15..21] == "tokens"
    && s[21] == ' ' && s[22] == '(' && s[23] == '3' && s[24] == '3' && s[25] == '.'
    && s[26] == '3' && s[27] == ' ' && s[28] == ' '
  }

  lemma DoubleSpaceTextHolds(s: string)
    requires s == "Generated: 100 tokens (33.3  tok/s)"
    ensures DoubleSpaceText(s)
  {
    assert s[0..9] == "Generated";
    assert s[15..21] == "tokens";
  }

  /** The attempt at position 0 fails on the second space before "tok/s". */
  lemma DoubleSpaceRateFails(s: string)
    requires DoubleSpaceText(s)
    ensures Scan(s, 22, ThroughputPattern[8..]).None?
  {
    var g := ThroughputPattern;
    assert Step(s, 27, Lit(" tok/s)")).None? by {
      assert s[27..34][1] == s[28];
    }
    assert g[10..][0] == Lit(" tok/s)");
    assert Scan(s, 27, g[10..]).None?;
    SkipRunStops(s, 23, 27, DigitOrDot);
    assert g[9..][1..] == g[10..];
    ScanStops(s, 23, g[9..], 27);
    assert Step(s, 22, Lit("(")) == Some(23) by {
      assert s[22..23] == "(";
    }
    assert g[8..][1..] == g[9..];
    ScanStops(s, 22, g[8..], 23);
  }

  lemma DoubleSpaceTokensFails(s: string)
    requires DoubleSpaceText(s)
    ensures Scan(s, 14, ThroughputPattern[5..]).None?
  {
    var g := ThroughputPattern;
    DoubleSpaceRateFails(s);
    SkipRunStops(s, 21, 22, Space);
    assert g[7..][1..] == g[8..];
    ScanStops(s, 21, g[7..], 22);
    assert Step(s, 15, Lit("tokens")) == Some(21) by {
      assert LiteralMatches("tokens", s[15..21]);
    }
    assert g[6..][1..] == g[7..];
    ScanStops(s, 15, g[6..], 21);
    SkipRunStops(s, 14, 15, Space);
    assert g[5..][1..] == g[6..];
    ScanStops(s, 14, g[5..], 15);
  }

  lemma DoubleSpaceDigitsFail(s: string)
    requires DoubleSpaceText(s)
    ensures Scan(s, 11, ThroughputPattern[4..]).None?
  {
    var g := ThroughputPattern;
    DoubleSpaceTokensFails(s);
    SkipRunStops(s, 11, 14, Digit);
    assert g[4..][1..] == g[5..];
    ScanStops(s, 11, g[4..], 14);
  }

  lemma DoubleSpaceCountFails(s: string)
    requires DoubleSpaceText(s)
    ensures Scan(s, 9, ThroughputPattern[2..]).None?
  {
    var g := ThroughputPattern;
    DoubleSpaceDigitsFail(s);
    SkipRunStops(s, 10, 11, Space);
    assert g[3..][1..] == g[4..];
    ScanStops(s, 10, g[3..], 11);
    assert Step(s, 9, Lit(":")) == Some(10) by {
      assert s[9..10] == ":";
    }
    assert g[2..][1..] == g[3..];
    ScanStops(s, 9, g[2..], 10);
  }

  lemma DoubleSpaceScanFails(s: string)
    requires DoubleSpaceText(s)
    ensures Scan(s, 0, ThroughputPattern).None?
  {
    var g := ThroughputPattern;
    DoubleSpaceCountFails(s);
    SkipRunStops(s, 9, 9, Space);
    assert g[1..][1..] == g[2..];
    ScanStops(s, 9, g[1..], 9);
    assert Step(s, 0, Lit("Generated")) == Some(9) by {
      assert LiteralMatches("Generated", s[0..9]);
    }
    ScanStops(s, 0, g, 9);
  }

  lemma DoubleSpaceOneStart()
    ensures forall i :: 1 <= i < 35 ==>
      !CharMatchesCI(ThroughputPattern[0].text[0], "Generated: 100 tokens (33.3  tok/s)"[i])
  {
  }

  /** Exactly one space before "tok/s": two spaces give nothing. */
  lemma ThroughputNeedsOneSpace()
    ensures SearchLexeme("Generated: 100 tokens (33.3  tok/s)", ThroughputPattern) == None
  {
    DoubleSpaceTextHolds("Generated: 100 tokens (33.3  tok/s)");
    DoubleSpaceScanFails("Generated: 100 tokens (33.3  tok/s)");
    DoubleSpaceOneStart();
    OnlyStartCanMatch("Generated: 100 tokens (33.3  tok/s)", ThroughputPattern);
  }
}
