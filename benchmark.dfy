/**
 * The deterministic part of benchmarks/kernels/benchmark_gptoss_moe.py:
 * the bench command it runs, the text it scans (stdout, a newline, stderr),
 * parse_metrics over that text, and the payload and exit code of main.
 * Running the command is left to the caller, which hands in its result.
 */
module Benchmark {
  import opened Wrappers
  import opened PyText
  import opened PyInt
  import opened MetricScan

  const FirstTokenKey := "first_token_ms"
  const TokensPerSKey := "tokens_per_s"

  /** METRIC_PATTERNS, in its insertion order. */
  const MetricPatterns: seq<(string, seq<Elem>)> :=
    [(FirstTokenKey, FirstTokenPattern), (TokensPerSKey, ThroughputPattern)]

  /**
   * float() on a lexeme of `[0-9.]+`: it converts exactly when the lexeme
   * holds at most one '.' and at least one digit, so "12", "1." and ".5"
   * convert while ".", ".." and "1.2.3" raise ValueError.
   */
  predicate IsFloatLiteral(w: string) {
    Count(w, '.') <= 1 && exists k :: 0 <= k < |w| && IsDigit(w[k])
  }

  /** No lexeme was found, or float() converts the one found. */
  predicate Converts(found: Option<string>) {
    found.None? || IsFloatLiteral(found.value)
  }

  /** The ValueError float() raises, with the key whose lexeme it refused. */
  datatype MetricError = NotAFloat(key: string, lexeme: string)

  /**
   * parse_metrics: both keys start at None, and each pattern's search, in
   * METRIC_PATTERNS order, overwrites its own key when it finds a match.
   * The value kept is the lexeme float() converts; a lexeme float()
   * refuses raises there, before any later pattern is tried.
   */
  method ParseMetrics(output: string) returns (r: Result<map<string, Option<string>>, MetricError>)
    ensures r.Ok? <==> Converts(SearchLexeme(output, FirstTokenPattern)) && Converts(SearchLexeme(output, ThroughputPattern))
    ensures r.Ok? ==> r.value.Keys == {FirstTokenKey, TokensPerSKey}
    ensures r.Ok? ==> r.value[FirstTokenKey] == SearchLexeme(output, FirstTokenPattern)
    ensures r.Ok? ==> r.value[TokensPerSKey] == SearchLexeme(output, ThroughputPattern)
    ensures !Converts(SearchLexeme(output, FirstTokenPattern)) ==>
      r == Err(NotAFloat(FirstTokenKey, SearchLexeme(output, FirstTokenPattern).value))
    ensures Converts(SearchLexeme(output, FirstTokenPattern)) && !Converts(SearchLexeme(output, ThroughputPattern)) ==>
      r == Err(NotAFloat(TokensPerSKey, SearchLexeme(output, ThroughputPattern).value))
  {
    var metrics := map[FirstTokenKey := None, TokensPerSKey := None];
    var i := 0;
    while i < |MetricPatterns|
      invariant 0 <= i <= |MetricPatterns|
      invariant metrics.Keys == {FirstTokenKey, TokensPerSKey}
      invariant metrics[FirstTokenKey] == if 0 < i then SearchLexeme(output, FirstTokenPattern) else None
      invariant metrics[TokensPerSKey] == if 1 < i then SearchLexeme(output, ThroughputPattern) else None
      invariant 0 < i ==> Converts(SearchLexeme(output, FirstTokenPattern))
      invariant 1 < i ==> Converts(SearchLexeme(output, ThroughputPattern))
    {
      var (key, pattern) := MetricPatterns[i];
      var found := SearchLexeme(output, pattern);
      if found.Some? {
        if !IsFloatLiteral(found.value) {
          return Err(NotAFloat(key, found.value));
        }
        metrics := metrics[key := found];
      }
      i := i + 1;
    }
    r := Ok(metrics);
  }

  /** float() refuses "1.2.3" and "." but converts "1." and ".5". */
  lemma FloatLiteralCases()
    ensures !IsFloatLiteral("1.2.3") && !IsFloatLiteral(".")
    ensures IsFloatLiteral("1.") && IsFloatLiteral(".5")
  {
    assert IsDigit("1."[0]) && IsDigit(".5"[1]);
  }

  function OrEmpty(stream: Option<string>): string {
    if stream.Some? then stream.value else ""
  }

  /** `(proc.stdout or "") + "\n" + (proc.stderr or "")` */
  function CombinedOutput(stdout: Option<string>, stderr: Option<string>): (r: string)
    ensures |r| == |OrEmpty(stdout)| + 1 + |OrEmpty(stderr)|
    ensures r[..|OrEmpty(stdout)|] == OrEmpty(stdout) && r[|OrEmpty(stdout)|] == '\n'
    ensures r[|OrEmpty(stdout)| + 1..] == OrEmpty(stderr)
  {
    OrEmpty(stdout) + "\n" + OrEmpty(stderr)
  }

  /** A metric that stdout holds is found in the scanned text. */
  lemma StdoutMetricFound(stdout: Option<string>, stderr: Option<string>, p: seq<Elem>, i: nat)
    requires p == FirstTokenPattern || p == ThroughputPattern
    requires MatchesAt(OrEmpty(stdout), i, p)
    ensures SearchLexeme(CombinedOutput(stdout, stderr), p).Some?
  {
    StdoutMatchKept(stdout, stderr, p, i);
    MetricPatternFound(CombinedOutput(stdout, stderr), p, i);
  }

  /** A match in stdout is a match at the same place in the scanned text. */
  lemma StdoutMatchKept(stdout: Option<string>, stderr: Option<string>, p: seq<Elem>, i: nat)
    requires MatchesAt(OrEmpty(stdout), i, p)
    ensures i <= |CombinedOutput(stdout, stderr)| && MatchesAt(CombinedOutput(stdout, stderr), i, p)
  {
    var out, tail := OrEmpty(stdout), "\n" + OrEmpty(stderr);
    var bounds :| Matches(out, p, bounds) && bounds[0] == i;
    MatchesExtend(out, tail, p, bounds);
    assert CombinedOutput(stdout, stderr) == out + tail;
  }

  /** A metric that stderr holds is found in the scanned text. */
  lemma StderrMetricFound(stdout: Option<string>, stderr: Option<string>, p: seq<Elem>, i: nat)
    requires p == FirstTokenPattern || p == ThroughputPattern
    requires MatchesAt(OrEmpty(stderr), i, p)
    ensures SearchLexeme(CombinedOutput(stdout, stderr), p).Some?
  {
    StderrMatchMoved(stdout, stderr, p, i);
    MetricPatternFound(CombinedOutput(stdout, stderr), p, |OrEmpty(stdout)| + 1 + i);
  }

  /** A match in stderr is a match in the scanned text, past stdout and the newline. */
  lemma StderrMatchMoved(stdout: Option<string>, stderr: Option<string>, p: seq<Elem>, i: nat)
    requires MatchesAt(OrEmpty(stderr), i, p)
    ensures |OrEmpty(stdout)| + 1 + i <= |CombinedOutput(stdout, stderr)|
    ensures MatchesAt(CombinedOutput(stdout, stderr), |OrEmpty(stdout)| + 1 + i, p)
  {
    var head, err := OrEmpty(stdout) + "\n", OrEmpty(stderr);
    var bounds :| Matches(err, p, bounds) && bounds[0] == i;
    MatchesShift(head, err, p, bounds);
    assert CombinedOutput(stdout, stderr) == head + err;
    assert Shift(bounds, |head|)[0] == i + |head|;
  }

  lemma SplitLinePieces()
    ensures CombinedOutput(Some("First token:"), Some("12ms")) == "First token" + "" + ":" + "\n" + "12" + "ms" + ""
    ensures LiteralMatches("First token", "First token") && LiteralMatches("ms", "ms")
    ensures IsBlank("") && IsBlank("\n") && Lexeme("12", DigitOrDot)
  {
  }

  /**
   * `\s*` also eats the joining newline, so a latency line that stdout
   * starts and stderr finishes still counts.
   */
  lemma LatencyAcrossStreams()
    ensures SearchLexeme(CombinedOutput(Some("First token:"), Some("12ms")), FirstTokenPattern) == Some("12")
  {
    SplitLinePieces();
    LatencyLine("First token", "", "\n", "12", "ms", "");
  }

  /** No character of the text can begin "Generated" or "First token". */
  lemma RateOnlyStarts(s: string)
    requires s == "Generated: 100 tokens (33.3 tok/s)"
    ensures forall i :: 0 <= i < |s| ==> !CharMatchesCI(FirstTokenPattern[0].text[0], s[i])
  {
  }

  lemma LatencyOnlyStarts(s: string)
    requires s == "First token: 12.5ms"
    ensures forall i :: 0 <= i < |s| ==> !CharMatchesCI(ThroughputPattern[0].text[0], s[i])
  {
  }

  lemma LatencyLinePieces()
    ensures LiteralMatches("First token", "First token") && LiteralMatches("ms", "ms")
    ensures IsBlank("") && IsBlank(" ") && Lexeme("12.5", DigitOrDot)
    ensures "First token" + "" + ":" + " " + "12.5" + "ms" + "" == "First token: 12.5ms"
  {
  }

  /** Without a latency line the rate is still read, and the latency is None. */
  lemma RateWithoutLatency()
    ensures SearchLexeme("Generated: 100 tokens (33.3 tok/s)", FirstTokenPattern) == None
    ensures SearchLexeme("Generated: 100 tokens (33.3 tok/s)", ThroughputPattern) == Some("33.3")
  {
    RateOnlyStarts("Generated: 100 tokens (33.3 tok/s)");
    AbsentStartNoMatch("Generated: 100 tokens (33.3 tok/s)", FirstTokenPattern);
    ThroughputTakesRate();
  }

  /** Without a throughput line the latency is still read, and the rate is None. */
  lemma LatencyWithoutRate()
    ensures SearchLexeme("First token: 12.5ms", FirstTokenPattern) == Some("12.5")
    ensures SearchLexeme("First token: 12.5ms", ThroughputPattern) == None
  {
    LatencyLinePieces();
    LatencyLine("First token", "", " ", "12.5", "ms", "");
    LatencyOnlyStarts("First token: 12.5ms");
    AbsentStartNoMatch("First token: 12.5ms", ThroughputPattern);
  }

  lemma LatencyLineOnlyStarts(s: string)
    requires s == "First token: 12.5ms\n"
    ensures forall i :: 0 <= i < |s| ==> !CharMatchesCI(ThroughputPattern[0].text[0], s[i])
  {
  }

  /**
   * A latency line on stdout and a throughput line on stderr: both
   * metrics are read, 12.5 and 33.3.
   */
  lemma BothMetricsRead()
    ensures SearchLexeme(CombinedOutput(Some("First token: 12.5ms"), Some("Generated: 100 tokens (33.3 tok/s)")),
      FirstTokenPattern) == Some("12.5")
    ensures SearchLexeme(CombinedOutput(Some("First token: 12.5ms"), Some("Generated: 100 tokens (33.3 tok/s)")),
      ThroughputPattern) == Some("33.3")
  {
    var a, b := "First token: 12.5ms", "Generated: 100 tokens (33.3 tok/s)";
    LatencyBeforeRate(a, b);
    RateAfterLatency(a, b);
  }

  lemma LatencyBeforeRate(a: string, b: string)
    requires a == "First token: 12.5ms"
    ensures SearchLexeme(CombinedOutput(Some(a), Some(b)), FirstTokenPattern) == Some("12.5")
  {
    var s := CombinedOutput(Some(a), Some(b));
    LatencyLinePieces();
    var head := "First token" + "" + ":" + " " + "12.5" + "ms";
    assert head == a by {
      assert head + "" == a;
    }
    Assoc(a, "\n", b);
    assert head + ("\n" + b) == s;
    LatencyLine("First token", "", " ", "12.5", "ms", "\n" + b);
  }

  lemma RateAfterLatency(a: string, b: string)
    requires a == "First token: 12.5ms" && b == "Generated: 100 tokens (33.3 tok/s)"
    ensures SearchLexeme(CombinedOutput(Some(a), Some(b)), ThroughputPattern) == Some("33.3")
  {
    assert a + "\n" == "First token: 12.5ms\n";
    LatencyLineOnlyStarts(a + "\n");
    PatternsDeterministic();
    LeadingTextSkipped(a + "\n", b, ThroughputPattern);
    ThroughputTakesRate();
  }

  /** With both streams missing the text is one newline and neither metric is set. */
  lemma NoStreamsNoMetrics()
    ensures SearchLexeme(CombinedOutput(None, None), FirstTokenPattern) == None
    ensures SearchLexeme(CombinedOutput(None, None), ThroughputPattern) == None
  {
    var s := CombinedOutput(None, None);
    assert s == "\n";
    AbsentStartNoMatch(s, FirstTokenPattern);
    AbsentStartNoMatch(s, ThroughputPattern);
  }

  /** The command-line arguments of main, with argparse's defaults. */
  datatype BenchArgs = BenchArgs(
    model: string,
    runtimePreset: string,
    prompt: string,
    maxTokens: int,
    output: string)

  /** Only --model is required; every other flag has a default. */
  function DefaultArgs(model: string): (a: BenchArgs)
    ensures a.model == model && a.runtimePreset == "bench" && a.prompt == "short"
    ensures a.maxTokens == 64 && a.output == "benchmarks/kernels/gptoss_moe_latest.json"
  {
    BenchArgs(model, "bench", "short", 64, "benchmarks/kernels/gptoss_moe_latest.json")
  }

  /** With only --model given, main runs the "bench" preset on the "short" prompt for 64 tokens. */
  lemma DefaultCommand(model: string)
    ensures BenchCommand(DefaultArgs(model)) ==
      ["npm", "run", "bench", "--", "--config", "bench", "-m", model,
       "--prompt", "short", "--max-tokens", "64", "--runs", "1", "--warmup", "1"]
  {
    assert DecimalString(64) == "64" by {
      assert NatString(6) == "6";
    }
  }

  /**
   * The `npm run bench` command line: fixed flags around the four
   * arguments, with max_tokens written in decimal so that int() reads
   * it back.
   */
  function BenchCommand(a: BenchArgs): (cmd: seq<string>)
    ensures |cmd| == 16
    ensures cmd[5] == a.runtimePreset && cmd[7] == a.model && cmd[9] == a.prompt
    ensures cmd[11] == DecimalString(a.maxTokens)
  {
    ["npm", "run", "bench", "--", "--config", a.runtimePreset, "-m", a.model,
     "--prompt", a.prompt, "--max-tokens", DecimalString(a.maxTokens),
     "--runs", "1", "--warmup", "1"]
  }

  /** Each argument follows its own flag; one run, one warm-up. */
  lemma BenchCommandFlags(a: BenchArgs)
    ensures var cmd := BenchCommand(a);
      && cmd[..5] == ["npm", "run", "bench", "--", "--config"]
      && cmd[6] == "-m" && cmd[8] == "--prompt" && cmd[10] == "--max-tokens"
      && cmd[12..] == ["--runs", "1", "--warmup", "1"]
  {
  }

  /** int(str(n)) == n: the decimal rendering of --max-tokens reads back as the integer main was given. */
  lemma MaxTokensRoundTrip(a: BenchArgs)
    ensures ParseInt(BenchCommand(a)[11]) == Some(a.maxTokens)
  {
    ParseDecimalString(a.maxTokens);
  }

  /** What subprocess.run hands back: the two captured streams and the return code. */
  datatype ProcessResult = ProcessResult(stdout: Option<string>, stderr: Option<string>, returnCode: int)

  /** The JSON summary main writes and prints. */
  datatype Payload = Payload(
    model: string,
    runtimePreset: string,
    prompt: string,
    maxTokens: int,
    returnCode: int,
    metrics: map<string, Option<string>>)

  /**
   * main after the subprocess has run: scan both streams, build the
   * payload, and return the subprocess's own return code. When float()
   * refuses a lexeme, main raises before the payload is built, and the
   * interpreter exits with status 1.
   */
  method Summarize(a: BenchArgs, proc: ProcessResult) returns (r: Result<Payload, MetricError>, exitCode: int)
    ensures var output := CombinedOutput(proc.stdout, proc.stderr);
      r.Ok? <==> Converts(SearchLexeme(output, FirstTokenPattern)) && Converts(SearchLexeme(output, ThroughputPattern))
    ensures r.Err? ==> exitCode == 1
    ensures r.Err? ==> var output := CombinedOutput(proc.stdout, proc.stderr);
      r.error == if !Converts(SearchLexeme(output, FirstTokenPattern))
        then NotAFloat(FirstTokenKey, SearchLexeme(output, FirstTokenPattern).value)
        else NotAFloat(TokensPerSKey, SearchLexeme(output, ThroughputPattern).value)
    ensures r.Ok? ==> exitCode == proc.returnCode
    ensures r.Ok? ==> var payload := r.value;
      && payload.model == a.model && payload.runtimePreset == a.runtimePreset
      && payload.prompt == a.prompt && payload.maxTokens == a.maxTokens
      && payload.returnCode == proc.returnCode
      && payload.metrics.Keys == {FirstTokenKey, TokensPerSKey}
      && payload.metrics[FirstTokenKey] == SearchLexeme(CombinedOutput(proc.stdout, proc.stderr), FirstTokenPattern)
      && payload.metrics[TokensPerSKey] == SearchLexeme(CombinedOutput(proc.stdout, proc.stderr), ThroughputPattern)
  {
    var output := CombinedOutput(proc.stdout, proc.stderr);
    var metrics := ParseMetrics(output);
    if metrics.Err? {
      return Err(metrics.error), 1;
    }
    r := Ok(Payload(a.model, a.runtimePreset, a.prompt, a.maxTokens, proc.returnCode, metrics.value));
    exitCode := proc.returnCode;
  }

  /**
   * stdout "First token: 1.2.3ms" makes main raise, whatever stderr holds:
   * the latency lexeme "1.2.3" is not a float literal.
   */
  lemma NonNumberLatencyRaises(stderr: Option<string>)
    ensures var output := CombinedOutput(Some("First token: 1.2.3ms"), stderr);
      SearchLexeme(output, FirstTokenPattern) == Some("1.2.3")
      && !Converts(SearchLexeme(output, FirstTokenPattern))
  {
    var line, tail := "First token: 1.2.3ms", "\n" + OrEmpty(stderr);
    NonNumberLineFound(tail);
    Assoc(line, "\n", OrEmpty(stderr));
    FloatLiteralCases();
  }

  /** "First token: 1.2.3ms" yields "1.2.3" whatever follows it. */
  lemma NonNumberLineFound(tail: string)
    ensures SearchLexeme("First token: 1.2.3ms" + tail, FirstTokenPattern) == Some("1.2.3")
  {
    var pieces := "First token" + "" + ":" + " " + "1.2.3" + "ms";
    NonNumberPieces();
    assert pieces + "" == pieces;
    LatencyLine("First token", "", " ", "1.2.3", "ms", tail);
  }
}
