# Doppler reference debug scripts, modelled in Dafny

Doppler ships a set of Python scripts that compare its own inference
against HuggingFace transformers, plus a benchmark scaffold that runs
`npm run bench` and stores the metrics it prints. Almost all their numeric
work goes to torch. This project models the deterministic logic that
remains, and proves what that logic promises:

- `benchmark.dfy`, `metric_scan.dfy`: `parse_metrics` in
  `benchmarks/kernels/benchmark_gptoss_moe.py`.
  - The two case-insensitive regular expressions are a small pattern
    language. A greedy scanner runs it, and a declarative match relation
    says what it means; the two are proved to agree.
  - `re.search` is modelled as the leftmost scan.
  - The module also covers the stdout/stderr concatenation, the bench
    command line, and the payload and exit code of `main`.
- `layer_report.dfy`, `layer_out_json.dfy`, `layer_out_cli.dfy`: the two
  `hf_layer_out.py` variants.
  - Config validation, and Python-style token index resolution.
  - The OUT OF RANGE rule and the `+1` embedding offset.
  - The main section, then the BOS section, as lists of entries.
- `rope.dfy`: `apply_rope_to_vector` (pair-interleaved rotation over a
  fresh array), the frequency count, and the config checks of
  `hf_rope_check.py`.
- `weights.dfy`: the config checks, the `projs_to_show` rule and the
  weight slices of `hf_weights.py`.
- `attn_debug.dfy`, `embed_check.dfy`: the config helpers, the sampled
  rows and the per-token loops of `hf_attn_debug.py` and
  `src/debug/reference/hf_embed_check.py`.
- Shared helpers:
  - `config.dfy`: `load_config`, `require_string`, `require_int`. The
    two scripts that have them carry identical copies, so they are
    modelled once.
  - `json_value.dfy`: the JSON values `json.load` returns.
  - `pytext.dfy`: `str.isspace`, `str.strip`, `str.split`, negative
    indexing.
  - `pyint.dfy`: `int()` and `str()` on integers.
  - `stats.dfy`: the first-N prefix and the max-of-abs statistic.
  - `wrappers.dfy`: `Option` and `Result`.

Python details that are modelled as the code behaves:
- A JSON boolean passes `isinstance(x, int)`. In comparisons and
  arithmetic, and so as a layer number, it counts as 1 or 0.
- A boolean `token` stays `True` or `False` after `token_idx = token if
  token >= 0 else ...`. Used as a tensor subscript, torch reads it as a
  mask, not as the index 1 or 0, so the script raises at the first
  in-range layer.
- `dict.get` returns None for a missing key.
- `str.strip` and `\s` use the `str.isspace` character set.
- `re.IGNORECASE` also folds U+0130, U+0131, U+017F and U+212A onto the
  ASCII letters i, s and k.
- `[0-9.]+` captures lexemes such as "1.2.3" or ".", which `float()`
  refuses. `parse_metrics` then raises, and `main` exits with status 1
  without writing a payload. An accepted metric is kept as its lexeme.

Further facts about the code that the model keeps:
- `compute_rope_freqs` yields `(head_dim + 1) / 2` frequencies and never
  raises on an odd `head_dim`; the rotation does. A negative `head_dim`
  makes `torch.arange` raise.
- Only the layer's upper bound is checked. A token index outside the
  sequence raises IndexError; it does not produce a marker.
- The report lists every main entry first, then the BOS section; it does
  not interleave the two per layer.
- The metric keys are `first_token_ms` and `tokens_per_s`.
- Negative layer numbers are accepted.

## Model

| member | source | states |
|---|---|---|
| MetricScan.Matches | benchmarks/kernels/benchmark_gptoss_moe.py:18-19 | what a pattern means: the bounds cut the text into consecutive spans, one per element, a literal matched ignoring case, a class run of any length (`*`) or at least one character (`+`, group) |
| MetricScan.SkipRun | benchmarks/kernels/benchmark_gptoss_moe.py:18-19 | a `\s*`, `[0-9]+` or `[0-9.]+` run takes the longest stretch of its class: everything up to the end is in the class, and the next character is not |
| MetricScan.Scan | benchmarks/kernels/benchmark_gptoss_moe.py:18-19 | one greedy attempt of a pattern at a position; on success the end lies in the text and a group is reported exactly when the pattern has one, inside the matched span |
| MetricScan.ScanSound | benchmarks/kernels/benchmark_gptoss_moe.py:18-19 | a successful scan has a regex decomposition from the same start, with the same end and the same capture |
| MetricScan.ScanComplete | benchmarks/kernels/benchmark_gptoss_moe.py:18-19 | in a pattern where no run can eat what follows it, every regex decomposition is the one the greedy scan finds, capture included, so no backtracking is needed |
| MetricScan.PatternsDeterministic | benchmarks/kernels/benchmark_gptoss_moe.py:18-19 | both metric patterns have that property and contain a capturing group |
| MetricScan.ScanIffMatchesAt | benchmarks/kernels/benchmark_gptoss_moe.py:18-19 | for such a pattern, the scan at a position succeeds if and only if the pattern matches there |
| MetricScan.SearchFrom | benchmarks/kernels/benchmark_gptoss_moe.py:26 | `pattern.search`: the start found is the first position from i at which the scan succeeds; every earlier position fails; None means every position fails |
| MetricScan.SearchLexeme | benchmarks/kernels/benchmark_gptoss_moe.py:26-28 | `match.group(1)` of `pattern.search(text)`, or None without a match |
| MetricScan.SearchFindsIffMatches | benchmarks/kernels/benchmark_gptoss_moe.py:26-28 | a key gets a value if and only if its pattern matches at some position of the text |
| MetricScan.SearchTakesLeftmost | benchmarks/kernels/benchmark_gptoss_moe.py:26-28 | the value is the group text of the leftmost match, under any decomposition of that match |
| MetricScan.MetricPatternFound | benchmarks/kernels/benchmark_gptoss_moe.py:26-28 | for either metric pattern, a match anywhere in the text gives a value |
| MetricScan.MatchesExtend | benchmarks/kernels/benchmark_gptoss_moe.py:26 | text appended after a match leaves it a match at the same place |
| MetricScan.MatchesShift | benchmarks/kernels/benchmark_gptoss_moe.py:26 | text put before a match leaves it a match, moved by the length of that text |
| MetricScan.LeadingTextSkipped | benchmarks/kernels/benchmark_gptoss_moe.py:26-28 | for a backtracking-free pattern with a group, text put before s none of whose characters can start the first literal leaves the found lexeme unchanged |
| MetricScan.AbsentStartNoMatch | benchmarks/kernels/benchmark_gptoss_moe.py:26-27 | a text containing no character that can start the first literal (in any case) gives None |
| MetricScan.LatencyLine | benchmarks/kernels/benchmark_gptoss_moe.py:18 | any text that starts "First token" (any case), then white space, ":", white space, a digit/dot run and "ms" (any case) yields exactly that run, whatever follows |
| MetricScan.ThroughputLine | benchmarks/kernels/benchmark_gptoss_moe.py:19 | any text that starts "Generated", ":", a digit run, "tokens", "(", a digit/dot run and " tok/s)", with white space where the pattern allows it and literals in any case, yields the run in parentheses |
| MetricScan.LatencyIgnoresCase | benchmarks/kernels/benchmark_gptoss_moe.py:18 | "first TOKEN : 12.5MS" yields "12.5" |
| MetricScan.LatencyAdmitsNonNumber | benchmarks/kernels/benchmark_gptoss_moe.py:18 | "First token: 1.2.3ms" yields "1.2.3", a lexeme `float()` refuses |
| MetricScan.ThroughputTakesRate | benchmarks/kernels/benchmark_gptoss_moe.py:19 | "Generated: 100 tokens (33.3 tok/s)" yields the rate "33.3", not the count |
| MetricScan.LatencyNeedsAdjacentUnit | benchmarks/kernels/benchmark_gptoss_moe.py:18 | "First token: 12.5 ms" yields nothing: "ms" must follow the number directly |
| MetricScan.ThroughputNeedsOneSpace | benchmarks/kernels/benchmark_gptoss_moe.py:19 | two spaces before "tok/s" yield nothing |
| Benchmark.IsFloatLiteral | benchmarks/kernels/benchmark_gptoss_moe.py:28 | the `[0-9.]+` lexemes `float()` converts: at most one '.' and at least one digit |
| Benchmark.FloatLiteralCases | benchmarks/kernels/benchmark_gptoss_moe.py:28 | `float()` refuses "1.2.3" and "." and converts "1." and ".5" |
| Benchmark.ParseMetrics | benchmarks/kernels/benchmark_gptoss_moe.py:23-29 | fails if and only if a found lexeme is not a float literal, with the first such key in pattern order; otherwise exactly the keys `first_token_ms` and `tokens_per_s`, each holding its own pattern's leftmost lexeme, or None when that pattern does not match |
| Benchmark.CombinedOutput | benchmarks/kernels/benchmark_gptoss_moe.py:61 | the scanned text is stdout, one newline, then stderr, with a missing stream read as empty |
| Benchmark.StdoutMetricFound | benchmarks/kernels/benchmark_gptoss_moe.py:61-62 | a metric that stdout matches is found in the scanned text, whatever stderr holds |
| Benchmark.StderrMetricFound | benchmarks/kernels/benchmark_gptoss_moe.py:61-62 | a metric that stderr matches is found in the scanned text, whatever stdout holds |
| Benchmark.LatencyAcrossStreams | benchmarks/kernels/benchmark_gptoss_moe.py:61 | `\s*` also matches the joining newline: stdout "First token:" and stderr "12ms" yield "12" |
| Benchmark.BothMetricsRead | benchmarks/kernels/benchmark_gptoss_moe.py:24-28 | a latency line on stdout and a throughput line on stderr yield 12.5 and 33.3 |
| Benchmark.NoStreamsNoMetrics | benchmarks/kernels/benchmark_gptoss_moe.py:61 | with both streams missing, both metrics stay None |
| Benchmark.RateWithoutLatency | benchmarks/kernels/benchmark_gptoss_moe.py:25-28 | a throughput line with no latency line gives latency None and the rate |
| Benchmark.LatencyWithoutRate | benchmarks/kernels/benchmark_gptoss_moe.py:25-28 | a latency line with no throughput line gives the latency and rate None |
| Benchmark.DefaultArgs | benchmarks/kernels/benchmark_gptoss_moe.py:33-38 | the argparse defaults: preset "bench", prompt "short", 64 tokens and the default output path |
| Benchmark.DefaultCommand | benchmarks/kernels/benchmark_gptoss_moe.py:33-58 | with only the model given, the whole command runs preset "bench" on prompt "short" with `--max-tokens 64` |
| Benchmark.BenchCommand | benchmarks/kernels/benchmark_gptoss_moe.py:41-58 | the command has 16 elements: preset at 5, model at 7, prompt at 9, max tokens in decimal at 11 |
| Benchmark.BenchCommandFlags | benchmarks/kernels/benchmark_gptoss_moe.py:41-58 | the other slots are the fixed flags: `npm run bench -- --config` first, each argument after its own flag, `--runs 1 --warmup 1` last |
| Benchmark.MaxTokensRoundTrip | benchmarks/kernels/benchmark_gptoss_moe.py:53 | `int(str(n)) == n`: the decimal max-tokens argument reads back as the integer `main` was given |
| Benchmark.Summarize | benchmarks/kernels/benchmark_gptoss_moe.py:60-78 | when `float()` refuses a found lexeme, `main` raises before any payload and exits with status 1; otherwise the payload copies the four arguments, records the subprocess return code verbatim and holds the metrics of stdout + "\n" + stderr, and `main` returns that same code |
| Benchmark.NonNumberLatencyRaises | benchmarks/kernels/benchmark_gptoss_moe.py:26-28 | stdout "First token: 1.2.3ms" captures "1.2.3" whatever stderr holds, and `float()` refuses it, so `main` raises |
| Benchmark.NonNumberLineFound | benchmarks/kernels/benchmark_gptoss_moe.py:18 | "First token: 1.2.3ms" yields "1.2.3" whatever text follows |
| ConfigChecks.Message | src/debug/reference/hf_attn_debug.py:26-48 | the SystemExit text: the usage line names the script, and every key check's message begins `Config "<key>"` |
| ConfigChecks.LoadConfig | src/debug/reference/hf_attn_debug.py:26-34 | accepted if and only if there is exactly one argument (argv length 2) and the JSON is an object; the usage error names the script |
| ConfigChecks.RequireString | src/debug/reference/hf_attn_debug.py:37-41 | accepted if and only if the key is present with a string that is not blank after stripping; the original, unstripped string is returned |
| ConfigChecks.RequireInt | src/debug/reference/hf_attn_debug.py:44-48 | accepted if and only if the key holds an int or a bool; a bool reads as 1 or 0 |
| ConfigChecks.BlankStringRejected | src/debug/reference/hf_attn_debug.py:39-40 | a value of only white space is rejected |
| ConfigChecks.BoolPassesRequireInt | src/debug/reference/hf_attn_debug.py:46 | JSON true passes the integer check as 1 |
| JsonValue.IsPyInt | src/debug/reference/hf_attn_debug.py:46 | `isinstance(v, int)`: ints and booleans pass, floats, strings, null, lists and objects do not |
| JsonValue.Get | src/debug/reference/hf_attn_debug.py:38 | `config.get(key)`: the stored value, or None for a missing key |
| PyText.StripLeft | src/debug/reference/hf_attn_debug.py:39 | the result is a suffix of the input, everything removed is white space, and it does not start with white space |
| PyText.StripRight | src/debug/reference/hf_attn_debug.py:39 | the result is a prefix of the input, everything removed is white space, and it does not end with white space |
| PyText.Strip | src/debug/reference/hf_attn_debug.py:39 | `str.strip()`: no longer than the input, and empty or starting and ending with a non-space |
| PyText.StripEmptyIffBlank | src/debug/reference/hf_attn_debug.py:39 | `value.strip()` is empty if and only if every character is white space |
| PyText.Split | debug/reference/hf_layer_out.py:24 | `s.split(",")`: at least one piece, empty pieces kept |
| PyText.SplitPiecesFree | debug/reference/hf_layer_out.py:24 | no piece of `split(",")` contains a comma |
| PyText.SplitCount | debug/reference/hf_layer_out.py:24 | `split(",")` returns one piece more than there are commas |
| PyText.JoinSplit | debug/reference/hf_layer_out.py:24 | joining the pieces of `split(",")` with commas gives the string back |
| PyText.SplitJoin | debug/reference/hf_layer_out.py:24 | splitting comma-free pieces that were joined with commas gives the pieces back |
| PyText.PyIndex | src/debug/reference/hf_layer_out.py:78-81 | Python indexing: -n..-1 count from the end, anything outside -n..n-1 raises |
| PyInt.DecimalString | debug/reference/hf_layer_out.py:24 | `str(n)`: never empty, and it starts with a minus sign exactly when n is negative |
| PyInt.IsIntSpace | debug/reference/hf_layer_out.py:24 | the white space `int()` skips: `str.isspace` characters except U+001C..U+001F |
| PyInt.TrimLeft | debug/reference/hf_layer_out.py:24 | a suffix of the input; everything removed is `int()` white space, and the rest does not start with it |
| PyInt.TrimRight | debug/reference/hf_layer_out.py:24 | a prefix of the input; everything removed is `int()` white space, and the rest does not end with it |
| PyInt.ParseInt | debug/reference/hf_layer_out.py:24 | `int(x)` in base 10: white space around, an optional sign, digits with single underscores between them; None where Python raises on a malformed string (the digit limit is left out) |
| PyInt.ParseDecimalString | debug/reference/hf_layer_out.py:24 | `int(str(n)) == n` for every integer (the digit limit is left out) |
| PyInt.NoBreakSpaceSkipped | debug/reference/hf_layer_out.py:24 | `int("\u00a05 ")` is 5: a no-break space is skipped |
| PyInt.SeparatorNotSkipped | debug/reference/hf_layer_out.py:24 | U+001C is white space to `str.isspace` but `int("\x1c5")` raises |
| Stats.Head | src/debug/reference/hf_layer_out.py:80 | `row[:n]`: the first min(n, len) values, unchanged |
| Stats.MaxAbs | src/debug/reference/hf_layer_out.py:81 | `abs().max()`: the absolute value of some entry, and at least that of every entry |
| LayerReport.ResolveToken | src/debug/reference/hf_layer_out.py:59 | `token if token >= 0 else num_tokens + token`: a non-negative token is kept, and the result is a valid index exactly when the token is in -n..n-1 |
| LayerReport.RowAt | src/debug/reference/hf_layer_out.py:78-81 | `hidden_states[layer + 1][0, token]` with Python indexing; None where that raises |
| LayerReport.ResolveTokenInRange | src/debug/reference/hf_layer_out.py:59 | a token in -n..n-1 resolves, by adding n when negative, to the index Python's own indexing would use |
| LayerReport.TokenResolvedTwice | src/debug/reference/hf_layer_out.py:59 | a token below -n resolves to a negative index that torch resolves again: -7 over 5 tokens reads row 3 |
| LayerReport.MainEntryFor | src/debug/reference/hf_layer_out.py:73-86 | one main entry: OUT OF RANGE exactly when the layer is past the last one, nothing (the script raises) exactly when an in-range row lookup fails |
| LayerReport.BosEntryFor | src/debug/reference/hf_layer_out.py:91-96 | one BOS entry: present exactly when row 0 of the layer's state exists, and labelled with that layer |
| LayerReport.InRangeLayers | src/debug/reference/hf_layer_out.py:90-92 | the layers the BOS loop does not skip, never more than requested |
| LayerReport.OutOfRangeIff | src/debug/reference/hf_layer_out.py:73-75 | a layer gets OUT OF RANGE if and only if `layer >= len(hidden_states) - 1` |
| LayerReport.MainEntryLabels | src/debug/reference/hf_layer_out.py:74-84 | each entry names its own layer and the resolved token |
| LayerReport.InRangeReadsNextState | src/debug/reference/hf_layer_out.py:77-81 | an in-range layer L reads row `token` of `hidden_states[L + 1]` |
| LayerReport.LayerMinusOneReadsEmbeddings | src/debug/reference/hf_layer_out.py:73-78 | the lower bound is never checked: layer -1 reads the embeddings, `hidden_states[0]` |
| LayerReport.LayerMinusTwoReadsLastState | src/debug/reference/hf_layer_out.py:73-78 | layer -2 reads `hidden_states[-1]`, the last layer |
| LayerReport.MainSection | src/debug/reference/hf_layer_out.py:72-86 | one entry per requested layer, in request order, duplicates repeated; it stops only where indexing raises, keeping what was printed |
| LayerReport.InRangeMembership | src/debug/reference/hf_layer_out.py:90-92 | the BOS section covers exactly the requested layers that are in range |
| LayerReport.InRangeAll | src/debug/reference/hf_layer_out.py:90-92 | with every layer in range the BOS section follows the request exactly |
| LayerReport.InRangeNone | src/debug/reference/hf_layer_out.py:90-92 | with no layer in range the BOS section is empty |
| LayerReport.BosSection | src/debug/reference/hf_layer_out.py:89-96 | one first8/maxAbs entry at position 0 per in-range layer, in request order, out-of-range layers skipped without a marker |
| LayerReport.BosCompletesAfterMain | src/debug/reference/hf_layer_out.py:90-95 | if the main loop completed, no BOS lookup raises |
| LayerReport.Report | src/debug/reference/hf_layer_out.py:59-96 | the token is resolved once and the main section comes first; the BOS section follows only if the main section completed, and then it is complete |
| LayerOutJson.PyInts | src/debug/reference/hf_layer_out.py:45-50 | the layer list keeps every entry in order, bools read as 1 or 0 |
| LayerOutJson.ValidateConfig | src/debug/reference/hf_layer_out.py:26-48 | accepted if and only if argv has one argument, the JSON is an object, model and prompt are non-blank strings, layers is a non-empty list of ints and token is an int; each check, once the earlier ones pass, fails with its own error; a boolean token is flagged |
| LayerOutJson.BoolLayerReadsAsOne | src/debug/reference/hf_layer_out.py:45 | a JSON true among the layers is accepted as layer 1 |
| LayerOutJson.EmptyLayersRejected | src/debug/reference/hf_layer_out.py:43-44 | an empty layer list is rejected |
| LayerOutJson.Run | src/debug/reference/hf_layer_out.py:25-96 | a config error stops the script with that error; with an integer token the report is the one for the validated layers and token; with a boolean token it is the bool-token report |
| LayerOutJson.BoolTokenMainSection | src/debug/reference/hf_layer_out.py:72-86 | with a boolean token: OUT OF RANGE markers for the leading out-of-range layers, stopping at the first in-range layer, where the mask subscript raises |
| LayerOutJson.BoolTokenCompletesIffNoneInRange | src/debug/reference/hf_layer_out.py:72-96 | a boolean token leaves the script running to the end if and only if no requested layer is in range, and then the BOS section is empty |
| LayerOutJson.BoolTokenFlagged | src/debug/reference/hf_layer_out.py:47 | JSON true passes the token check and is flagged as a boolean |
| LayerOutCli.ParseLayers | debug/reference/hf_layer_out.py:24 | `[int(x) for x in layers.split(",")]`: one value per piece |
| LayerOutCli.ParseAll | debug/reference/hf_layer_out.py:24 | every piece goes through `int()`: a parsed list has one value per piece |
| LayerOutCli.ParseAllIff | debug/reference/hf_layer_out.py:24 | the list exists if and only if every piece parses |
| LayerOutCli.ParseAllValues | debug/reference/hf_layer_out.py:24 | a parsed list holds each piece's `int()` value, in piece order |
| LayerOutCli.ParseLayersCount | debug/reference/hf_layer_out.py:24 | a parsed layer list has one entry more than the string has commas |
| LayerOutCli.ParseLayersArg | debug/reference/hf_layer_out.py:24 | any non-empty layer list written as comma-separated decimals parses back to itself |
| LayerOutCli.DefaultLayers | debug/reference/hf_layer_out.py:20-24 | the default "0,12,25" gives layers 0, 12 and 25 |
| LayerOutCli.DefaultTokenIsLast | debug/reference/hf_layer_out.py:21-33 | the default token -1 resolves to the last token |
| LayerOutCli.EmptyPieceRejected | debug/reference/hf_layer_out.py:24 | "0,,25" is refused, because `int("")` raises |
| LayerOutCli.Run | debug/reference/hf_layer_out.py:24-70 | the script fails if and only if a layer piece does not parse; otherwise the report is the one for the parsed layers and the token |
| Rope.FreqExponents | src/debug/reference/hf_rope_check.py:26-29 | `arange(0, head_dim, 2)`: None (arange raises) exactly when head_dim is negative; otherwise the k-th exponent is 2k |
| Rope.FreqCount | src/debug/reference/hf_rope_check.py:26-29 | for head_dim >= 0 there are (head_dim + 1) / 2 frequencies, exactly the even indices below head_dim, odd head_dim included |
| Rope.Stride | src/debug/reference/hf_rope_check.py:40-41 | `x[0::2]` and `x[1::2]`: entry i is x[start + 2i], and the length matches Python's slice |
| Rope.AssignStride | src/debug/reference/hf_rope_check.py:49-50 | `out[start::2] = vals`: every slot of that parity holds its value, every other slot is unchanged |
| Rope.Interleave | src/debug/reference/hf_rope_check.py:48-50 | slots 2i and 2i+1 hold the i-th even and odd values |
| Rope.Rotate | src/debug/reference/hf_rope_check.py:39-50 | the rotated vector, slot by slot; it keeps the input's length |
| Rope.ApplyRopeToVector | src/debug/reference/hf_rope_check.py:32-52 | fails if and only if the shapes do not line up; otherwise a fresh array holding the rotated vector |
| Rope.SlicesRotate | src/debug/reference/hf_rope_check.py:40-50 | the script's slice arithmetic equals the slot-by-slot rotation |
| Rope.RotatePair | src/debug/reference/hf_rope_check.py:44-50 | the length is kept; out[2i] = x[2i]·cos[i] − x[2i+1]·sin[i] and out[2i+1] = x[2i]·sin[i] + x[2i+1]·cos[i] |
| Rope.RotatePairLocal | src/debug/reference/hf_rope_check.py:39-50 | an output pair depends only on its own input pair and angle: the pair-interleaved convention, not half-split |
| Rope.RotateIdentity | src/debug/reference/hf_rope_check.py:35-45 | with every cos 1 and every sin 0 (position 0) the output equals the input |
| Rope.RotateUnitPair | src/debug/reference/hf_rope_check.py:96-101 | the test vector's (1, 0) first pair comes out as (cos[0], sin[0]) |
| Rope.RotateInverse | src/debug/reference/hf_rope_check.py:44-45 | when cos² + sin² = 1 for every angle, rotating by the negated angles undoes the rotation |
| Rope.HeadDimShapes | src/debug/reference/hf_rope_check.py:28-45 | with cos and sin from the frequencies, the shapes line up if and only if head_dim is even |
| Rope.ValidateConfig | src/debug/reference/hf_rope_check.py:56-76 | accepted if and only if argv has one argument, the JSON is an object, model is a non-blank string, pos and dim are ints and theta is an int or float; each check, once the earlier ones pass, fails with its own error |
| Weights.ValidateConfig | src/debug/reference/hf_weights.py:25-42 | accepted if and only if argv has one argument, the JSON is an object, model is a non-blank string, layer is an int and proj is one of q, k, v, o, all; the checks run in the script's order, and each check fails with its own error once the earlier ones pass |
| Weights.ProjsToShow | src/debug/reference/hf_weights.py:50-57 | "all" gives q, k, v, o in that order; any other choice gives exactly that projection, and no name twice |
| Weights.SampleOf | src/debug/reference/hf_weights.py:61-71 | the row sample is the first min(8, in) entries of row 0; the column sample is column 0 of the first min(8, out) rows; weight[0, 100] is present if and only if in > 100 |
| Weights.ShowWeights | src/debug/reference/hf_weights.py:59-71 | one sample per selected projection, in selection order, each the sample of that projection's matrix |
| Weights.ShowAllOrder | src/debug/reference/hf_weights.py:57-60 | with "all" there are four samples, for q, k, v and o in that order |
| AttnDebug.ValidateConfig | src/debug/reference/hf_attn_debug.py:51-55 | accepted if and only if argv has one argument, the JSON is an object, model and prompt are non-blank strings and layer is an int; the checks run in the script's order, and each check fails with its own error once the earlier ones pass |
| AttnDebug.SampleRows | src/debug/reference/hf_attn_debug.py:83-102 | the sampled rows are the last token (index -1) and token 0, first min(8, len) values of each |
| AttnDebug.PerTokenMaxAbs | src/debug/reference/hf_attn_debug.py:105-110 | one line per token, t = 0 .. num_tokens-1 in order, with that token's Q, K and V max-of-abs |
| AttnDebug.Report | src/debug/reference/hf_attn_debug.py:83-110 | the samples are taken from the last token and token 0, and then one line is printed per token |
| EmbedCheck.ValidateConfig | src/debug/reference/hf_embed_check.py:41-44 | accepted if and only if argv has one argument, the JSON is an object and model and prompt are non-blank strings; the checks run in the script's order, and each check fails with its own error once the earlier ones pass |
| EmbedCheck.LastTokenHead | src/debug/reference/hf_embed_check.py:59 | `x[0, -1, :5]`: the first min(5, len) values of the last token's row |
| EmbedCheck.PerTokenMaxAbs | src/debug/reference/hf_embed_check.py:80-85 | one line per token in ascending order, covering every token, with the scaled-embedding and layer-0 max-of-abs |
| EmbedCheck.Report | src/debug/reference/hf_embed_check.py:59-85 | the raw, scaled and layer-0 samples are the first 5 values of the last token, then one line per token |

## Left out

- Framework calls: model and tokenizer loading, forward passes and hooks, layer norms and the Q/K/V/O projections. They are foreign calls; their outputs are parameters (hidden states, projection rows, weight matrices, token counts).
- `subprocess.run` is not executed: `Benchmark.Summarize` takes its result as a value. Also left out: file writes, `mkdir`, `json.load`, `json.dumps`, argparse and all printed formatting. Reports are datatype values, not text.
- `float()` of a captured metric: which lexemes it accepts is modelled (`Benchmark.IsFloatLiteral`), but not the value it computes. A metric is kept as its lexeme.
- Benchmark.Summarize: when `float()` raises, the model returns the error and status 1. The traceback text is not modelled.
- Floating point throughout: matrix values are `real`. The model leaves out `theta ** (...)`, `torch.cos`, `torch.sin` and the `sqrt(hidden_size)` scaling; cos and sin are inputs to the rotation.
- meanAbs in the main layer section: summation rounding makes it inexact, so entries carry only the first-8 prefix and maxAbs.
- `torch.randn` in the RoPE test vector: only its fixed first pair is modelled (`Rope.RotateUnitPair`).
- Rope.ValidateConfig: theta is kept as a `real`. JSON NaN and Infinity are not modelled.
- `model.model.layers[layer_index]` in `hf_weights.py` and `hf_attn_debug.py` may raise IndexError. The caller passes the selected layer's weights or projections.
- LayerReport.Report: the hidden size is required to be positive (`WellShaped`), as the framework guarantees. A raising lookup ends the model's report early, where Python raises IndexError.
- Weights.ShowWeights: weight matrices are required to be non-empty and rectangular (`WellFormed`), as torch weights are.
- AttnDebug.Report and EmbedCheck.Report: they require at least one token and non-empty rows. The scripts index token -1, which raises on an empty prompt, and a real tokenizer always yields a token.
- AttnDebug.PerTokenMaxAbs and EmbedCheck.PerTokenMaxAbs: the projection and embedding tensors are required to hold one non-empty row per token, as the framework produces them.
- Rope.ApplyRopeToVector: a shape mismatch is an error value. Torch broadcasting of size-1 dimensions is not modelled.
- Benchmark.Summarize: `sys.exit` reduces the returned code modulo 256 in the operating system. The model returns the code itself.
- PyInt.ParseInt / PyInt.ParseDecimalString: CPython's `sys.int_info.default_max_str_digits` limit (4300 digits by default since 3.11 and in the 3.7–3.10 security releases) is not modelled. Past it `int()` and `str()` raise ValueError, while the model parses and renders integers of any length. Which Python runs the scripts is not fixed by the code, and the limit can be changed at run time.
- PyInt.ParseInt: non-ASCII digits (Unicode decimal digits) are not modelled, so the model refuses strings that Python accepts. Only ASCII digits, signs, underscores and the surrounding white space (`PyInt.IsIntSpace`) are modelled.
- LayerOutJson.Run: with a boolean token the model stops at the first in-range layer, without its partial "Layer ... output" header. Which torch error the mask subscript raises is not modelled.
- `debug/reference/hf_embed_check.py` consists of argparse defaults and torch calls only, and is not part of this model.
- `test_gemma3.py` and `test_gemma3_weights.py` only load models or safetensors from a fixed cache path and print, so they are not part of this model.
