/**
 * console_capture.py: the object that stands in for `sys.stdout` and
 * `sys.stderr` while speech is generated, and the line classifier that turns
 * the engine's free-form console text into progress, warning, error, log and
 * completion signals.
 */
module Console {
  import opened Wrappers
  import opened Text
  import opened Decimal

  // ---------------------------------------------------------------------------
  // Keyword sets
  // ---------------------------------------------------------------------------

  const WarningKeywords: set<string> :=
    {"WARNING:", "Warning:", "warning:", "FutureWarning:", "UserWarning:", "deprecated", "deprecation"}

  const ErrorKeywords: set<string> :=
    {"ERROR:", "Error:", "error:", "CRITICAL:", "Critical:", "critical:",
     "Exception:", "Traceback:", "Failed:", "failed:"}

  const GenerationCompleteKeywords: set<string> :=
    {"forcing EOS token", "alignment_stream_analyzer",
     "WARNING:chatterbox.models.t3.inference.alignment_stream_analyzer"}

  const ImportantLogKeywords: set<string> :=
    {"loaded", "Loading", "loading", "Model", "model", "Initializing",
     "Generating", "generating", "Complete", "complete", "Finished"}

  /** `any(keyword in line for keyword in keywords)` */
  predicate HasKeyword(line: string, keywords: set<string>) {
    exists k | k in keywords :: Contains(line, k)
  }

  predicate IsGenerationComplete(line: string) { HasKeyword(line, GenerationCompleteKeywords) }
  predicate IsWarning(line: string) { HasKeyword(line, WarningKeywords) }
  predicate IsError(line: string) { HasKeyword(line, ErrorKeywords) }
  predicate IsImportantLog(line: string) { HasKeyword(line, ImportantLogKeywords) }

  // ---------------------------------------------------------------------------
  // The three progress patterns, as leftmost-match searches
  // ---------------------------------------------------------------------------

  /** Length of the maximal run of digits starting at `i`. */
  function DigitRun(s: string, i: nat): (n: nat)
    requires i <= |s|
    ensures i + n <= |s|
    ensures forall j {:trigger IsDigit(s[j])} :: i <= j < i + n ==> IsDigit(s[j])
    ensures i + n == |s| || !IsDigit(s[i + n])
    decreases |s| - i
  {
    if i < |s| && IsDigit(s[i]) then 1 + DigitRun(s, i + 1) else 0
  }

  /** Length of the maximal run of whitespace starting at `i`. */
  function SpaceRun(s: string, i: nat): (n: nat)
    requires i <= |s|
    ensures i + n <= |s|
    ensures forall j {:trigger IsSpace(s[j])} :: i <= j < i + n ==> IsSpace(s[j])
    ensures i + n == |s| || !IsSpace(s[i + n])
    decreases |s| - i
  {
    if i < |s| && IsSpace(s[i]) then 1 + SpaceRun(s, i + 1) else 0
  }

  /**
   * `(\d+)%` anchored at `k`: the greedy digit run can only be followed by
   * `%` when it is maximal, so the group is the maximal run from `k`.
   */
  function PercentAt(s: string, k: nat): Option<nat>
    requires k <= |s|
  {
    var n := DigitRun(s, k);
    if n > 0 && k + n < |s| && s[k + n] == '%' then Some(ParseDecimal(s[k..k + n])) else None
  }

  /** The three compiled patterns of PROGRESS_PATTERNS. */
  datatype Pattern =
    | Fetching  // Fetching \d+ files: (\d+)%
    | Sampling  // Sampling:\s*(\d+)%
    | General   // (\d+)%

  /** `Fetching \d+ files: (\d+)%` anchored at `i`. */
  function FetchingAt(s: string, i: nat): Option<nat>
    requires i <= |s|
  {
    if OccursAt(s, "Fetching ", i) then FilesAt(s, i + 9) else None
  }

  /** The rest of the Fetching pattern, `\d+ files: (\d+)%`, anchored at `j`. */
  function FilesAt(s: string, j: nat): Option<nat>
    requires j <= |s|
  {
    var n := DigitRun(s, j);
    if n > 0 && OccursAt(s, " files: ", j + n) then PercentAt(s, j + n + 8) else None
  }

  /** `Sampling:\s*(\d+)%` anchored at `i`. */
  function SamplingAt(s: string, i: nat): Option<nat>
    requires i <= |s|
  {
    if OccursAt(s, "Sampling:", i) then PercentAt(s, i + 9 + SpaceRun(s, i + 9)) else None
  }

  /** The value of group 1 when the pattern matches starting exactly at `i`. */
  function MatchAt(p: Pattern, s: string, i: nat): Option<nat>
    requires i <= |s|
  {
    match p
    case Fetching => FetchingAt(s, i)
    case Sampling => SamplingAt(s, i)
    case General => PercentAt(s, i)
  }

  datatype Match = Match(start: nat, percentage: nat)

  /** `pattern.search(s)` from position `from`: the leftmost match and its group value. */
  function Search(p: Pattern, s: string, from: nat): (r: Option<Match>)
    requires from <= |s|
    ensures r.Some? ==> from <= r.value.start <= |s| && MatchAt(p, s, r.value.start) == Some(r.value.percentage)
    ensures r.Some? ==> forall j :: from <= j < r.value.start ==> MatchAt(p, s, j) == None
    ensures r.None? ==> forall j :: from <= j <= |s| ==> MatchAt(p, s, j) == None
    decreases |s| - from
  {
    var here := MatchAt(p, s, from);
    if here.Some? then Some(Match(from, here.value))
    else if from == |s| then None
    else
      var r := Search(p, s, from + 1);
      assert forall j :: from <= j <= from ==> MatchAt(p, s, j) == here;
      r
  }

  /** A match at `i` with no match before it is what the search returns. */
  lemma {:induction false} SearchFindsLeftmost(p: Pattern, s: string, i: nat, v: nat)
    requires i <= |s| && MatchAt(p, s, i) == Some(v)
    requires forall j :: 0 <= j < i ==> MatchAt(p, s, j) == None
    ensures Search(p, s, 0) == Some(Match(i, v))
  {
    var r := Search(p, s, 0);
    assert r.Some?;
    assert r.value.start == i;
  }

  // ---------------------------------------------------------------------------
  // _extract_progress
  // ---------------------------------------------------------------------------

  const FetchingPrefix := "Загрузка файлов: "
  const SamplingPrefix := "Генерация речи: "
  const GeneralPrefix := "Обработка: "

  /** `f"{prefix}{percentage}%"` */
  function ProgressLabel(prefix: string, percentage: nat): string {
    prefix + FormatDecimal(percentage) + "%"
  }

  datatype ProgressInfo = ProgressInfo(percentage: nat, message: string)

  /** `_extract_progress`: Fetching first, then Sampling, then a rendered bar. */
  function ExtractProgress(line: string): (r: Option<ProgressInfo>)
  {
    var fetching := Search(Fetching, line, 0);
    if fetching.Some? then
      Some(ProgressInfo(fetching.value.percentage, ProgressLabel(FetchingPrefix, fetching.value.percentage)))
    else
      var sampling := Search(Sampling, line, 0);
      if sampling.Some? then
        Some(ProgressInfo(sampling.value.percentage, ProgressLabel(SamplingPrefix, sampling.value.percentage)))
      else
        var general := Search(General, line, 0);
        if general.Some? && '|' in line && '█' in line then
          Some(ProgressInfo(general.value.percentage, ProgressLabel(GeneralPrefix, general.value.percentage)))
        else
          None
  }

  // ---------------------------------------------------------------------------
  // One line, one signal at most
  // ---------------------------------------------------------------------------

  /** The signals ConsoleCapture emits. */
  datatype Event =
    | ProgressDetected(percentage: nat, message: string)
    | LogMessage(line: string)
    | WarningDetected(line: string)
    | ErrorDetected(line: string)
    | GenerationComplete

  /** The body of the loop in `_analyze_output` for one non-blank line. */
  function Classify(line: string): Option<Event> {
    if IsGenerationComplete(line) then
      Some(GenerationComplete)
    else
      match ExtractProgress(line)
      case Some(info) => Some(ProgressDetected(info.percentage, info.message))
      case None =>
        if IsWarning(line) then Some(WarningDetected(line))
        else if IsError(line) then Some(ErrorDetected(line))
        else if IsImportantLog(line) then Some(LogMessage(line))
        else None
  }

  // ---------------------------------------------------------------------------
  // What the patterns recognise
  // ---------------------------------------------------------------------------

  /** A block of digits followed by a non-digit (or the end) is one maximal run. */
  lemma {:induction false} DigitRunOfBlock(s: string, i: nat, d: string)
    requires OccursAt(s, d, i) && AllDigits(d)
    requires i + |d| == |s| || !IsDigit(s[i + |d|])
    ensures DigitRun(s, i) == |d|
  {
    forall j | i <= j < i + |d| ensures IsDigit(s[j]) {
      assert s[j] == d[j - i];
    }
  }

  /** A block of whitespace followed by a non-space is one maximal run. */
  lemma {:induction false} SpaceRunOfBlock(s: string, i: nat, ws: string)
    requires OccursAt(s, ws, i) && IsBlank(ws)
    requires i + |ws| < |s| && !IsSpace(s[i + |ws|])
    ensures SpaceRun(s, i) == |ws|
  {
    forall j | i <= j < i + |ws| ensures IsSpace(s[j]) {
      assert s[j] == ws[j - i];
    }
  }

  /** The percent group at `k` when the digits `d` and a `%` sit there. */
  lemma {:induction false} PercentAtBlock(s: string, k: nat, d: string)
    requires |d| >= 1 && AllDigits(d)
    requires OccursAt(s, d, k) && k + |d| < |s| && s[k + |d|] == '%'
    ensures PercentAt(s, k) == Some(ParseDecimal(d))
  {
    DigitRunOfBlock(s, k, d);
    assert s[k..k + |d|] == d;
  }

  /** Without the literal text of a named pattern, that pattern never matches. */
  lemma {:induction false} AbsentLiteral(p: Pattern, line: string)
    requires p == Fetching ==> !Contains(line, "Fetching ")
    requires p == Sampling ==> !Contains(line, "Sampling:")
    requires p != General
    ensures Search(p, line, 0) == None
  {
    forall j | 0 <= j <= |line| ensures MatchAt(p, line, j) == None {
      if p == Fetching {
        assert !OccursAt(line, "Fetching ", j);
      } else {
        assert !OccursAt(line, "Sampling:", j);
      }
    }
  }

  /** The Fetching pattern matches at `i` when its literal parts and digit blocks sit there. */
  lemma {:induction false} FetchingMatchAt(line: string, i: nat, d1: string, d2: string)
    requires |d1| >= 1 && AllDigits(d1) && |d2| >= 1 && AllDigits(d2)
    requires OccursAt(line, "Fetching ", i) && OccursAt(line, d1, i + 9)
    requires OccursAt(line, " files: ", i + 9 + |d1|)
    requires OccursAt(line, d2, i + 9 + |d1| + 8) && i + 9 + |d1| + 8 + |d2| < |line|
    requires line[i + 9 + |d1| + 8 + |d2|] == '%'
    ensures MatchAt(Fetching, line, i) == Some(ParseDecimal(d2))
  {
    FilesAtBlock(line, i + 9, d1, d2);
    FetchingStep(line, i, ParseDecimal(d2));
  }

  /** After the literal `Fetching `, the Fetching pattern is its tail. */
  lemma {:induction false} FetchingStep(line: string, i: nat, v: nat)
    requires i + 9 <= |line| && OccursAt(line, "Fetching ", i) && FilesAt(line, i + 9) == Some(v)
    ensures MatchAt(Fetching, line, i) == Some(v)
  {
  }

  /** The digits `d1`, ` files: ` and the digits `d2` with a `%` at `j` give `int(d2)`. */
  lemma {:induction false} FilesAtBlock(line: string, j: nat, d1: string, d2: string)
    requires |d1| >= 1 && AllDigits(d1) && |d2| >= 1 && AllDigits(d2)
    requires OccursAt(line, d1, j) && OccursAt(line, " files: ", j + |d1|)
    requires OccursAt(line, d2, j + |d1| + 8) && j + |d1| + 8 + |d2| < |line|
    requires line[j + |d1| + 8 + |d2|] == '%'
    ensures FilesAt(line, j) == Some(ParseDecimal(d2))
  {
    assert " files: "[0] == ' ';
    DigitRunOfBlock(line, j, d1);
    FilesAtRun(line, j, |d1|);
    PercentAtBlock(line, j + |d1| + 8, d2);
  }

  /** Once the first digit run is known, the Fetching tail is the percent group after ` files: `. */
  lemma {:induction false} FilesAtRun(line: string, j: nat, n: nat)
    requires j + n + 8 <= |line| && DigitRun(line, j) == n > 0 && OccursAt(line, " files: ", j + n)
    ensures FilesAt(line, j) == PercentAt(line, j + n + 8)
  {
  }

  /**
   * A line carrying `Fetching <d1> files: <d2>%` at `i`, where the Fetching
   * pattern matches nowhere earlier, reports the files percentage `int(d2)`,
   * whatever follows.
   */
  lemma {:induction false} FetchingLine(line: string, i: nat, d1: string, d2: string)
    requires |d1| >= 1 && AllDigits(d1) && |d2| >= 1 && AllDigits(d2)
    requires OccursAt(line, "Fetching ", i) && OccursAt(line, d1, i + 9)
    requires OccursAt(line, " files: ", i + 9 + |d1|)
    requires OccursAt(line, d2, i + 9 + |d1| + 8) && i + 9 + |d1| + 8 + |d2| < |line|
    requires line[i + 9 + |d1| + 8 + |d2|] == '%'
    requires forall j :: 0 <= j < i ==> MatchAt(Fetching, line, j) == None
    ensures ExtractProgress(line) == Some(ProgressInfo(ParseDecimal(d2), ProgressLabel(FetchingPrefix, ParseDecimal(d2))))
  {
    FetchingMatchAt(line, i, d1, d2);
    SearchFindsLeftmost(Fetching, line, i, ParseDecimal(d2));
  }

  /** `w` occurs in `a + w + b` right after `a`. */
  lemma {:induction false} OccursBetween(a: string, w: string, b: string)
    ensures OccursAt(a + w + b, w, |a|)
  {
    forall k | 0 <= k < |w| ensures (a + w + b)[|a| + k] == w[k] {
      assert (a + w + b)[|a| + k] == (a + w)[|a| + k];
    }
  }

  /** The sample logger line `INFO Fetching 4 files: 50%|█`. */
  const PrefixedLine := "INFO Fetching 4 files: 50%|█"

  /** No Fetching match starts inside the logger prefix of `PrefixedLine`. */
  lemma {:induction false} PrefixedLineMisses()
    ensures forall j :: 0 <= j < 5 ==> MatchAt(Fetching, PrefixedLine, j) == None
  {
    forall j | 0 <= j < 5 ensures MatchAt(Fetching, PrefixedLine, j) == None {
      assert "Fetching "[0] == 'F' && "Fetching "[1] == 'e';
      assert PrefixedLine[j] != 'F' || PrefixedLine[j + 1] != 'e';
    }
  }

  /** The pieces of the Fetching pattern sit at offset 5 of `PrefixedLine`. */
  lemma {:induction false} PrefixedLineParts()
    ensures OccursAt(PrefixedLine, "Fetching ", 5) && OccursAt(PrefixedLine, "4", 14)
    ensures OccursAt(PrefixedLine, " files: ", 15) && OccursAt(PrefixedLine, "50", 23)
    ensures |PrefixedLine| > 25 && PrefixedLine[25] == '%'
  {
    assert PrefixedLine == "INFO " + "Fetching " + "4" + " files: " + "50" + "%|█";
    OccursBetween("INFO ", "Fetching ", "4 files: 50%|█");
    OccursBetween("INFO Fetching ", "4", " files: 50%|█");
    OccursBetween("INFO Fetching 4", " files: ", "50%|█");
    OccursBetween("INFO Fetching 4 files: ", "50", "%|█");
  }

  /** A logger prefix before the Fetching text does not hide it: `PrefixedLine` reports 50. */
  lemma {:induction false} PrefixedFetchingLine()
    ensures ExtractProgress(PrefixedLine) == Some(ProgressInfo(50, ProgressLabel(FetchingPrefix, 50)))
  {
    PrefixedLineMisses();
    PrefixedLineParts();
    assert ParseDecimal("50") == 50;
    FetchingLine(PrefixedLine, 5, "4", "50");
  }

  /** The Sampling pattern matches at `i` when its literal, the whitespace `ws` and a digit block sit there. */
  lemma {:induction false} SamplingMatchAt(line: string, i: nat, ws: string, d: string)
    requires IsBlank(ws) && |d| >= 1 && AllDigits(d)
    requires OccursAt(line, "Sampling:", i) && OccursAt(line, ws, i + 9)
    requires OccursAt(line, d, i + 9 + |ws|) && i + 9 + |ws| + |d| < |line|
    requires line[i + 9 + |ws| + |d|] == '%'
    ensures MatchAt(Sampling, line, i) == Some(ParseDecimal(d))
  {
    PercentAfterSpace(line, i + 9, ws, d);
    SamplingStep(line, i, ParseDecimal(d));
  }

  /** After the literal `Sampling:`, the Sampling pattern is the percent group past the whitespace. */
  lemma {:induction false} SamplingStep(line: string, i: nat, v: nat)
    requires i + 9 <= |line| && OccursAt(line, "Sampling:", i)
    requires PercentAt(line, i + 9 + SpaceRun(line, i + 9)) == Some(v)
    ensures MatchAt(Sampling, line, i) == Some(v)
  {
  }

  /** Whitespace `ws` at `j` followed by the digits `d` and a `%`: `\s*(\d+)%` there gives `int(d)`. */
  lemma {:induction false} PercentAfterSpace(line: string, j: nat, ws: string, d: string)
    requires IsBlank(ws) && |d| >= 1 && AllDigits(d)
    requires OccursAt(line, ws, j) && OccursAt(line, d, j + |ws|)
    requires j + |ws| + |d| < |line| && line[j + |ws| + |d|] == '%'
    ensures PercentAt(line, j + SpaceRun(line, j)) == Some(ParseDecimal(d))
  {
    assert line[j + |ws|] == d[0];
    SpaceRunOfBlock(line, j, ws);
    PercentAtBlock(line, j + |ws|, d);
  }

  /**
   * A line carrying `Sampling:`, the whitespace `ws` and `<d>%` at `i`, where
   * the Sampling pattern matches nowhere earlier and the Fetching pattern
   * nowhere at all, reports `int(d)`.
   */
  lemma {:induction false} SamplingLine(line: string, i: nat, ws: string, d: string)
    requires IsBlank(ws) && |d| >= 1 && AllDigits(d)
    requires OccursAt(line, "Sampling:", i) && OccursAt(line, ws, i + 9)
    requires OccursAt(line, d, i + 9 + |ws|) && i + 9 + |ws| + |d| < |line|
    requires line[i + 9 + |ws| + |d|] == '%'
    requires forall j :: 0 <= j < i ==> MatchAt(Sampling, line, j) == None
    requires Search(Fetching, line, 0) == None
    ensures ExtractProgress(line) == Some(ProgressInfo(ParseDecimal(d), ProgressLabel(SamplingPrefix, ParseDecimal(d))))
  {
    SamplingMatchAt(line, i, ws, d);
    SearchFindsLeftmost(Sampling, line, i, ParseDecimal(d));
  }

  /** Any progress report needs a `%` on the line. */
  lemma {:induction false} ProgressNeedsPercent(line: string)
    requires '%' !in line
    ensures ExtractProgress(line) == None
  {
    forall k | 0 <= k <= |line| ensures PercentAt(line, k) == None {
      var n := DigitRun(line, k);
      if n > 0 && k + n < |line| {
        assert line[k + n] in line;
      }
    }
    forall p: Pattern, j | 0 <= j <= |line| ensures MatchAt(p, line, j) == None {
    }
  }

  /**
   * Without a `|` and a `█` on the line only the two named patterns can
   * report progress: a bare percentage is not a progress bar.
   */
  lemma {:induction false} GeneralNeedsBar(line: string)
    requires '|' !in line || '█' !in line
    ensures ExtractProgress(line).Some? ==> Contains(line, "Fetching ") || Contains(line, "Sampling:")
  {
    var f := Search(Fetching, line, 0);
    var s := Search(Sampling, line, 0);
    if f.Some? {
      assert OccursAt(line, "Fetching ", f.value.start);
    } else if s.Some? {
      assert OccursAt(line, "Sampling:", s.value.start);
    }
  }

  /**
   * The generic percentage is the first maximal digit run that a `%` follows:
   * the match never starts in the middle of a run.
   */
  lemma {:induction false} GeneralMatchStartsRun(line: string)
    ensures var g := Search(General, line, 0);
      g.Some? ==> g.value.start == 0 || !IsDigit(line[g.value.start - 1])
  {
    var g := Search(General, line, 0);
    if g.Some? && g.value.start > 0 {
      var k := g.value.start;
      assert PercentAt(line, k) == MatchAt(General, line, k);
      PercentAtExtends(line, k);
      assert PercentAt(line, k - 1) == MatchAt(General, line, k - 1) == None;
    }
  }

  /** A percent group preceded by a digit also matches one position earlier. */
  lemma {:induction false} PercentAtExtends(line: string, k: nat)
    requires 0 < k <= |line| && PercentAt(line, k).Some?
    ensures IsDigit(line[k - 1]) ==> PercentAt(line, k - 1).Some?
  {
    if IsDigit(line[k - 1]) {
      assert DigitRun(line, k - 1) == 1 + DigitRun(line, k);
    }
  }

  /**
   * A rendered bar with `<d>%` at `i`, a `|` and a `█`, where no earlier
   * position starts a `(\d+)%` match and neither named pattern matches,
   * reports `int(d)` under the generic label.
   */
  lemma {:induction false} GeneralBarLine(line: string, i: nat, d: string)
    requires |d| >= 1 && AllDigits(d)
    requires OccursAt(line, d, i) && i + |d| < |line| && line[i + |d|] == '%'
    requires forall j :: 0 <= j < i ==> MatchAt(General, line, j) == None
    requires '|' in line && '█' in line
    requires Search(Fetching, line, 0) == None && Search(Sampling, line, 0) == None
    ensures ExtractProgress(line) == Some(ProgressInfo(ParseDecimal(d), ProgressLabel(GeneralPrefix, ParseDecimal(d))))
  {
    PercentAtBlock(line, i, d);
    SearchFindsLeftmost(General, line, i, ParseDecimal(d));
  }

  // ---------------------------------------------------------------------------
  // Priority among the checks
  // ---------------------------------------------------------------------------

  /**
   * Each non-blank line yields the first signal that applies, in the order
   * completion, progress, warning, error, important log, and nothing when
   * none applies; warning, error and log payloads are the line itself.
   */
  lemma {:induction false} ClassifyPriority(line: string)
    ensures Classify(line) == Some(GenerationComplete) <==> IsGenerationComplete(line)
    ensures (Classify(line).Some? && Classify(line).value.ProgressDetected?) <==>
      !IsGenerationComplete(line) && ExtractProgress(line).Some?
    ensures Classify(line) == Some(WarningDetected(line)) <==>
      !IsGenerationComplete(line) && ExtractProgress(line).None? && IsWarning(line)
    ensures Classify(line) == Some(ErrorDetected(line)) <==>
      !IsGenerationComplete(line) && ExtractProgress(line).None? && !IsWarning(line) && IsError(line)
    ensures Classify(line) == Some(LogMessage(line)) <==>
      !IsGenerationComplete(line) && ExtractProgress(line).None? && !IsWarning(line) && !IsError(line) && IsImportantLog(line)
    ensures Classify(line).None? <==>
      !IsGenerationComplete(line) && ExtractProgress(line).None? && !IsWarning(line) && !IsError(line) && !IsImportantLog(line)
    ensures Classify(line).Some? && Classify(line).value.ProgressDetected? ==>
      var info := ExtractProgress(line).value;
      Classify(line).value == ProgressDetected(info.percentage, info.message)
  {
  }

  /**
   * A completion keyword wins over everything else on the line, including a
   * percentage and the `WARNING:` marker that the chatterbox logger prints.
   */
  lemma {:induction false} CompletionDominates(pre: string, post: string)
    ensures Classify(pre + "alignment_stream_analyzer" + post) == Some(GenerationComplete)
  {
    ContainsWithin(pre, "alignment_stream_analyzer", post);
  }

  /** The percentage is never clamped: any number printed after `Sampling:` is reported as is. */
  lemma {:induction false} ProgressUnclamped(n: nat)
    ensures ExtractProgress("Sampling: " + FormatDecimal(n) + "%") ==
      Some(ProgressInfo(n, ProgressLabel(SamplingPrefix, n)))
  {
    SamplingNumeral(FormatDecimal(n));
    ParseFormat(n);
  }

  /** `Sampling: <d>%` on its own reports `int(d)`. */
  lemma {:induction false} SamplingNumeral(d: string)
    requires |d| >= 1 && AllDigits(d)
    ensures ExtractProgress("Sampling: " + d + "%") ==
      Some(ProgressInfo(ParseDecimal(d), ProgressLabel(SamplingPrefix, ParseDecimal(d))))
  {
    var line := "Sampling: " + d + "%";
    assert OccursAt(line, "Sampling:", 0);
    assert OccursAt(line, " ", 9);
    assert OccursAt(line, d, 10);
    forall k | 0 <= k < |line| ensures line[k] != 'F' {
      if 10 <= k < 10 + |d| {
        assert line[k] == d[k - 10];
      }
    }
    MissingCharExcludes(line, "Fetching ", 'F');
    AbsentLiteral(Fetching, line);
    SamplingLine(line, 0, " ", d);
  }

  // ---------------------------------------------------------------------------
  // _analyze_output over a chunk of text
  // ---------------------------------------------------------------------------

  /** The signals of one line: none for a blank line, else at most the classified one. */
  function EventsOfLine(line: string): (r: seq<Event>)
    ensures |r| <= 1
  {
    if IsBlank(line) then []
    else match Classify(line)
      case Some(e) => [e]
      case None => []
  }

  /** The signals of a sequence of lines, in line order. */
  function EventsOfLines(lines: seq<string>): (r: seq<Event>)
    ensures |r| <= |lines|
  {
    if lines == [] then []
    else EventsOfLines(lines[..|lines| - 1]) + EventsOfLine(lines[|lines| - 1])
  }

  /** `_analyze_output(text)`: strip the chunk once, split it on newlines, classify each line. */
  function ChunkEvents(text: string): seq<Event> {
    EventsOfLines(Split(Strip(text), '\n'))
  }

  lemma {:induction false} AppendAssoc<T>(a: seq<T>, b: seq<T>, c: seq<T>)
    ensures (a + b) + c == a + (b + c)
  {
  }

  /** One more line adds its own signals at the end. */
  lemma {:induction false} EventsOfLinesSnoc(lines: seq<string>, i: nat)
    requires i < |lines|
    ensures EventsOfLines(lines[..i + 1]) == EventsOfLines(lines[..i]) + EventsOfLine(lines[i])
  {
    assert lines[..i + 1][..i] == lines[..i];
  }

  /** Signals of consecutive line blocks concatenate. */
  lemma {:induction false} EventsOfLinesAppend(a: seq<string>, b: seq<string>)
    ensures EventsOfLines(a + b) == EventsOfLines(a) + EventsOfLines(b)
    decreases |b|
  {
    if b == [] {
      assert a + b == a;
    } else {
      var b' := b[..|b| - 1];
      assert (a + b)[..|a + b| - 1] == a + b';
      EventsOfLinesAppend(a, b');
    }
  }

  /** Every signal comes from a non-blank line of the chunk that classifies to it. */
  lemma {:induction false} EventsHaveSource(lines: seq<string>, e: Event)
    requires e in EventsOfLines(lines)
    ensures exists l :: l in lines && !IsBlank(l) && Classify(l) == Some(e)
  {
    var last := lines[|lines| - 1];
    var init := lines[..|lines| - 1];
    if e in EventsOfLines(init) {
      EventsHaveSource(init, e);
      var l :| l in init && !IsBlank(l) && Classify(l) == Some(e);
      assert l in lines;
    } else {
      assert e in EventsOfLine(last);
      assert last in lines;
    }
  }

  /** A blank chunk produces no signal. */
  lemma {:induction false} BlankChunkSilent(text: string)
    requires IsBlank(text)
    ensures ChunkEvents(text) == []
  {
    assert Split([], '\n') == [[]];
    assert EventsOfLines([[]]) == EventsOfLines([]) + EventsOfLine([]);
  }

  /**
   * Lines joined with newlines, with no whitespace at either end of the
   * chunk, are analysed exactly line by line.
   */
  lemma {:induction false} ChunkOfLines(lines: seq<string>)
    requires |lines| >= 1 && forall l :: l in lines ==> '\n' !in l
    requires Trimmed(Join(lines, '\n'))
    ensures ChunkEvents(Join(lines, '\n')) == EventsOfLines(lines)
  {
    SplitJoin(lines, '\n');
    ChunkOfSplit(Join(lines, '\n'), lines);
  }

  /** A chunk without edge whitespace whose lines are `lines` is analysed line by line. */
  lemma {:induction false} ChunkOfSplit(text: string, lines: seq<string>)
    requires Trimmed(text) && Split(text, '\n') == lines
    ensures ChunkEvents(text) == EventsOfLines(lines)
  {
    StripTrimmed(text);
  }

  /** A chunk without edge whitespace is split as it stands. */
  lemma {:induction false} ChunkOfTrimmed(text: string)
    requires Trimmed(text)
    ensures ChunkEvents(text) == EventsOfLines(Split(text, '\n'))
  {
    StripTrimmed(text);
  }

  // ---------------------------------------------------------------------------
  // The capture object and the two process-wide stream slots
  // ---------------------------------------------------------------------------

  /** The interpreter's `sys.stdout` and `sys.stderr` slots. */
  class Sys {
    var stdout: object
    var stderr: object

    constructor(stdout: object, stderr: object)
      ensures this.stdout == stdout && this.stderr == stderr
    {
      this.stdout := stdout;
      this.stderr := stderr;
    }
  }

  /** ConsoleCapture: remembers the streams it found and the signals it emitted. */
  class ConsoleCapture {
    const sys: Sys
    const originalStdout: object
    const originalStderr: object
    var emitted: seq<Event>

    /** Records the streams in place at construction. */
    constructor(sys: Sys)
      ensures this.sys == sys
      ensures originalStdout == sys.stdout && originalStderr == sys.stderr
      ensures emitted == []
    {
      this.sys := sys;
      originalStdout := sys.stdout;
      originalStderr := sys.stderr;
      emitted := [];
    }

    /** `start_capture`: both slots point at the capture object. */
    method StartCapture()
      modifies sys
      ensures sys.stdout == this && sys.stderr == this
    {
      sys.stdout := this;
      sys.stderr := this;
    }

    /** `stop_capture`: both slots get back the streams recorded at construction. */
    method StopCapture()
      modifies sys
      ensures sys.stdout == originalStdout && sys.stderr == originalStderr
    {
      sys.stdout := originalStdout;
      sys.stderr := originalStderr;
    }

    /** `_analyze_output`: strips the chunk once, splits it on newlines and emits each line's signal. */
    method AnalyzeOutput(text: string)
      modifies this
      ensures emitted == old(emitted) + ChunkEvents(text)
    {
      var lines := Split(Strip(text), '\n');
      AnalyzeLines(lines);
    }

    /** The loop of `_analyze_output`: the lines' signals, in line order. */
    method AnalyzeLines(lines: seq<string>)
      modifies this
      ensures emitted == old(emitted) + EventsOfLines(lines)
    {
      var i := 0;
      while i < |lines|
        invariant 0 <= i <= |lines|
        invariant emitted == old(emitted) + EventsOfLines(lines[..i])
      {
        AnalyzeLine(lines[i]);
        EventsOfLinesSnoc(lines, i);
        AppendAssoc(old(emitted), EventsOfLines(lines[..i]), EventsOfLine(lines[i]));
        i := i + 1;
      }
      assert lines[..|lines|] == lines;
    }

    /** The body of the loop in `_analyze_output`: skip a blank line, else emit the first signal that applies. */
    method AnalyzeLine(line: string)
      modifies this
      ensures emitted == old(emitted) + EventsOfLine(line)
    {
      if IsBlank(line) {
        return;
      }
      if IsGenerationComplete(line) {
        emitted := emitted + [GenerationComplete];
        return;
      }
      var progress := ExtractProgress(line);
      if progress.Some? {
        emitted := emitted + [ProgressDetected(progress.value.percentage, progress.value.message)];
      } else if IsWarning(line) {
        emitted := emitted + [WarningDetected(line)];
      } else if IsError(line) {
        emitted := emitted + [ErrorDetected(line)];
      } else if IsImportantLog(line) {
        emitted := emitted + [LogMessage(line)];
      }
    }
  }
}
