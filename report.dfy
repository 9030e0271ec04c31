/**
 * `ConversionReport` (src/conversion_report.py): the append-only record of a
 * batch (converted names, failures with their errors, names resolved after
 * retries), its count summary, and the sectioned text report shown at the end.
 *
 * Times are reals; Python's float rounding of `end - start`, of the
 * percentages and of `// 60` / `% 60` is replaced by exact arithmetic.
 */
module Report {
  import opened Options
  import Strings
  import Arith

  /** An entry of `failed_conversions`: `(filename, error)`. */
  datatype Failure = Failure(filename: string, error: string)

  /** An entry of `retried_files`: `(filename, attempts)`. */
  datatype Retry = Retry(filename: string, attempts: int)

  /** The fields of a report at one moment. */
  datatype ReportState = ReportState(totalFiles: nat, successes: seq<string>, failures: seq<Failure>,
                                     retries: seq<Retry>, startTime: Option<real>, endTime: Option<real>)

  /** The dictionary `get_summary` returns. */
  datatype Summary = Summary(total: nat, success: nat, failed: nat, retried: nat, duration: real)

  /** Python truthiness of an `Optional[float]`: present and non-zero. */
  predicate Truthy(t: Option<real>) {
    t.Some? && t.value != 0.0
  }

  /** The summary's duration: `max(0, end - start)` when both times are truthy, else 0. */
  function Duration(startTime: Option<real>, endTime: Option<real>): (d: real)
    ensures d >= 0.0
    ensures !(Truthy(startTime) && Truthy(endTime)) ==> d == 0.0
    ensures Truthy(startTime) && Truthy(endTime) ==>
              d >= endTime.value - startTime.value && (d == 0.0 || d == endTime.value - startTime.value)
  {
    if Truthy(startTime) && Truthy(endTime) then
      var elapsed := endTime.value - startTime.value;
      if elapsed > 0.0 then elapsed else 0.0
    else 0.0
  }

  /** `get_summary` of a report in state `st`. */
  function Summarize(st: ReportState): (s: Summary)
    ensures s.total == st.totalFiles
    ensures s.success == |st.successes| && s.failed == |st.failures| && s.retried == |st.retries|
    ensures s.duration >= 0.0
    ensures !(Truthy(st.startTime) && Truthy(st.endTime)) ==> s.duration == 0.0
    ensures s.duration == Duration(st.startTime, st.endTime)
  {
    Summary(st.totalFiles, |st.successes|, |st.failures|, |st.retries|, Duration(st.startTime, st.endTime))
  }

  // ---------------------------------------------------------------------
  // Number formatting used by the report

  /** `num / den` rounded to an integer, ties to the even one, as `format(x, ".1f")` rounds. */
  function RoundHalfEven(num: nat, den: nat): (q: nat)
    requires den > 0
    ensures q == num / den || q == num / den + 1
  {
    var lo := num / den;
    var twice := 2 * (num % den);
    if twice < den then lo
    else if twice > den then lo + 1
    else if lo % 2 == 0 then lo else lo + 1
  }

  /** The rounded quotient is a nearest integer to `num / den`, and the even one on a tie. */
  lemma RoundHalfEvenNearest(num: nat, den: nat)
    requires den > 0
    ensures var q := RoundHalfEven(num, den);
            && (q * den <= num ==> 2 * (num - q * den) <= den)
            && (q * den > num ==> 2 * (q * den - num) <= den)
            && (2 * (num - (num / den) * den) == den ==> q % 2 == 0)
  {
    var lo, r := num / den, num % den;
    assert num == lo * den + r;
    assert (lo + 1) * den == lo * den + den;
  }

  /** A count of tenths as `{:.1f}` prints it: the integer part, a dot and one digit. */
  function FormatTenths(tenths: nat): string {
    Strings.NatToString(tenths / 10) + "." + [Strings.DigitChar(tenths % 10)]
  }

  /** `f"{(part / total) * 100:.1f}"`. */
  function Percent(part: nat, total: nat): string
    requires total > 0
  {
    FormatTenths(RoundHalfEven(part * 1000, total))
  }

  /** The denominator of the percentages and the total printed: `int(total) or 1`. */
  function GuardedTotal(total: nat): (t: nat)
    ensures t >= 1
    ensures total >= 1 ==> t == total
    ensures total == 0 ==> t == 1
  {
    if total == 0 then 1 else total
  }

  /** `int(duration // 60)` for a non-negative duration. */
  function Minutes(duration: real): int
    requires duration >= 0.0
  {
    (duration / 60.0).Floor
  }

  /** `int(duration % 60)` for a non-negative duration. */
  function Seconds(duration: real): int
    requires duration >= 0.0
  {
    (duration - (60 * Minutes(duration)) as real).Floor
  }

  /** The printed time splits the duration into whole minutes and the whole seconds left over. */
  lemma ClockShape(duration: real)
    requires duration >= 0.0
    ensures var m, s := Minutes(duration), Seconds(duration);
            && m >= 0 && 0 <= s < 60
            && (60 * m + s) as real <= duration < (60 * m + s + 1) as real
  {
  }

  // ---------------------------------------------------------------------
  // The lines of `generate_detailed_report`

  const Sep := Strings.Repeat('=', 72)
  const Sub := Strings.Repeat('-', 72)
  const Title := "INFORME DE CONVERSI\U{D3} DOCX \U{2192} PDF"
  const SummaryTitle := "\U{1F4CA} RESUM GENERAL"
  const RetriedTitle := "\U{1F504} FITXERS RESOLTS DESPR\U{C9}S DE REINTENTS"
  const NoRetryTitle := "\U{2713} FITXERS CONVERTITS SENSE REINTENTS"
  const FailuresTitle := "\U{2717} FITXERS AMB ERRORS NO RESOLTS"
  const NoRetryLimit := 10

  /** The three-way verdict at the end of the report. */
  datatype Verdict = FullSuccess | PartialSuccess | TotalFailure

  function VerdictOf(success: nat, failed: nat): (v: Verdict)
    ensures v == FullSuccess <==> failed == 0
    ensures v == PartialSuccess <==> failed > 0 && success > 0
    ensures v == TotalFailure <==> failed > 0 && success == 0
  {
    if failed == 0 then FullSuccess
    else if success > 0 then PartialSuccess
    else TotalFailure
  }

  function VerdictLine(v: Verdict): string {
    match v
    case FullSuccess => "\U{2705} CONVERSI\U{D3} COMPLETADA AMB \U{C8}XIT TOTAL"
    case PartialSuccess => "\U{26A0}\U{FE0F}  CONVERSI\U{D3} COMPLETADA AMB ALGUNS ERRORS"
    case TotalFailure => "\U{274C} NO S'HA POGUT CONVERTIR CAP FITXER"
  }

  const TotalLabel := "Total de fitxers processats:"
  const SuccessLabel := "\U{2713} Conversions exitoses:"
  const FailedLabel := "\U{2717} Conversions fallides:"
  const RetriedLabel := "\U{1F504} Fitxers amb reintents:"
  const TimeLabel := "\U{23F1}\U{FE0F}  Temps total:"

  /** A count and its share of the total, the caption padded to 35 columns. */
  function CountLine(caption: string, count: nat, total: nat): string
    requires total > 0
  {
    Strings.PadRight(caption, 35) + Strings.NatToString(count) + " (" + Percent(count, total) + "%)"
  }

  function TimeLine(duration: real): string
    requires duration >= 0.0
  {
    Strings.PadRight(TimeLabel, 35) + Strings.IntToString(Minutes(duration)) + "m "
      + Strings.IntToString(Seconds(duration)) + "s"
  }

  /** The general summary: twelve lines, the first a separator and the last empty. */
  function Head(st: ReportState): (lines: seq<string>)
    ensures |lines| == 12
  {
    var s := Summarize(st);
    var total := GuardedTotal(s.total);
    [ Sep, Title, Sep, "", SummaryTitle, Sub,
      Strings.PadRight(TotalLabel, 35) + " " + Strings.NatToString(total),
      CountLine(SuccessLabel, s.success, total),
      CountLine(FailedLabel, s.failed, total),
      Strings.PadRight(RetriedLabel, 35) + Strings.NatToString(s.retried),
      TimeLine(s.duration),
      "" ]
  }

  /** The two lines of one retried file: its name, then how many attempts it took. */
  function RetryEntry(r: Retry): seq<string> {
    ["  \U{2022} " + r.filename,
     "    \U{2514}\U{2500} Resolt despr\U{E9}s de " + Strings.IntToString(r.attempts) + " intent(s)"]
  }

  function RetryLines(retries: seq<Retry>): seq<string> {
    if retries == [] then [] else RetryLines(retries[..|retries| - 1]) + RetryEntry(retries[|retries| - 1])
  }

  function SuccessLines(names: seq<string>): seq<string> {
    if names == [] then [] else SuccessLines(names[..|names| - 1]) + ["  \U{2713} " + names[|names| - 1]]
  }

  /** The six lines of one failed file: its name, its error, the "Suggeriments:" header and three fixed suggestions. */
  function FailureEntry(f: Failure): seq<string> {
    ["  \U{2717} " + f.filename,
     "    \U{2514}\U{2500} Error: " + f.error,
     "    \U{2514}\U{2500} Suggeriments:",
     "       \U{2022} Verifica si el DOCX \U{E9}s corrupte",
     "       \U{2022} Comprova que MS Word estigui instal\U{B7}lat",
     "       \U{2022} Obre i desa de nou el DOCX"]
  }

  function FailureLines(failures: seq<Failure>): seq<string> {
    if failures == [] then [] else FailureLines(failures[..|failures| - 1]) + FailureEntry(failures[|failures| - 1])
  }

  function RetriedSection(retries: seq<Retry>): seq<string> {
    if retries == [] then [] else [RetriedTitle, Sub] + RetryLines(retries) + [""]
  }

  function NoRetrySection(successes: seq<string>, retries: seq<Retry>): seq<string> {
    if |successes| > 0 && retries == [] then
      var shown := if |successes| > NoRetryLimit then successes[..NoRetryLimit] else successes;
      var rest := if |successes| > NoRetryLimit
                  then ["  ... i " + Strings.NatToString(|successes| - NoRetryLimit) + " m\U{E9}s"]
                  else [];
      [NoRetryTitle, Sub] + SuccessLines(shown) + rest + [""]
    else []
  }

  function FailureSection(failures: seq<Failure>): seq<string> {
    if failures == [] then [] else [FailuresTitle, Sub] + FailureLines(failures) + [""]
  }

  function Footer(success: nat, failed: nat): seq<string> {
    [Sep, VerdictLine(VerdictOf(success, failed)), Sep]
  }

  /** The lines that `generate_detailed_report` joins with newlines. */
  function ReportLines(st: ReportState): seq<string> {
    Head(st) + RetriedSection(st.retries) + NoRetrySection(st.successes, st.retries)
      + FailureSection(st.failures) + Footer(|st.successes|, |st.failures|)
  }

  // ---------------------------------------------------------------------
  // Properties of the rendering

  /** Each retried file gets its two lines, in list order. */
  lemma RetryLinesShape(retries: seq<Retry>)
    ensures |RetryLines(retries)| == 2 * |retries|
    ensures forall i :: 0 <= i < |retries| ==>
              RetryLines(retries)[2 * i] == RetryEntry(retries[i])[0]
              && RetryLines(retries)[2 * i + 1] == RetryEntry(retries[i])[1]
  {
    RetryLinesLength(retries);
    forall i | 0 <= i < |retries|
      ensures RetryLines(retries)[2 * i] == RetryEntry(retries[i])[0]
              && RetryLines(retries)[2 * i + 1] == RetryEntry(retries[i])[1]
    {
      RetryLineAt(retries, i);
    }
  }

  lemma {:induction false} RetryLinesLength(retries: seq<Retry>)
    ensures |RetryLines(retries)| == 2 * |retries|
  {
    if retries != [] {
      RetryLinesLength(retries[..|retries| - 1]);
    }
  }

  lemma {:induction false} RetryLineAt(retries: seq<Retry>, i: int)
    requires 0 <= i < |retries|
    ensures |RetryLines(retries)| == 2 * |retries|
    ensures RetryLines(retries)[2 * i] == RetryEntry(retries[i])[0]
    ensures RetryLines(retries)[2 * i + 1] == RetryEntry(retries[i])[1]
  {
    var init := retries[..|retries| - 1];
    RetryLinesLength(init);
    RetryLinesLength(retries);
    if i < |init| {
      RetryLineAt(init, i);
      assert retries[i] == init[i];
    }
  }

  /** Each listed success gets one check-mark line with its name, in list order. */
  lemma {:induction false} SuccessLinesShape(names: seq<string>)
    ensures |SuccessLines(names)| == |names|
    ensures forall i :: 0 <= i < |names| ==> SuccessLines(names)[i] == "  \U{2713} " + names[i]
  {
    if names != [] {
      SuccessLinesShape(names[..|names| - 1]);
    }
  }

  /** Each failure gets its six lines, in list order. */
  lemma FailureLinesShape(failures: seq<Failure>)
    ensures |FailureLines(failures)| == 6 * |failures|
    ensures forall i, j {:trigger FailureEntry(failures[i])[j]} :: 0 <= i < |failures| && 0 <= j < 6 ==>
              FailureLines(failures)[6 * i + j] == FailureEntry(failures[i])[j]
  {
    FailureLinesLength(failures);
    forall i, j | 0 <= i < |failures| && 0 <= j < 6
      ensures FailureLines(failures)[6 * i + j] == FailureEntry(failures[i])[j]
    {
      FailureLineAt(failures, i, j);
    }
  }

  lemma {:induction false} FailureLinesLength(failures: seq<Failure>)
    ensures |FailureLines(failures)| == 6 * |failures|
  {
    if failures != [] {
      FailureLinesLength(failures[..|failures| - 1]);
    }
  }

  lemma {:induction false} FailureLineAt(failures: seq<Failure>, i: int, j: int)
    requires 0 <= i < |failures| && 0 <= j < 6
    ensures |FailureLines(failures)| == 6 * |failures|
    ensures FailureLines(failures)[6 * i + j] == FailureEntry(failures[i])[j]
  {
    var init := failures[..|failures| - 1];
    FailureLinesLength(init);
    FailureLinesLength(failures);
    if i < |init| {
      FailureLineAt(init, i, j);
      assert failures[i] == init[i];
    }
  }

  /**
   * The section of retried files is there exactly when something was retried,
   * and then holds a title, a rule, two lines per entry and a blank line.
   */
  lemma RetriedSectionPresence(retries: seq<Retry>)
    ensures RetriedSection(retries) != [] <==> retries != []
    ensures retries != [] ==> |RetriedSection(retries)| == 3 + 2 * |retries|
  {
    RetryLinesShape(retries);
  }

  /**
   * The section of files converted without retries is there exactly when
   * something converted and nothing was retried; it names the first ten
   * successes and adds "... i N més" for the N beyond them.
   */
  lemma NoRetrySectionShape(successes: seq<string>, retries: seq<Retry>)
    ensures NoRetrySection(successes, retries) != [] <==> |successes| > 0 && retries == []
    ensures var section := NoRetrySection(successes, retries);
            var listed := if |successes| > NoRetryLimit then NoRetryLimit else |successes|;
            section != [] ==>
              && |section| == 3 + listed + (if |successes| > NoRetryLimit then 1 else 0)
              && (forall i :: 0 <= i < listed ==> section[2 + i] == "  \U{2713} " + successes[i])
              && (|successes| > NoRetryLimit ==>
                    section[2 + listed]
                      == "  ... i " + Strings.NatToString(|successes| - NoRetryLimit) + " m\U{E9}s")
  {
    var listed := if |successes| > NoRetryLimit then NoRetryLimit else |successes|;
    var shown := if |successes| > NoRetryLimit then successes[..NoRetryLimit] else successes;
    SuccessLinesShape(shown);
    if |successes| > 0 && retries == [] {
      var section := NoRetrySection(successes, retries);
      forall i | 0 <= i < listed
        ensures section[2 + i] == "  \U{2713} " + successes[i]
      {
        assert section[2 + i] == SuccessLines(shown)[i];
      }
    }
  }

  /** The section of failures is there exactly when something failed: a title, a rule, six lines per failure, a blank line. */
  lemma FailureSectionPresence(failures: seq<Failure>)
    ensures FailureSection(failures) != [] <==> failures != []
    ensures failures != [] ==> |FailureSection(failures)| == 3 + 6 * |failures|
  {
    FailureLinesShape(failures);
  }

  /**
   * The whole report: it opens and closes with a 72-character rule of `=`,
   * the line before the last is the verdict, and its length is the sum of
   * the sections present.
   */
  lemma ReportFrame(st: ReportState)
    ensures var lines := ReportLines(st);
            && |lines| == 15 + |RetriedSection(st.retries)| + |NoRetrySection(st.successes, st.retries)|
                             + |FailureSection(st.failures)|
            && lines[0] == Sep && lines[|lines| - 1] == Sep
            && |Sep| == 72 && (forall i :: 0 <= i < 72 ==> Sep[i] == '=')
            && lines[|lines| - 2] == VerdictLine(VerdictOf(|st.successes|, |st.failures|))
  {
  }

  /** A report with no failures, the empty batch included, ends with the full-success verdict. */
  lemma NoFailuresFullSuccess(st: ReportState)
    requires st.failures == []
    ensures var lines := ReportLines(st);
            lines[|lines| - 2] == "\U{2705} CONVERSI\U{D3} COMPLETADA AMB \U{C8}XIT TOTAL"
  {
    ReportFrame(st);
  }

  /** The total printed is the guarded one: an empty report shows a total of 1 and both percentages as 0.0. */
  lemma EmptyReportTotals(st: ReportState)
    requires st.totalFiles == 0 && st.successes == [] && st.failures == []
    ensures ReportLines(st)[6] == Strings.PadRight(TotalLabel, 35) + " 1"
    ensures ReportLines(st)[7] == Strings.PadRight(SuccessLabel, 35) + "0 (0.0%)"
    ensures ReportLines(st)[8] == Strings.PadRight(FailedLabel, 35) + "0 (0.0%)"
  {
    EmptyHead(st);
    assert ReportLines(st)[..12] == Head(st);
  }

  lemma EmptyHead(st: ReportState)
    requires st.totalFiles == 0 && st.successes == [] && st.failures == []
    ensures Head(st)[6] == Strings.PadRight(TotalLabel, 35) + " 1"
    ensures Head(st)[7] == Strings.PadRight(SuccessLabel, 35) + "0 (0.0%)"
    ensures Head(st)[8] == Strings.PadRight(FailedLabel, 35) + "0 (0.0%)"
  {
    assert Strings.NatToString(1) == "1";
    ZeroCountLine(SuccessLabel);
    ZeroCountLine(FailedLabel);
  }

  lemma ZeroCountLine(caption: string)
    ensures CountLine(caption, 0, 1) == Strings.PadRight(caption, 35) + "0 (0.0%)"
  {
    assert Strings.NatToString(0) == "0";
    assert RoundHalfEven(0, 1) == 0;
    assert Percent(0, 1) == "0.0";
  }

  /** A part equal to the (non-zero) total prints as 100.0 percent. */
  lemma WholePercent(total: nat)
    requires total > 0
    ensures Percent(total, total) == "100.0"
  {
    Arith.MulDiv(1000, total);
    assert 1000 * total == total * 1000;
    assert RoundHalfEven(total * 1000, total) == 1000;
    assert Strings.NatToString(10) == "10";
    assert Strings.NatToString(100) == Strings.NatToString(10) + "0";
  }

  // ---------------------------------------------------------------------
  // The mutable report

  class ConversionReport {
    var totalFiles: nat
    var successfulConversions: seq<string>
    var failedConversions: seq<Failure>
    var retriedFiles: seq<Retry>
    var startTime: Option<real>
    var endTime: Option<real>

    /** The report's fields as a value. */
    function State(): ReportState
      reads this
    {
      ReportState(totalFiles, successfulConversions, failedConversions, retriedFiles, startTime, endTime)
    }

    /** A fresh report: no files, empty lists, no times. */
    constructor ()
      ensures State() == ReportState(0, [], [], [], None, None)
    {
      totalFiles := 0;
      successfulConversions := [];
      failedConversions := [];
      retriedFiles := [];
      startTime := None;
      endTime := None;
    }

    /** `add_success`: appends the name to the successes and changes nothing else. */
    method AddSuccess(filename: string)
      modifies this
      ensures State() == old(State()).(successes := old(successfulConversions) + [filename])
    {
      successfulConversions := successfulConversions + [filename];
    }

    /** `add_failure`: appends `(filename, error)` to the failures and changes nothing else. */
    method AddFailure(filename: string, error: string)
      modifies this
      ensures State() == old(State()).(failures := old(failedConversions) + [Failure(filename, error)])
    {
      failedConversions := failedConversions + [Failure(filename, error)];
    }

    /** `add_retry`: appends `(filename, attempts)` to the retried files and changes nothing else. */
    method AddRetry(filename: string, attempts: int)
      modifies this
      ensures State() == old(State()).(retries := old(retriedFiles) + [Retry(filename, attempts)])
    {
      retriedFiles := retriedFiles + [Retry(filename, attempts)];
    }

    /** `get_summary`: the counts are the list lengths, the duration is never negative. */
    function GetSummary(): (s: Summary)
      reads this
      ensures s.total == totalFiles
      ensures s.success == |successfulConversions| && s.failed == |failedConversions| && s.retried == |retriedFiles|
      ensures s.duration >= 0.0
      ensures !(Truthy(startTime) && Truthy(endTime)) ==> s.duration == 0.0
      ensures s.duration == Duration(startTime, endTime)
    {
      Summarize(State())
    }

    /**
     * `generate_detailed_report`: the report's lines joined by newlines.  The
     * text opens and closes with the rule of 72 `=`, and its last line but
     * one is the verdict.
     */
    function GenerateDetailedReport(): (text: string)
      reads this
      ensures Strings.IsPrefix(Sep, text)
      ensures Strings.IsSuffix(Sep, text)
      ensures var verdict := VerdictLine(VerdictOf(|successfulConversions|, |failedConversions|));
              Strings.IsSuffix("\n" + verdict + "\n" + Sep, text)
    {
      var lines := ReportLines(State());
      ReportFrame(State());
      Strings.JoinEnds(lines, "\n");
      Strings.Join(lines, "\n")
    }
  }
}
