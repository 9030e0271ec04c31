/**
 * `DocxConverter` (src/docx_converter.py): converts one DOCX file to a PDF in
 * a temporary directory, making up to `max_retries` attempts with docx2pdf,
 * falling back to Word automation after a timeout or an empty output, and
 * backing off between attempts.
 *
 * The external world is an oracle: whether the input and the temporary
 * directory exist, whether docx2pdf could be imported, and, attempt by
 * attempt, what docx2pdf and Word did.  Each `time.sleep` is recorded as the
 * number of seconds asked for.
 */
module Converter {
  import opened Options
  import Strings
  import Paths

  /** What docx2pdf's `convert` did in one attempt, as the converter observes it. */
  datatype PrimaryRun =
    | Returned(outputExists: bool, outputSize: nat)  // came back within the timeout; the output file afterwards
    | TimedOut(message: string)                       // `fut.result(timeout=...)` raised a timeout
    | RaisedValueError(message: string)               // `convert` raised `ValueError`
    | RaisedOther(message: string)                    // `convert` raised any other exception

  /** What the Word automation did when asked to save the PDF. */
  datatype Win32Run =
    | Saved(outputExists: bool, outputSize: nat)  // the COM calls completed; the output file afterwards
    | ComFailed                                    // some COM call raised

  /** The external behaviour of one attempt: the docx2pdf run and, should it be tried, the fallback run. */
  datatype AttemptScript = AttemptScript(primary: PrimaryRun, fallback: Win32Run)

  /** The triple `(pdf_path, attempts, error)` that `convert_single_file` returns. */
  datatype FileResult = FileResult(pdfPath: Option<Paths.PdfPath>, attempts: int, error: Option<string>)

  /** How one attempt ended. */
  datatype AttemptResult = Converted | FailedWith(message: string)

  const EmptyOutputMessage := "PDF buit o inexistent despr\U{E9}s de docx2pdf"
  const MissingDocx2pdfMessage := "El m\U{F2}dul docx2pdf no est\U{E0} disponible."
  const BackoffCap := 15

  function InputMissingMessage(docxFile: string): string {
    "El fitxer " + docxFile + " no existeix o no \U{E9}s v\U{E0}lid."
  }

  function TempDirMissingMessage(tempDir: string): string {
    "El directori temporal " + tempDir + " no existeix."
  }

  /** `f"Fallo després de {max_retries} intents: {last_error}"`, where a missing error prints as `None`. */
  function ExhaustedMessage(maxRetries: int, lastError: Option<string>): string {
    "Fallo despr\U{E9}s de " + Strings.IntToString(maxRetries) + " intents: "
      + (if lastError.Some? then lastError.value else "None")
  }

  /** Seconds slept after failed attempt number `attempt`: `min(attempt * 3, 15)`. */
  function Backoff(attempt: int): (seconds: int)
    ensures seconds <= BackoffCap
    ensures attempt >= 1 ==> seconds >= 3
    ensures attempt <= 5 ==> seconds == 3 * attempt
    ensures attempt >= 5 ==> seconds == BackoffCap
  {
    if attempt * 3 < BackoffCap then attempt * 3 else BackoffCap
  }

  /** The sleeps after attempts 1, 2, ..., n, in order. */
  function Backoffs(n: nat): (r: seq<int>)
    ensures |r| == n
    ensures forall i :: 0 <= i < n ==> r[i] == Backoff(i + 1)
  {
    if n == 0 then [] else Backoffs(n - 1) + [Backoff(n)]
  }

  function Sum(s: seq<int>): int {
    if s == [] then 0 else Sum(s[..|s| - 1]) + s[|s| - 1]
  }

  /** The backoff grows by 3 seconds per attempt until it reaches the cap, so n sleeps never exceed 15n seconds. */
  lemma {:induction false} BackoffsTotal(n: nat)
    ensures Sum(Backoffs(n)) <= BackoffCap * n
  {
    if n > 0 {
      BackoffsTotal(n - 1);
      assert Backoffs(n)[..n - 1] == Backoffs(n - 1);
    }
  }

  /** One more attempt adds its own backoff to the total slept. */
  lemma BackoffsStep(n: nat)
    ensures Sum(Backoffs(n + 1)) == Sum(Backoffs(n)) + Backoff(n + 1)
  {
    assert Backoffs(n + 1)[..n] == Backoffs(n);
  }

  /** A docx2pdf run that came back with a non-empty output file: the only way the primary path succeeds. */
  predicate UsableOutput(p: PrimaryRun) {
    p.Returned? && p.outputExists && p.outputSize > 0
  }

  /** The failures caught by `except (FuturesTimeoutError, ValueError)`, the ones after which the fallback may run. */
  predicate FallbackEligible(p: PrimaryRun) {
    p.TimedOut? || p.RaisedValueError? || (p.Returned? && !UsableOutput(p))
  }

  /** `str(exc)` of the exception that ended a failed docx2pdf run. */
  function PrimaryError(p: PrimaryRun, docx2pdfAvailable: bool): string
    requires !docx2pdfAvailable || !UsableOutput(p)
  {
    if !docx2pdfAvailable then MissingDocx2pdfMessage
    else match p
      case Returned(_, _) => EmptyOutputMessage
      case TimedOut(m) => m
      case RaisedValueError(m) => m
      case RaisedOther(m) => m
  }

  /** The converter's configuration; the source never changes it after construction. */
  datatype DocxConverter = DocxConverter(maxRetries: int, timeout: int, hasWin32: bool) {

    /** `convert_with_win32`: true only when the fallback is available and left a non-empty PDF behind. */
    function ConvertWithWin32(run: Win32Run): (ok: bool)
      ensures !hasWin32 ==> !ok
      ensures ok <==> hasWin32 && run.Saved? && run.outputExists && run.outputSize > 0
    {
      if !hasWin32 then false
      else match run
        case Saved(present, size) => present && size > 0
        case ComFailed => false
    }

    /** Whether the fallback is tried in attempt number `attempt`. */
    predicate FallbackTried(p: PrimaryRun, attempt: int, docx2pdfAvailable: bool) {
      docx2pdfAvailable && FallbackEligible(p) && hasWin32 && attempt < maxRetries
    }

    /** How attempt number `attempt` ends, given what the external converters do in it. */
    function AttemptOutcome(a: AttemptScript, attempt: int, docx2pdfAvailable: bool): (r: AttemptResult)
      ensures r.Converted? <==>
                (docx2pdfAvailable && UsableOutput(a.primary))
                || (FallbackTried(a.primary, attempt, docx2pdfAvailable) && ConvertWithWin32(a.fallback))
      ensures r.FailedWith? ==> !docx2pdfAvailable || !UsableOutput(a.primary)
      ensures r.FailedWith? ==> r.message == PrimaryError(a.primary, docx2pdfAvailable)
    {
      if !docx2pdfAvailable then
        FailedWith(MissingDocx2pdfMessage)
      else if UsableOutput(a.primary) then
        Converted
      else if FallbackTried(a.primary, attempt, docx2pdfAvailable) && ConvertWithWin32(a.fallback) then
        Converted
      else
        FailedWith(PrimaryError(a.primary, docx2pdfAvailable))
    }

    /** How attempt number `attempt` of `script` ends. */
    function OutcomeAt(script: seq<AttemptScript>, attempt: int, docx2pdfAvailable: bool): AttemptResult
      requires 1 <= attempt <= |script|
    {
      AttemptOutcome(script[attempt - 1], attempt, docx2pdfAvailable)
    }

    /** The first attempt, counting from `from`, that converts the file, if any does. */
    function FirstSuccess(script: seq<AttemptScript>, docx2pdfAvailable: bool, from: int): (r: Option<int>)
      requires 1 <= from
      requires maxRetries <= |script|
      ensures r.Some? ==> && from <= r.value <= maxRetries
                          && OutcomeAt(script, r.value, docx2pdfAvailable).Converted?
                          && forall j :: from <= j < r.value ==>
                               OutcomeAt(script, j, docx2pdfAvailable).FailedWith?
      ensures r.None? ==> forall j :: from <= j <= maxRetries ==>
                            OutcomeAt(script, j, docx2pdfAvailable).FailedWith?
      decreases maxRetries - from
    {
      if from > maxRetries then None
      else if OutcomeAt(script, from, docx2pdfAvailable).Converted? then Some(from)
      else FirstSuccess(script, docx2pdfAvailable, from + 1)
    }

    /** The error of the last attempt made, `None` when no attempt was made. */
    function LastError(script: seq<AttemptScript>, docx2pdfAvailable: bool): (e: Option<string>)
      requires maxRetries <= |script|
      requires FirstSuccess(script, docx2pdfAvailable, 1).None?
      ensures e.Some? <==> maxRetries >= 1
    {
      if maxRetries >= 1 then Some(OutcomeAt(script, maxRetries, docx2pdfAvailable).message)
      else None
    }

    /** What `convert_single_file` returns, stated from the first converting attempt. */
    function Expected(docxFile: string, tempDir: string, inputIsFile: bool, tempDirExists: bool,
                      docx2pdfAvailable: bool, script: seq<AttemptScript>): (r: FileResult)
      requires maxRetries <= |script|
      ensures r.pdfPath.Some? <==> r.error.None?
      ensures r.pdfPath.Some? ==> && r.pdfPath == Some(Paths.OutputPath(docxFile, tempDir))
                                  && 1 <= r.attempts <= maxRetries
      ensures r.pdfPath.None? ==> r.attempts == (if inputIsFile && tempDirExists then maxRetries else 0)
    {
      if !inputIsFile then FileResult(None, 0, Some(InputMissingMessage(docxFile)))
      else if !tempDirExists then FileResult(None, 0, Some(TempDirMissingMessage(tempDir)))
      else match FirstSuccess(script, docx2pdfAvailable, 1)
        case Some(k) => FileResult(Some(Paths.OutputPath(docxFile, tempDir)), k, None)
        case None => FileResult(None, maxRetries, Some(ExhaustedMessage(maxRetries, LastError(script, docx2pdfAvailable))))
    }

    /** How many times `convert_single_file` sleeps. */
    function SleepCount(inputIsFile: bool, tempDirExists: bool, docx2pdfAvailable: bool,
                        script: seq<AttemptScript>): nat
      requires maxRetries <= |script|
    {
      if !inputIsFile || !tempDirExists then 0
      else match FirstSuccess(script, docx2pdfAvailable, 1)
        case Some(k) => k - 1
        case None => if maxRetries >= 1 then maxRetries - 1 else 0
    }

    /**
     * One pass of the `try` block of `convert_single_file`: docx2pdf, the check
     * of its output, and the fallback when the failure allows it.  Reports
     * whether a non-empty PDF was produced, and otherwise `str()` of the
     * exception that ended the attempt.
     */
    method TryAttempt(run: AttemptScript, attempt: int, docx2pdfAvailable: bool) returns (converted: bool, error: string)
      ensures converted == AttemptOutcome(run, attempt, docx2pdfAvailable).Converted?
      ensures !converted ==> error == AttemptOutcome(run, attempt, docx2pdfAvailable).message
    {
      error := "";
      if !docx2pdfAvailable {
        // RuntimeError, caught by the generic handler: no fallback
        return false, MissingDocx2pdfMessage;
      }
      var caught: bool;  // a timeout or a ValueError
      match run.primary {
        case Returned(present, size) =>
          if present && size > 0 {
            return true, error;
          }
          caught, error := true, EmptyOutputMessage;
        case TimedOut(m) =>
          caught, error := true, m;
        case RaisedValueError(m) =>
          caught, error := true, m;
        case RaisedOther(m) =>
          caught, error := false, m;
      }
      converted := false;
      if caught && hasWin32 && attempt < maxRetries {
        converted := ConvertWithWin32(run.fallback);
      }
    }

    /**
     * The retry loop of `convert_single_file` (attempts 1..max_retries, with a
     * backoff sleep after every failed attempt but the last): the attempt that
     * converted, or the error of the last attempt made, and the sleeps.
     */
    method RetryLoop(docx2pdfAvailable: bool, script: seq<AttemptScript>)
      returns (converted: Option<int>, lastError: Option<string>, sleeps: seq<int>)
      requires maxRetries <= |script|
      ensures converted == FirstSuccess(script, docx2pdfAvailable, 1)
      ensures converted.None? ==> lastError == LastError(script, docx2pdfAvailable)
      ensures sleeps == Backoffs(match converted
                                 case Some(k) => k - 1
                                 case None => if maxRetries >= 1 then maxRetries - 1 else 0)
    {
      converted, lastError, sleeps := None, None, [];
      var attempt := 1;
      while attempt <= maxRetries
        invariant 1 <= attempt <= (if maxRetries >= 1 then maxRetries + 1 else 1)
        invariant FirstSuccess(script, docx2pdfAvailable, attempt) == FirstSuccess(script, docx2pdfAvailable, 1)
        invariant lastError == if attempt == 1 then None else Some(OutcomeAt(script, attempt - 1, docx2pdfAvailable).message)
        invariant sleeps == Backoffs(if attempt <= maxRetries then attempt - 1 else if maxRetries >= 1 then maxRetries - 1 else 0)
        decreases maxRetries - attempt
      {
        var ok, error := TryAttempt(script[attempt - 1], attempt, docx2pdfAvailable);
        if ok {
          return Some(attempt), lastError, sleeps;
        }
        lastError := Some(error);
        if attempt < maxRetries {
          sleeps := sleeps + [Backoff(attempt)];
          assert sleeps == Backoffs(attempt);
        }
        attempt := attempt + 1;
      }
    }

    /**
     * `convert_single_file`: checks the input, then the temporary directory,
     * then runs the retry loop; returns the result triple and the backoffs
     * slept.  `script[k - 1]` says what happens in attempt k.
     */
    method ConvertSingleFile(docxFile: string, tempDir: string, inputIsFile: bool, tempDirExists: bool,
                             docx2pdfAvailable: bool, script: seq<AttemptScript>)
      returns (result: FileResult, sleeps: seq<int>)
      requires maxRetries <= |script|
      ensures result == Expected(docxFile, tempDir, inputIsFile, tempDirExists, docx2pdfAvailable, script)
      ensures sleeps == Backoffs(SleepCount(inputIsFile, tempDirExists, docx2pdfAvailable, script))
    {
      var pdfPath := Paths.OutputPath(docxFile, tempDir);
      if !inputIsFile {
        return FileResult(None, 0, Some(InputMissingMessage(docxFile))), [];
      }
      if !tempDirExists {
        return FileResult(None, 0, Some(TempDirMissingMessage(tempDir))), [];
      }
      var converted, lastError;
      converted, lastError, sleeps := RetryLoop(docx2pdfAvailable, script);
      match converted
      case Some(attempt) =>
        result := FileResult(Some(pdfPath), attempt, None);
      case None =>
        result := FileResult(None, maxRetries, Some(ExhaustedMessage(maxRetries, lastError)));
    }
  }

  /** Either precondition failing ends the call before any attempt, the missing input taking precedence. */
  lemma PreconditionFailures(c: DocxConverter, docxFile: string, tempDir: string, inputIsFile: bool,
                             tempDirExists: bool, docx2pdfAvailable: bool, script: seq<AttemptScript>)
    requires c.maxRetries <= |script|
    requires !inputIsFile || !tempDirExists
    ensures var r := c.Expected(docxFile, tempDir, inputIsFile, tempDirExists, docx2pdfAvailable, script);
            && r.pdfPath == None && r.attempts == 0
            && r.error == Some(if !inputIsFile then InputMissingMessage(docxFile) else TempDirMissingMessage(tempDir))
    ensures c.SleepCount(inputIsFile, tempDirExists, docx2pdfAvailable, script) == 0
  {
  }

  /**
   * A success carries the output path `temp_dir/stem.pdf`, no error, and an
   * attempt number in 1..max_retries at which the attempt converted while
   * every earlier attempt failed; it slept once after each earlier attempt.
   */
  lemma SuccessShape(c: DocxConverter, docxFile: string, tempDir: string, inputIsFile: bool,
                     tempDirExists: bool, docx2pdfAvailable: bool, script: seq<AttemptScript>)
    requires c.maxRetries <= |script|
    requires c.Expected(docxFile, tempDir, inputIsFile, tempDirExists, docx2pdfAvailable, script).pdfPath.Some?
    ensures var r := c.Expected(docxFile, tempDir, inputIsFile, tempDirExists, docx2pdfAvailable, script);
            && inputIsFile && tempDirExists
            && r.pdfPath == Some(Paths.OutputPath(docxFile, tempDir)) && r.error == None
            && 1 <= r.attempts <= c.maxRetries
            && c.OutcomeAt(script, r.attempts, docx2pdfAvailable).Converted?
            && (forall j :: 1 <= j < r.attempts ==> c.OutcomeAt(script, j, docx2pdfAvailable).FailedWith?)
            && c.SleepCount(inputIsFile, tempDirExists, docx2pdfAvailable, script) == r.attempts - 1
  {
  }

  /**
   * Once both preconditions hold, a failure means every attempt failed: it
   * reports `max_retries` attempts, the error of the final attempt, and
   * `max_retries - 1` sleeps.
   */
  lemma ExhaustionShape(c: DocxConverter, docxFile: string, tempDir: string,
                        docx2pdfAvailable: bool, script: seq<AttemptScript>)
    requires 1 <= c.maxRetries <= |script|
    requires c.Expected(docxFile, tempDir, true, true, docx2pdfAvailable, script).pdfPath.None?
    ensures var r := c.Expected(docxFile, tempDir, true, true, docx2pdfAvailable, script);
            var last := c.OutcomeAt(script, c.maxRetries, docx2pdfAvailable);
            && r.attempts == c.maxRetries
            && (forall j :: 1 <= j <= c.maxRetries ==> c.OutcomeAt(script, j, docx2pdfAvailable).FailedWith?)
            && last.FailedWith?
            && r.error == Some(ExhaustedMessage(c.maxRetries, Some(last.message)))
            && c.SleepCount(true, true, docx2pdfAvailable, script) == c.maxRetries - 1
  {
  }

  /** The outcome record's invariant: an output path is present exactly when no error is. */
  lemma PathXorError(c: DocxConverter, docxFile: string, tempDir: string, inputIsFile: bool,
                     tempDirExists: bool, docx2pdfAvailable: bool, script: seq<AttemptScript>)
    requires c.maxRetries <= |script|
    ensures var r := c.Expected(docxFile, tempDir, inputIsFile, tempDirExists, docx2pdfAvailable, script);
            && (r.pdfPath.Some? <==> r.error.None?)
            && (r.pdfPath.Some? ==> r.attempts >= 1)
  {
  }

  /**
   * The fallback never rescues the final attempt, nor a run of docx2pdf that
   * raised anything but a timeout or `ValueError`: such an attempt converts
   * only if docx2pdf itself produced a non-empty PDF.
   */
  lemma FallbackGate(c: DocxConverter, a: AttemptScript, attempt: int, docx2pdfAvailable: bool)
    requires attempt >= c.maxRetries || a.primary.RaisedOther? || !c.hasWin32 || !docx2pdfAvailable
    ensures c.AttemptOutcome(a, attempt, docx2pdfAvailable).Converted? <==> docx2pdfAvailable && UsableOutput(a.primary)
  {
  }

  /**
   * Without docx2pdf every attempt raises `RuntimeError`, which skips the
   * fallback: the call exhausts its attempts whatever Word would have done.
   */
  lemma MissingDocx2pdfExhausts(c: DocxConverter, docxFile: string, tempDir: string,
                                                   script: seq<AttemptScript>)
    requires 1 <= c.maxRetries <= |script|
    ensures c.Expected(docxFile, tempDir, true, true, false, script)
            == FileResult(None, c.maxRetries, Some(ExhaustedMessage(c.maxRetries, Some(MissingDocx2pdfMessage))))
  {
  }

  /**
   * A primary converter that never produces a usable PDF, with no fallback,
   * uses up exactly `max_retries` attempts and reports the last attempt's error.
   */
  lemma NoFallbackExhausts(c: DocxConverter, docxFile: string, tempDir: string,
                                              script: seq<AttemptScript>)
    requires 1 <= c.maxRetries <= |script|
    requires !c.hasWin32
    requires forall j :: 0 <= j < c.maxRetries ==> !UsableOutput(script[j].primary)
    ensures var r := c.Expected(docxFile, tempDir, true, true, true, script);
            && r.pdfPath == None && r.attempts == c.maxRetries
            && r.error == Some(ExhaustedMessage(c.maxRetries, Some(PrimaryError(script[c.maxRetries - 1].primary, true))))
  {
  }

  /** With the fallback working, a primary converter that always times out succeeds at the first attempt that may fall back. */
  lemma FallbackRescuesTimeout(c: DocxConverter, docxFile: string, tempDir: string, script: seq<AttemptScript>)
    requires 2 <= c.maxRetries <= |script| && c.hasWin32
    requires script[0].primary.TimedOut?
    requires script[0].fallback.Saved? && script[0].fallback.outputExists && script[0].fallback.outputSize > 0
    ensures c.Expected(docxFile, tempDir, true, true, true, script) == FileResult(Some(Paths.OutputPath(docxFile, tempDir)), 1, None)
  {
    assert c.OutcomeAt(script, 1, true).Converted?;
  }
}
