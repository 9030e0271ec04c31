/**
 * The batch logic of `DocxToPdfZipApp` (src/docx_to_pdf_zip_app.py): the
 * validation in `start_conversion`, the collection loop of
 * `convert_and_zip_thread` that folds each finished conversion into the PDF
 * list, the report and the progress messages, the checks after that loop,
 * the packaging into the ZIP file, and the status `conversion_finished` shows.
 *
 * The environment is an oracle.  The form's fields are parameters.  The
 * order in which `as_completed` hands back the conversions is a sequence of
 * completions.  The cancel flag, which the UI thread may set at any moment,
 * is the index of the first check that sees it set: the checks before
 * completions 0..n-1 are steps 0..n-1, the check after the loop is step n,
 * and the check before writing PDF number idx into the ZIP is step n + idx.
 * Whether opening the ZIP file fails is another input.  The message queue
 * is a sequence the thread appends to.
 */
module App {
  import opened Options
  import Strings
  import Paths
  import Seqs
  import Converter
  import Report

  const ConversionTimeout := 600
  const MaxRetries := 5
  const MaxParallelAllowed := 16
  /** The import block that sets it imports nothing, so it is always true. */
  const HasWin32 := true

  /** The converter every worker builds. */
  const WorkerConverter := Converter.DocxConverter(MaxRetries, ConversionTimeout, HasWin32)

  // ---------------------------------------------------------------------
  // Messages from the worker thread to the UI

  datatype StatusKind = Info | Success | Error | Warning

  /** The data of a `"finished"` message. */
  datatype Payload = Succeeded(zipPath: string) | Failed(error: string)

  datatype Message =
    | Status(text: string, kind: StatusKind)
    | Progress(value: int)
    | Active(completed: nat, total: nat)
    | Finished(payload: Payload)

  // ---------------------------------------------------------------------
  // start_conversion

  /** Why `start_conversion` refused to start, in the order it checks. */
  datatype StartError = NoFiles | EmptyPassword | PasswordMismatch | NoDestination | BadWorkerCount

  /** The text of the dialog each refusal shows. */
  function StartWarning(e: StartError): string {
    match e
    case NoFiles => "Selecciona almenys un fitxer DOCX."
    case EmptyPassword => "Introdueix una contrasenya."
    case PasswordMismatch => "Les contrasenyes no coincideixen."
    case NoDestination => "Selecciona un dest\U{ED} per al ZIP."
    case BadWorkerCount => "N\U{FA}mero de fils entre 1 i 16."
  }

  /** The arguments the conversion thread is started with. */
  datatype Job = Job(docxFiles: seq<string>, password: string, zipPath: string, maxWorkers: int)

  datatype StartCheck = Refused(reason: StartError) | Accepted(job: Job)

  /** The worker count field holds an integer, as `int()` reads it, within 1..16. */
  predicate ValidWorkers(text: string) {
    var n := Strings.ParseInt(text);
    n.Some? && 1 <= n.value <= MaxParallelAllowed
  }

  /** Whether the password fields pass: not in use, or non-empty and confirmed. */
  predicate PasswordAccepted(usePassword: bool, password: string, confirmation: string) {
    usePassword ==> password != "" && password == confirmation
  }

  /** What `start_conversion` decides for a file list and the form's fields. */
  function ValidateStart(docxFiles: seq<string>, usePassword: bool, password: string, confirmation: string,
                         destination: string, workersText: string): (r: StartCheck)
    ensures r == Refused(NoFiles) <==> docxFiles == []
    ensures r == Refused(EmptyPassword) <==> docxFiles != [] && usePassword && password == ""
    ensures r == Refused(PasswordMismatch) <==>
              docxFiles != [] && usePassword && password != "" && password != confirmation
    ensures r == Refused(NoDestination) <==>
              docxFiles != [] && PasswordAccepted(usePassword, password, confirmation)
              && Strings.Strip(destination) == ""
    ensures r == Refused(BadWorkerCount) <==>
              docxFiles != [] && PasswordAccepted(usePassword, password, confirmation)
              && Strings.Strip(destination) != "" && !ValidWorkers(workersText)
    ensures r.Accepted? ==>
              && r.job.docxFiles == docxFiles
              && r.job.password == (if usePassword then password else "")
              && r.job.zipPath == Strings.Strip(destination) && r.job.zipPath != ""
              && 1 <= r.job.maxWorkers <= MaxParallelAllowed
              && Strings.ParseInt(workersText) == Some(r.job.maxWorkers)
  {
    if docxFiles == [] then Refused(NoFiles)
    else if usePassword && password == "" then Refused(EmptyPassword)
    else if usePassword && password != confirmation then Refused(PasswordMismatch)
    else if Strings.Strip(destination) == "" then Refused(NoDestination)
    else if !ValidWorkers(workersText) then Refused(BadWorkerCount)
    else Accepted(Job(docxFiles, if usePassword then password else "", Strings.Strip(destination),
                      Strings.ParseInt(workersText).value))
  }

  // ---------------------------------------------------------------------
  // The collection loop of convert_and_zip_thread

  /** What a worker's future yields: the converter's triple, or the exception it raised. */
  datatype TaskOutcome = Returned(result: Converter.FileResult) | Raised(message: string)

  /** A finished future and the input file it was submitted for. */
  datatype Completion = Completion(source: string, outcome: TaskOutcome)

  function Sources(cs: seq<Completion>): seq<string> {
    seq(|cs|, i requires 0 <= i < |cs| => cs[i].source)
  }

  /** One completion per submitted file: as many completions as files. */
  lemma SameSourcesSameCount(cs: seq<Completion>, files: seq<string>)
    requires multiset(Sources(cs)) == multiset(files)
    ensures |cs| == |files|
  {
    assert |Sources(cs)| == |multiset(Sources(cs))| == |multiset(files)| == |files|;
  }

  const CancelMessage := "Conversi\U{F3} " + CancelledMarker + " per l'usuari"
  const NoOutputMessage := "No s'ha pogut convertir cap fitxer."
  const UnknownError := "Error desconegut"

  /** The text of the `"finished"` message for an exception other than a cancellation. */
  function WrapError(message: string): string {
    "Error durant la conversi\U{F3}: " + message
  }

  /** `int(completed / total * 80)`, computed exactly. */
  function ConversionProgress(completed: nat, total: nat): int
    requires total > 0
  {
    completed * 80 / total
  }

  /** `int(85 + idx / count * 15)`, computed exactly. */
  function PackagingProgress(idx: nat, count: nat): int
    requires count > 0
  {
    85 + idx * 15 / count
  }

  /** The status after a conversion that produced a PDF, naming the attempts when there were several. */
  function ConvertedText(name: string, attempts: int): string {
    "\U{2713} Convertit: " + name + (if attempts > 1 then " (" + Strings.IntToString(attempts) + " intents)" else "")
  }

  /** `error or "Error desconegut"`. */
  function FailureText(error: Option<string>): string {
    if error.Some? && error.value != "" then error.value else UnknownError
  }

  /** What the collection loop has gathered: the PDFs, the report's three lists, and the messages sent. */
  datatype Tally = Tally(pdfFiles: seq<Paths.PdfPath>, successes: seq<string>, failures: seq<Report.Failure>,
                         retries: seq<Report.Retry>, messages: seq<Message>)

  const NoTally := Tally([], [], [], [], [])

  function Plus(a: Tally, b: Tally): Tally {
    Tally(a.pdfFiles + b.pdfFiles, a.successes + b.successes, a.failures + b.failures,
          a.retries + b.retries, a.messages + b.messages)
  }

  /** What one pass of the loop body adds when it consumes `c` as the `completed`-th of `total` conversions. */
  function Entry(c: Completion, completed: nat, total: nat): (d: Tally)
    requires total > 0
    ensures |d.successes| + |d.failures| == 1
    ensures |d.pdfFiles| == |d.successes| && |d.retries| <= |d.successes|
    ensures |d.messages| == 3
  {
    var name := Paths.BaseName(c.source);
    var progress := [Progress(ConversionProgress(completed, total)), Active(completed, total)];
    match c.outcome
    case Returned(r) =>
      if r.pdfPath.Some? then
        Tally([r.pdfPath.value], [name], [],
              if r.attempts > 1 then [Report.Retry(name, r.attempts)] else [],
              [Status(ConvertedText(name, r.attempts), Success)] + progress)
      else
        Tally([], [], [Report.Failure(name, FailureText(r.error))], [],
              [Status("\U{2717} Error final: " + name, Error)] + progress)
    case Raised(message) =>
      Tally([], [], [Report.Failure(name, message)], [],
            [Status("\U{2717} Excepci\U{F3}: " + name + " - " + message, Error)] + progress)
  }

  /** The loop folded over completions `cs`, the counter starting at `base`. */
  function Collect(cs: seq<Completion>, base: nat, total: nat): Tally
    requires cs == [] || total > 0
  {
    if cs == [] then NoTally
    else Plus(Collect(cs[..|cs| - 1], base, total), Entry(cs[|cs| - 1], base + |cs|, total))
  }

  lemma Regroup<T>(a: seq<T>, b: seq<T>, c: seq<T>, d: seq<T>, e: seq<T>)
    ensures a + b + c + d + e == a + (b + c + d + e)
  {
  }

  lemma PlusAssoc(a: Tally, b: Tally, c: Tally)
    ensures Plus(Plus(a, b), c) == Plus(a, Plus(b, c))
  {
  }

  /** Consuming one more completion extends the fold by that completion's entry. */
  lemma CollectStep(cs: seq<Completion>, i: nat, base: nat, total: nat)
    requires i < |cs| && total > 0
    ensures Collect(cs[..i + 1], base, total) == Plus(Collect(cs[..i], base, total), Entry(cs[i], base + i + 1, total))
  {
    assert cs[..i + 1][..i] == cs[..i];
  }

  // Independent descriptions of each list: the completions that contribute to it.

  function PdfOf(c: Completion): Option<Paths.PdfPath> {
    if c.outcome.Returned? && c.outcome.result.pdfPath.Some? then c.outcome.result.pdfPath else None
  }

  function SuccessOf(c: Completion): Option<string> {
    if PdfOf(c).Some? then Some(Paths.BaseName(c.source)) else None
  }

  function FailureOf(c: Completion): Option<Report.Failure> {
    match c.outcome
    case Returned(r) => if r.pdfPath.None? then Some(Report.Failure(Paths.BaseName(c.source), FailureText(r.error))) else None
    case Raised(message) => Some(Report.Failure(Paths.BaseName(c.source), message))
  }

  function RetryOf(c: Completion): Option<Report.Retry> {
    if PdfOf(c).Some? && c.outcome.result.attempts > 1
    then Some(Report.Retry(Paths.BaseName(c.source), c.outcome.result.attempts))
    else None
  }

  // ---------------------------------------------------------------------
  // After the loop: the checks and the packaging

  /** Whether the cancel flag is seen set at check number `step`; once set it stays set. */
  predicate CancelSeen(cancelStep: Option<nat>, step: nat) {
    cancelStep.Some? && cancelStep.value <= step
  }

  /** How many of the `n` completions the loop consumes before it sees the flag. */
  function Consumed(n: nat, cancelStep: Option<nat>): (k: nat)
    ensures k <= n
    ensures k < n ==> cancelStep == Some(k)
    ensures forall step :: 0 <= step < k ==> !CancelSeen(cancelStep, step)
  {
    if cancelStep.Some? && cancelStep.value < n then cancelStep.value else n
  }

  /** How many of the `m` PDFs are written into the ZIP before the flag is seen, the loop having passed check `n`. */
  function Written(n: nat, m: nat, cancelStep: Option<nat>): (w: nat)
    requires !CancelSeen(cancelStep, n)
    ensures w <= m
    ensures w < m ==> cancelStep == Some(n + w + 1)
    ensures forall step :: n < step <= n + w ==> !CancelSeen(cancelStep, step)
  {
    if cancelStep.Some? && cancelStep.value <= n + m then cancelStep.value - n - 1 else m
  }

  /** The ZIP file as written: its path, the password when one was given, and the PDFs it holds, by file name. */
  datatype Archive = Archive(path: string, password: Option<string>, entries: seq<Paths.PdfPath>)

  function ArchivePassword(password: string): Option<string> {
    if password != "" then Some(password) else None
  }

  function StartStatus(job: Job): Message {
    Status("Convertint " + Strings.NatToString(|job.docxFiles|) + " fitxer(s) amb "
           + Strings.IntToString(job.maxWorkers) + " fils...", Info)
  }

  function ZipStatus(count: nat): Message {
    Status("Creant ZIP amb " + Strings.NatToString(count) + " PDF(s)...", Info)
  }

  /** The progress messages after writing PDFs 1..j of `count`. */
  function PackagingMessages(j: nat, count: nat): (ms: seq<Message>)
    requires count > 0
    ensures |ms| == j
  {
    if j == 0 then [] else PackagingMessages(j - 1, count) + [Progress(PackagingProgress(j, count))]
  }

  /** What happens after the collection loop when it was not cancelled. */
  datatype PackOutcome = PackOutcome(messages: seq<Message>, archive: Option<Archive>, payload: Payload)

  function Packaging(job: Job, pdfFiles: seq<Paths.PdfPath>, n: nat, cancelStep: Option<nat>,
                     zipError: Option<string>): (o: PackOutcome)
    ensures pdfFiles == [] ==> o.payload == Failed(WrapError(NoOutputMessage)) && o.archive == None
    ensures o.payload.Succeeded? ==> && o.payload.zipPath == job.zipPath
                                     && o.archive == Some(Archive(job.zipPath, ArchivePassword(job.password), pdfFiles))
    ensures o.archive.Some? ==> && o.archive.value.path == job.zipPath
                                && o.archive.value.password == ArchivePassword(job.password)
                                && |o.archive.value.entries| <= |pdfFiles|
                                && o.archive.value.entries == pdfFiles[..|o.archive.value.entries|]
    ensures o.payload.Failed? ==> || o.payload.error == WrapError(NoOutputMessage)
                                  || o.payload.error == CancelMessage
                                  || (zipError.Some? && o.payload.error == WrapError(zipError.value))
  {
    if pdfFiles == [] then PackOutcome([], None, Failed(WrapError(NoOutputMessage)))
    else if CancelSeen(cancelStep, n) then PackOutcome([], None, Failed(CancelMessage))
    else
      var m := |pdfFiles|;
      var opening := [ZipStatus(m), Progress(85)];
      if zipError.Some? then PackOutcome(opening, None, Failed(WrapError(zipError.value)))
      else
        var w := Written(n, m, cancelStep);
        var password := ArchivePassword(job.password);
        if w < m then
          PackOutcome(opening + PackagingMessages(w, m), Some(Archive(job.zipPath, password, pdfFiles[..w])),
                      Failed(CancelMessage))
        else
          PackOutcome(opening + PackagingMessages(m, m) + [Progress(100)],
                      Some(Archive(job.zipPath, password, pdfFiles)), Succeeded(job.zipPath))
  }

  /** The whole run of `convert_and_zip_thread`. */
  datatype Run = Run(consumed: nat, tally: Tally, messages: seq<Message>, archive: Option<Archive>, payload: Payload)

  function RunOf(job: Job, cs: seq<Completion>, base: nat, cancelStep: Option<nat>, zipError: Option<string>): (run: Run)
    requires |cs| == |job.docxFiles|
    ensures run.consumed <= |cs|
    ensures |run.messages| >= 2 && run.messages[0] == StartStatus(job)
    ensures run.messages[|run.messages| - 1] == Finished(run.payload)
    ensures run.payload.Succeeded? ==> run.consumed == |cs|
  {
    var n := |cs|;
    var k := Consumed(n, cancelStep);
    var t := Collect(cs[..k], base, n);
    var start := [StartStatus(job)];
    if k < n then
      Run(k, t, start + t.messages + [Finished(Failed(CancelMessage))], None, Failed(CancelMessage))
    else
      var o := Packaging(job, t.pdfFiles, n, cancelStep, zipError);
      Run(k, t, start + t.messages + o.messages + [Finished(o.payload)], o.archive, o.payload)
  }

  /** The parts of a run, case by case, for callers that build it step by step. */
  lemma RunOfParts(job: Job, cs: seq<Completion>, base: nat, cancelStep: Option<nat>, zipError: Option<string>)
    requires |cs| == |job.docxFiles|
    ensures var n := |cs|;
            var k := Consumed(n, cancelStep);
            var t := Collect(cs[..k], base, n);
            var run := RunOf(job, cs, base, cancelStep, zipError);
            && run.consumed == k && run.tally == t
            && (k < n ==> && run.archive == None && run.payload == Failed(CancelMessage)
                          && run.messages == [StartStatus(job)] + t.messages + [] + [Finished(run.payload)])
            && (k == n ==> var o := Packaging(job, t.pdfFiles, n, cancelStep, zipError);
                           && run.archive == o.archive && run.payload == o.payload
                           && run.messages == [StartStatus(job)] + t.messages + o.messages + [Finished(o.payload)])
  {
    assert [] + [Finished(Failed(CancelMessage))] == [Finished(Failed(CancelMessage))];
  }

  // ---------------------------------------------------------------------
  // conversion_finished

  datatype Dialog = NoDialog | ReportDialog(text: string, zipPath: string) | ErrorDialog(text: string)

  /** The status line, its colour and the dialog `conversion_finished` opens. */
  datatype FinishedView = FinishedView(status: string, kind: StatusKind, dialog: Dialog)

  const CancelledMarker := "cancel\U{B7}lada"

  /**
   * What `conversion_finished` shows for a `"finished"` message: on success
   * the full or partial status and the report dialog; on failure the error
   * status and, unless the message mentions the cancellation, an error dialog.
   */
  function FinishedViewOf(payload: Payload, summary: Report.Summary, reportText: string): (v: FinishedView)
    ensures v.kind == Error <==> payload.Failed?
    ensures payload.Succeeded? ==> v.dialog == ReportDialog(reportText, payload.zipPath)
    ensures payload.Failed? ==> v.status == "Error: " + payload.error && !v.dialog.ReportDialog?
  {
    match payload
    case Succeeded(zipPath) =>
      if summary.failed == 0 then
        FinishedView("\U{2705} Tots els " + Strings.NatToString(summary.total) + " fitxers convertits!", Success,
                     ReportDialog(reportText, zipPath))
      else
        FinishedView("\U{26A0}\U{FE0F} " + Strings.NatToString(summary.success) + "/"
                       + Strings.NatToString(summary.total) + " convertits", Warning,
                     ReportDialog(reportText, zipPath))
    case Failed(error) =>
      FinishedView("Error: " + error, Error,
                   if Strings.Contains(Strings.AsciiLower(error), CancelledMarker) then NoDialog
                   else ErrorDialog("Error durant la conversi\U{F3}:\n" + error))
  }

  // ---------------------------------------------------------------------
  // The application object

  class DocxToPdfZipApp {
    var docxFiles: seq<string>
    var isProcessing: bool
    var cancelFlag: bool
    var completedConversions: nat
    var report: Report.ConversionReport
    var messageQueue: seq<Message>

    /** The application's state after `__init__`, with the files the user picked. */
    constructor (files: seq<string>)
      ensures docxFiles == files && !isProcessing && !cancelFlag && completedConversions == 0
      ensures fresh(report) && report.State() == Report.ReportState(0, [], [], [], None, None)
      ensures messageQueue == []
    {
      docxFiles := files;
      isProcessing := false;
      cancelFlag := false;
      completedConversions := 0;
      report := new Report.ConversionReport();
      messageQueue := [];
    }

    /**
     * `start_conversion`: refuses with a warning, or resets the report and
     * the state and returns the job the conversion thread is started with.
     */
    method StartConversion(usePassword: bool, password: string, confirmation: string, destination: string,
                           workersText: string, now: real) returns (check: StartCheck)
      modifies this
      ensures check == ValidateStart(old(docxFiles), usePassword, password, confirmation, destination, workersText)
      ensures docxFiles == old(docxFiles) && messageQueue == old(messageQueue)
      ensures check.Refused? ==>
                && isProcessing == old(isProcessing) && cancelFlag == old(cancelFlag)
                && completedConversions == old(completedConversions) && report == old(report)
      ensures check.Accepted? ==>
                && fresh(report) && isProcessing && !cancelFlag && completedConversions == 0
                && report.State() == Report.ReportState(|docxFiles|, [], [], [], Some(now), None)
    {
      check := ValidateStart(docxFiles, usePassword, password, confirmation, destination, workersText);
      if check.Refused? {
        return;
      }
      var newReport := new Report.ConversionReport();
      newReport.totalFiles := |docxFiles|;
      newReport.startTime := Some(now);
      report := newReport;
      isProcessing := true;
      cancelFlag := false;
      completedConversions := 0;
    }

    /** `cancel_conversion`: once the user confirms, raises the flag and says so. */
    method CancelConversion(confirmed: bool)
      modifies this
      ensures cancelFlag == (old(cancelFlag) || confirmed)
      ensures messageQueue == old(messageQueue) + (if confirmed then [Status("Cancel\U{B7}lant...", Warning)] else [])
      ensures docxFiles == old(docxFiles) && isProcessing == old(isProcessing)
      ensures completedConversions == old(completedConversions) && report == old(report)
    {
      if confirmed {
        cancelFlag := true;
        messageQueue := messageQueue + [Status("Cancel\U{B7}lant...", Warning)];
      }
    }

    /** The app's `convert_single_file`: the worker's converter with the app's settings. */
    method ConvertSingleFile(docxFile: string, tempDir: string, inputIsFile: bool, tempDirExists: bool,
                             docx2pdfAvailable: bool, script: seq<Converter.AttemptScript>)
      returns (result: Converter.FileResult)
      requires MaxRetries <= |script|
      ensures result == WorkerConverter.Expected(docxFile, tempDir, inputIsFile, tempDirExists,
                                                 docx2pdfAvailable, script)
    {
      var sleeps;
      result, sleeps := WorkerConverter.ConvertSingleFile(docxFile, tempDir, inputIsFile, tempDirExists,
                                                          docx2pdfAvailable, script);
    }

    /** The body of the collection loop for one completion (after the cancel check). */
    method ConsumeCompletion(c: Completion, total: nat) returns (added: seq<Paths.PdfPath>)
      requires total > 0
      modifies this, report
      ensures var d := Entry(c, old(completedConversions) + 1, total);
              && added == d.pdfFiles
              && report.successfulConversions == old(report.successfulConversions) + d.successes
              && report.failedConversions == old(report.failedConversions) + d.failures
              && report.retriedFiles == old(report.retriedFiles) + d.retries
              && messageQueue == old(messageQueue) + d.messages
      ensures report == old(report) && report.totalFiles == old(report.totalFiles)
      ensures report.startTime == old(report.startTime) && report.endTime == old(report.endTime)
      ensures completedConversions == old(completedConversions) + 1
      ensures docxFiles == old(docxFiles) && isProcessing == old(isProcessing) && cancelFlag == old(cancelFlag)
    {
      var name := Paths.BaseName(c.source);
      added := [];
      match c.outcome {
        case Returned(r) =>
          if r.pdfPath.Some? {
            added := [r.pdfPath.value];
            report.AddSuccess(name);
            if r.attempts > 1 {
              report.AddRetry(name, r.attempts);
            }
            messageQueue := messageQueue + [Status(ConvertedText(name, r.attempts), Success)];
          } else {
            report.AddFailure(name, FailureText(r.error));
            messageQueue := messageQueue + [Status("\U{2717} Error final: " + name, Error)];
          }
        case Raised(message) =>
          report.AddFailure(name, message);
          messageQueue := messageQueue + [Status("\U{2717} Excepci\U{F3}: " + name + " - " + message, Error)];
      }
      completedConversions := completedConversions + 1;
      messageQueue := messageQueue + [Progress(ConversionProgress(completedConversions, total)),
                                      Active(completedConversions, total)];
    }

    /** The `as_completed` loop: consumes completions until the cancel flag is seen. */
    method CollectResults(completions: seq<Completion>, cancelStep: Option<nat>)
      returns (pdfFiles: seq<Paths.PdfPath>, cancelled: bool)
      modifies this, report
      ensures var n := |completions|;
              var k := Consumed(n, cancelStep);
              var t := Collect(completions[..k], old(completedConversions), n);
              && cancelled == (k < n)
              && pdfFiles == t.pdfFiles
              && report.successfulConversions == old(report.successfulConversions) + t.successes
              && report.failedConversions == old(report.failedConversions) + t.failures
              && report.retriedFiles == old(report.retriedFiles) + t.retries
              && messageQueue == old(messageQueue) + t.messages
              && completedConversions == old(completedConversions) + k
      ensures report == old(report) && report.totalFiles == old(report.totalFiles)
      ensures report.startTime == old(report.startTime) && report.endTime == old(report.endTime)
      ensures docxFiles == old(docxFiles) && isProcessing == old(isProcessing) && cancelFlag == old(cancelFlag)
    {
      var total := |completions|;
      ghost var base := completedConversions;
      ghost var t := NoTally;
      pdfFiles := [];
      var i := 0;
      while i < total
        invariant 0 <= i <= total
        invariant !CancelSeen(cancelStep, i) || cancelStep.value == i
        invariant i == 0 || !CancelSeen(cancelStep, i - 1)
        invariant t == Collect(completions[..i], base, total)
        invariant pdfFiles == t.pdfFiles
        invariant report.successfulConversions == old(report.successfulConversions) + t.successes
        invariant report.failedConversions == old(report.failedConversions) + t.failures
        invariant report.retriedFiles == old(report.retriedFiles) + t.retries
        invariant messageQueue == old(messageQueue) + t.messages
        invariant completedConversions == base + i
        invariant report == old(report) && report.totalFiles == old(report.totalFiles)
        invariant report.startTime == old(report.startTime) && report.endTime == old(report.endTime)
        invariant docxFiles == old(docxFiles) && isProcessing == old(isProcessing) && cancelFlag == old(cancelFlag)
      {
        if CancelSeen(cancelStep, i) {
          return pdfFiles, true;
        }
        ghost var d := Entry(completions[i], completedConversions + 1, total);
        assert d == Entry(completions[i], base + i + 1, total);
        var added := ConsumeCompletion(completions[i], total);
        pdfFiles := pdfFiles + added;
        CollectStep(completions, i, base, total);
        PlusAssoc(Tally([], old(report.successfulConversions), old(report.failedConversions),
                        old(report.retriedFiles), old(messageQueue)), t, d);
        t := Plus(t, d);
        i := i + 1;
      }
      assert completions[..total] == completions;
      cancelled := false;
    }

    /** After the loop: the empty-batch and cancel checks, then the ZIP with its progress. */
    method Package(job: Job, pdfFiles: seq<Paths.PdfPath>, n: nat, cancelStep: Option<nat>, zipError: Option<string>)
      returns (archive: Option<Archive>, payload: Payload)
      modifies this
      ensures var o := Packaging(job, pdfFiles, n, cancelStep, zipError);
              archive == o.archive && payload == o.payload && messageQueue == old(messageQueue) + o.messages
      ensures docxFiles == old(docxFiles) && isProcessing == old(isProcessing) && cancelFlag == old(cancelFlag)
      ensures completedConversions == old(completedConversions) && report == old(report)
    {
      if pdfFiles == [] {
        return None, Failed(WrapError(NoOutputMessage));
      }
      if CancelSeen(cancelStep, n) {
        return None, Failed(CancelMessage);
      }
      var m := |pdfFiles|;
      ghost var q0, opening := messageQueue, [ZipStatus(m), Progress(85)];
      messageQueue := messageQueue + [ZipStatus(m), Progress(85)];
      if zipError.Some? {
        return None, Failed(WrapError(zipError.value));
      }
      var password := ArchivePassword(job.password);
      ghost var w := Written(n, m, cancelStep);
      var entries, cancelled := WriteEntries(pdfFiles, n, cancelStep);
      if cancelled {
        Regroup(q0, opening, PackagingMessages(w, m), [], []);
        return Some(Archive(job.zipPath, password, entries)), Failed(CancelMessage);
      }
      assert entries == pdfFiles;
      messageQueue := messageQueue + [Progress(100)];
      Regroup(q0, opening, PackagingMessages(m, m), [Progress(100)], []);
      archive, payload := Some(Archive(job.zipPath, password, entries)), Succeeded(job.zipPath);
    }

    /** The loop that writes the PDFs into the open ZIP, checking the cancel flag before each one. */
    method WriteEntries(pdfFiles: seq<Paths.PdfPath>, n: nat, cancelStep: Option<nat>)
      returns (entries: seq<Paths.PdfPath>, cancelled: bool)
      requires pdfFiles != [] && !CancelSeen(cancelStep, n)
      modifies this
      ensures var m := |pdfFiles|;
              var w := Written(n, m, cancelStep);
              && entries == pdfFiles[..w] && cancelled == (w < m)
              && messageQueue == old(messageQueue) + PackagingMessages(w, m)
      ensures docxFiles == old(docxFiles) && isProcessing == old(isProcessing) && cancelFlag == old(cancelFlag)
      ensures completedConversions == old(completedConversions) && report == old(report)
    {
      var m := |pdfFiles|;
      entries := [];
      var idx := 1;
      while idx <= m
        invariant 1 <= idx <= m + 1
        invariant !CancelSeen(cancelStep, n + idx - 1)
        invariant entries == pdfFiles[..idx - 1]
        invariant messageQueue == old(messageQueue) + PackagingMessages(idx - 1, m)
        invariant docxFiles == old(docxFiles) && isProcessing == old(isProcessing) && cancelFlag == old(cancelFlag)
        invariant completedConversions == old(completedConversions) && report == old(report)
      {
        if CancelSeen(cancelStep, n + idx) {
          return entries, true;
        }
        entries := entries + [pdfFiles[idx - 1]];
        messageQueue := messageQueue + [Progress(PackagingProgress(idx, m))];
        assert pdfFiles[..idx] == pdfFiles[..idx - 1] + [pdfFiles[idx - 1]];
        idx := idx + 1;
      }
      assert entries == pdfFiles;
      cancelled := false;
    }

    /**
     * `convert_and_zip_thread`: announces the batch, collects the
     * completions, packages the PDFs, stamps the report's end time and
     * sends the `"finished"` message; returns the ZIP file it wrote, if any.
     */
    method ConvertAndZipThread(job: Job, completions: seq<Completion>, cancelStep: Option<nat>,
                               zipError: Option<string>, endTime: real)
      returns (archive: Option<Archive>)
      requires multiset(Sources(completions)) == multiset(job.docxFiles)
      modifies this, report
      ensures |completions| == |job.docxFiles|
      ensures var run := RunOf(job, completions, old(completedConversions), cancelStep, zipError);
              && archive == run.archive
              && messageQueue == old(messageQueue) + run.messages
              && report.successfulConversions == old(report.successfulConversions) + run.tally.successes
              && report.failedConversions == old(report.failedConversions) + run.tally.failures
              && report.retriedFiles == old(report.retriedFiles) + run.tally.retries
              && completedConversions == old(completedConversions) + run.consumed
      ensures report == old(report) && report.totalFiles == old(report.totalFiles)
      ensures report.startTime == old(report.startTime) && report.endTime == Some(endTime)
      ensures docxFiles == old(docxFiles) && isProcessing == old(isProcessing) && cancelFlag == old(cancelFlag)
    {
      SameSourcesSameCount(completions, job.docxFiles);
      ghost var q0, n := messageQueue, |completions|;
      ghost var t := Collect(completions[..Consumed(n, cancelStep)], completedConversions, n);
      RunOfParts(job, completions, completedConversions, cancelStep, zipError);
      messageQueue := messageQueue + [StartStatus(job)];
      var pdfFiles, cancelled := CollectResults(completions, cancelStep);
      if cancelled {
        archive := None;
        report.endTime := Some(endTime);
        messageQueue := messageQueue + [Finished(Failed(CancelMessage))];
        Regroup(q0, [StartStatus(job)], t.messages, [], [Finished(Failed(CancelMessage))]);
      } else {
        var payload;
        archive, payload := Package(job, pdfFiles, |completions|, cancelStep, zipError);
        ghost var rest := Packaging(job, t.pdfFiles, n, cancelStep, zipError).messages;
        report.endTime := Some(endTime);
        messageQueue := messageQueue + [Finished(payload)];
        Regroup(q0, [StartStatus(job)], t.messages, rest, [Finished(payload)]);
      }
    }

    /** `conversion_finished`: leaves the processing state and shows the outcome. */
    method ConversionFinished(payload: Payload) returns (view: FinishedView)
      modifies this
      ensures view == FinishedViewOf(payload, report.GetSummary(), report.GenerateDetailedReport())
      ensures !isProcessing
      ensures docxFiles == old(docxFiles) && cancelFlag == old(cancelFlag) && report == old(report)
      ensures completedConversions == old(completedConversions) && messageQueue == old(messageQueue)
    {
      isProcessing := false;
      view := FinishedViewOf(payload, report.GetSummary(), report.GenerateDetailedReport());
    }
  }
}
