# docxTopdf batch converter: a verified model

docxTopdf is a desktop tool that converts a batch of DOCX files to PDF and packs the PDFs
into a ZIP archive, which may be AES-encrypted. This project models its batch logic in Dafny
and proves properties of that model. It covers three parts of the program.

- **The per-file converter.** `DocxConverter` in `src/docx_converter.py` is modelled in
  `converter.dfy`, with `paths.dfy` for `Path.name` and `Path.stem`.
  - `convert_single_file` first checks that the input and the temporary directory exist.
  - It then makes up to `max_retries` attempts with docx2pdf and treats a missing or empty
    output as a failure.
  - After a timeout or a `ValueError` it may try the Word fallback, but never on the last
    attempt.
  - It sleeps `min(attempt * 3, 15)` seconds between attempts.
  - It returns the triple `(pdf_path, attempts, error)`.
  - The retry loop is a method with a `while` loop. It is proved against a declarative
    specification: the first attempt that converts the file.
- **The batch thread.** The logic of `DocxToPdfZipApp` in `src/docx_to_pdf_zip_app.py` is
  modelled in `app.dfy`, with its properties in `batch_facts.dfy`. It covers:
  - the input checks of `start_conversion`;
  - the collection loop of `convert_and_zip_thread`, which folds each finished conversion
    into the PDF list, the report and the progress messages;
  - the checks after that loop, the packaging into the ZIP file, and the status that
    `conversion_finished` shows.
  - The application is a class. Its methods update its fields and append to a message
    queue. Each method is proved against a function of its inputs.
- **The report.** `ConversionReport` in `src/conversion_report.py` is modelled in
  `report.dfy`. It is a class whose `add_*` methods append to its lists. `get_summary` and
  `generate_detailed_report` are functions of its state: the counts, then the rendered
  lines section by section.

**The outside world is an input.** Each of these is given, not computed:

- whether a file or directory exists;
- whether docx2pdf could be imported;
- what docx2pdf and Word did in each attempt (an `AttemptScript` per attempt);
- the order in which `as_completed` hands back the finished conversions (a sequence of
  completions);
- whether opening the ZIP file fails;
- the clock.

**The cancel flag.** The UI thread may set it at any time. It is modelled as the number of
the first check that sees it set. With `n` files, the checks are numbered as follows:

- the check before completion `i` is step `i`;
- the check after the collection loop is step `n`;
- the check before writing PDF number `idx` into the ZIP is step `n + idx`.

**Behaviour of the code worth noting:**

- The report prints the guarded total (`int(total) or 1`) on its "Total de fitxers
  processats" line, not only in the percentages (`src/conversion_report.py:38`, `:59`).
  So an empty report shows a total of 1.
- The verdict is "full success" whenever nothing failed, including a batch with no
  successes (`src/conversion_report.py:97-98`). "Total failure" needs at least one failure.
- The no-retry section also needs at least one success, not only the absence of retries
  (`src/conversion_report.py:74`).
- A batch that produced no PDF fails with the no-output error even when the cancel flag
  was raised after the collection loop. The emptiness check comes first
  (`src/docx_to_pdf_zip_app.py:495-499`).
- A cancel seen while the ZIP is being written leaves an archive holding the PDFs
  written so far (`src/docx_to_pdf_zip_app.py:521-524`). `CancelWhilePackaging` states this.
- Two inputs with the same file name in different folders get the same output path in
  the temporary directory (`src/docx_converter.py:80`). `SameNameSameOutput` states this.

## Model

| member | source | states |
|---|---|---|
| Converter.Backoff | src/docx_converter.py:140-141 | the sleep after attempt `a` is `min(3a, 15)`: exactly `3a` up to the fifth attempt, exactly 15 from the fifth on, so never above 15 and at least 3 for a real attempt |
| Converter.Backoffs | src/docx_converter.py:140-141 | the sleeps after `n` failed attempts are one per attempt, in order, each that attempt's backoff |
| Converter.BackoffsTotal | src/docx_converter.py:140-141 | `n` sleeps last at most `15n` seconds in all |
| Converter.BackoffsStep | src/docx_converter.py:140-141 | one more failed attempt adds exactly its own backoff to the total slept |
| Converter.DocxConverter.ConvertWithWin32 | src/docx_converter.py:53-73 | the fallback reports success if and only if win32 is available, the COM calls completed and the output exists with size above 0; without win32 it is always false |
| Converter.DocxConverter.AttemptOutcome | src/docx_converter.py:101-136 | an attempt converts if and only if docx2pdf is available and left a non-empty PDF, or the fallback was tried and succeeded; a failed attempt carries `str(exc)` of the exception that ended it, which is the missing-docx2pdf message when docx2pdf could not be imported |
| Converter.DocxConverter.FirstSuccess | src/docx_converter.py:93-136 | the result is the first attempt at or after `from`, up to `max_retries`, that converts, and every earlier one fails; when it is None, every attempt up to `max_retries` fails |
| Converter.DocxConverter.LastError | src/docx_converter.py:144-152 | after an exhausted loop there is a last error exactly when at least one attempt ran; with none it prints as `None` |
| Converter.DocxConverter.TryAttempt | src/docx_converter.py:101-136 | one pass of the `try` block converts exactly when the attempt's outcome is a conversion, and otherwise returns that outcome's error message |
| Converter.DocxConverter.RetryLoop | src/docx_converter.py:93-143 | the `for attempt` loop returns at the first converting attempt; when none converts, it ends with the last attempt's error; it sleeps the backoffs of attempts 1.. up to the one before the last attempt made |
| Converter.DocxConverter.ConvertSingleFile | src/docx_converter.py:75-152 | the returned triple and the sleeps are those of the declarative result: precondition failures, then first success or exhaustion |
| Converter.PreconditionFailures | src/docx_converter.py:84-91 | a missing input returns `(None, 0, "El fitxer ... no existeix...")` before the temporary directory is checked, and a missing temporary directory returns `(None, 0, "El directori temporal ...")`; neither sleeps |
| Converter.SuccessShape | src/docx_converter.py:80-116 | a success returns the PDF path `temp_dir / (stem + ".pdf")`, no error, and an attempt number in 1..max_retries whose attempt converted after every earlier one failed; it slept once per failed attempt |
| Converter.ExhaustionShape | src/docx_converter.py:144-152 | an exhausted run reports `max_retries` attempts and `"Fallo després de N intents: " + last_error`, where the last error is the final attempt's message; every attempt failed and it slept `max_retries - 1` times |
| Converter.DocxConverter.Expected | src/docx_converter.py:75-152 | the declarative result of `convert_single_file`: a path exactly when no error; a path is `temp_dir / (stem + ".pdf")`, found at an attempt in 1..max_retries; a failure reports `max_retries` attempts when both existence checks passed and 0 otherwise |
| Converter.PathXorError | src/docx_converter.py:75-152 | the result holds an output path exactly when it holds no error, and a path only after at least one attempt |
| Converter.FallbackGate | src/docx_converter.py:120-136 | on the last attempt, after an exception other than a timeout or `ValueError`, without win32, or without docx2pdf, an attempt converts only if docx2pdf itself produced a non-empty PDF |
| Converter.MissingDocx2pdfExhausts | src/docx_converter.py:103-136 | without docx2pdf every attempt fails with the missing-module message and the fallback never runs, so the result is exhaustion with that message |
| Converter.NoFallbackExhausts | src/docx_converter.py:120-152 | without win32, if docx2pdf never produces a usable PDF, the run ends exhausted with the last attempt's error |
| Converter.FallbackRescuesTimeout | src/docx_converter.py:120-132 | a first-attempt timeout followed by a fallback that saves a non-empty PDF succeeds at attempt 1 |
| Paths.OutputPathShape | src/docx_converter.py:80 | the output lies in the temporary directory and its name is the input's stem followed by `.pdf`, with no separator in it |
| Paths.SameNameSameOutput | src/docx_converter.py:80 | two inputs with the same file name in different folders are given the same output path |
| Paths.StemShape | src/docx_converter.py:80 | the stem is a prefix of the name; when shorter, it stops at the last dot, which is neither the first nor the last character |
| Paths.BaseNameShape | src/docx_to_pdf_zip_app.py:431 | `Path(src).name` is the whole last component: it contains no separator, it is a suffix of the path without its trailing separators, and the character before it, if any, is a separator |
| Strings.StripEmpty | src/docx_to_pdf_zip_app.py:351-352 | the destination strips to the empty string exactly when it is made only of white space |
| Strings.ParseIntToString | src/docx_to_pdf_zip_app.py:356 | the worker-count parser reads back every integer as it is printed |
| Strings.SeparatorBeforeDigits | src/docx_to_pdf_zip_app.py:350-356 | a digit run after U+001C strips to the digits, but the worker-count parser rejects it, as `int()` does |
| Report.ConversionReport.constructor | src/conversion_report.py:7-13 | a fresh report has no files, three empty lists and no times |
| Report.ConversionReport.AddSuccess | src/conversion_report.py:15-16 | appends the name to the successes and changes nothing else |
| Report.ConversionReport.AddFailure | src/conversion_report.py:18-19 | appends `(filename, error)` to the failures and changes nothing else |
| Report.ConversionReport.AddRetry | src/conversion_report.py:21-22 | appends `(filename, attempts)` to the retried files and changes nothing else |
| Report.ConversionReport.GetSummary | src/conversion_report.py:24-34 | the summary's total is `total_files`; success, failed and retried are the lengths of the three lists; the duration is `max(0, end - start)` when both times are truthy and 0 otherwise |
| Report.Summarize | src/conversion_report.py:24-34 | the same counts and the same duration, stated on the report's state as a value |
| Report.Duration | src/conversion_report.py:25-27 | the duration is 0 unless both times are truthy, and then it is `max(0, end - start)` |
| Report.GuardedTotal | src/conversion_report.py:38 | the percentage denominator is at least 1: the total itself when positive, and 1 for an empty report |
| Report.RoundHalfEven | src/conversion_report.py:46-47 | the rounded tenths of a percentage are the floor of the exact quotient or one more |
| Report.RoundHalfEvenNearest | src/conversion_report.py:46-47 | the rounded value is within half a unit of the exact quotient, and even on a tie |
| Report.ClockShape | src/conversion_report.py:43-44 | the printed minutes and seconds are whole, the seconds lie in 0..59, and together they are the duration rounded down to a second |
| Report.VerdictOf | src/conversion_report.py:96-102 | full success exactly when nothing failed; partial success exactly when something failed and something succeeded; total failure exactly when something failed and nothing succeeded |
| Report.Head | src/conversion_report.py:53-64 | the general summary is twelve lines |
| Report.RetryLinesShape | src/conversion_report.py:69-71 | the retried files take two lines each, in list order: the name, then the number of attempts |
| Report.RetryLineAt | src/conversion_report.py:69-71 | lines `2i` and `2i+1` are the two lines of retried file number `i` |
| Report.SuccessLinesShape | src/conversion_report.py:77-78 | one line per listed success, in order, each the check mark and the name |
| Report.FailureLinesShape | src/conversion_report.py:87-93 | the failures take six lines each, in list order: the name, the error, the "Suggeriments:" header and three fixed suggestions |
| Report.FailureLineAt | src/conversion_report.py:87-93 | line `6i + j` is line `j` of failure number `i` |
| Report.RetriedSectionPresence | src/conversion_report.py:66-72 | the retried section appears exactly when something was retried, with a title, a rule, two lines per entry and a blank line |
| Report.NoRetrySectionShape | src/conversion_report.py:74-82 | the no-retry section appears exactly when there are successes and no retries; it lists the first ten names in order and, beyond ten, one `... i N més` line with `N = successes - 10` |
| Report.FailureSectionPresence | src/conversion_report.py:84-94 | the failures section appears exactly when something failed, with six lines per failure |
| Report.ReportFrame | src/conversion_report.py:36-105 | the report is the summary, the three optional sections and the footer; it opens and closes with a line of 72 `=`, and the line before the last is the verdict |
| Report.ConversionReport.GenerateDetailedReport | src/conversion_report.py:36-105 | the text opens and closes with the rule of 72 `=`, and the line before the closing rule is the verdict for the report's current counts |
| Report.NoFailuresFullSuccess | src/conversion_report.py:97-98 | with no failures the verdict line is the full-success line |
| Report.EmptyReportTotals | src/conversion_report.py:38-61 | an empty report prints a total of 1 and `0 (0.0%)` for successes and failures, with no division by zero |
| Report.EmptyHead | src/conversion_report.py:38-61 | the same three summary lines, stated on the summary block |
| Report.ZeroCountLine | src/conversion_report.py:60-61 | a count of zero prints as `0 (0.0%)` |
| Report.WholePercent | src/conversion_report.py:46-47 | a count equal to the total prints as `100.0` percent |
| App.ValidateStart | src/docx_to_pdf_zip_app.py:335-362 | each refusal happens exactly when its check is the first to fail, in source order: no files, empty password, mismatched confirmation, blank destination, worker count not an integer in 1..16; an accepted start carries the files, the password (empty when unused), the stripped destination and the parsed worker count |
| App.DocxToPdfZipApp.constructor | src/docx_to_pdf_zip_app.py:80-87 | the initial state: not processing, flag down, no completions, a fresh report, an empty queue |
| App.DocxToPdfZipApp.StartConversion | src/docx_to_pdf_zip_app.py:335-381 | a refused start changes nothing; an accepted one installs a fresh report with `total_files = len(docx_files)` and the start time, sets processing, clears the flag and resets the counter |
| App.DocxToPdfZipApp.CancelConversion | src/docx_to_pdf_zip_app.py:383-388 | a confirmed cancel raises the flag and queues the "Cancel·lant..." status; an unconfirmed one changes nothing |
| App.DocxToPdfZipApp.ConvertSingleFile | src/docx_to_pdf_zip_app.py:390-396 | the app's worker converts with five attempts, a 600-second timeout and win32 enabled |
| App.SameSourcesSameCount | src/docx_to_pdf_zip_app.py:419-424 | one completion per submitted file: the completions are as many as the files |
| App.Entry | src/docx_to_pdf_zip_app.py:430-487 | one completion records exactly one success or one failure, a PDF only for a success, a retry entry only with a success, and three messages |
| App.Collect | src/docx_to_pdf_zip_app.py:424-487 | the state of the collection loop as the fold of App.Entry over the consumed completions; it has no contract of its own, and App.CollectStep, BatchFacts.CollectCounts and BatchFacts.CollectIsFiltered state what it gathers |
| App.CollectStep | src/docx_to_pdf_zip_app.py:424-487 | consuming one more completion adds exactly that completion's entry to what the loop has gathered |
| App.Consumed | src/docx_to_pdf_zip_app.py:424-428 | the loop consumes completions until the first check that sees the flag; fewer than all only when the flag is seen at that check |
| App.Written | src/docx_to_pdf_zip_app.py:521-524 | the ZIP loop writes PDFs until the first check that sees the flag; fewer than all only when the flag is seen just before the next write |
| App.Packaging | src/docx_to_pdf_zip_app.py:495-532 | without PDFs it fails with the no-output error and writes no archive; a success writes the archive at the chosen path, with the password and every PDF; any archive holds a prefix of the PDFs; a failure is the no-output error, the cancellation message or the error opening the ZIP |
| App.RunOf | src/docx_to_pdf_zip_app.py:398-543 | a run consumes at most all completions, queues the start status first and the finished message with its outcome last, and succeeds only after consuming every completion |
| App.FinishedViewOf | src/docx_to_pdf_zip_app.py:560-588 | the error colour exactly when the outcome failed; a success opens the report dialog with the report text and the ZIP path; a failure shows "Error: " and its message and never the report dialog |
| App.PackagingMessages | src/docx_to_pdf_zip_app.py:525-526 | one progress message per PDF written |
| App.DocxToPdfZipApp.ConsumeCompletion | src/docx_to_pdf_zip_app.py:430-487 | one completion appends its PDF, its report entries and its status, progress and counter messages, and advances the counter by one |
| App.DocxToPdfZipApp.CollectResults | src/docx_to_pdf_zip_app.py:424-487 | the loop consumes completions up to the first cancel check that sees the flag, and its state is the fold of the consumed completions |
| App.DocxToPdfZipApp.WriteEntries | src/docx_to_pdf_zip_app.py:519-526 | the ZIP holds the PDFs written before the flag was seen, in order, with one progress message each |
| App.DocxToPdfZipApp.Package | src/docx_to_pdf_zip_app.py:495-532 | the archive, the outcome and the messages after the loop are those of App.Packaging for the same inputs |
| App.DocxToPdfZipApp.ConvertAndZipThread | src/docx_to_pdf_zip_app.py:398-548 | the whole thread: the queued messages, the archive and the report's lists are those of App.RunOf for the same inputs, and the end time is set |
| App.DocxToPdfZipApp.ConversionFinished | src/docx_to_pdf_zip_app.py:560-588 | stops processing and shows the status and dialog of App.FinishedViewOf for the report's summary and text |
| BatchFacts.CollectCounts | src/docx_to_pdf_zip_app.py:434-479 | each consumed completion adds exactly one success or one failure: successes + failures equals the number consumed, there is one PDF per success, retries never outnumber successes, and there are three messages per completion |
| BatchFacts.CollectIsFiltered | src/docx_to_pdf_zip_app.py:434-468 | the PDFs, successes, failures and retries gathered are exactly those of the consumed completions, in completion order |
| BatchFacts.CompletionOrderIrrelevant | src/docx_to_pdf_zip_app.py:424 | the order of completion changes only the order of the gathered lists: the same PDFs, successes, failures and retries, the same counts and the same verdict |
| BatchFacts.RetriedMeansSeveralAttempts | src/docx_to_pdf_zip_app.py:435-439 | a file is recorded as retried, with its attempt count, if and only if it converted after more than one attempt |
| BatchFacts.FailedMeansNoPdf | src/docx_to_pdf_zip_app.py:454-468 | a failure is recorded if and only if a completion produced no PDF, with its error or "Error desconegut", or with the exception's text |
| BatchFacts.EntryProgress | src/docx_to_pdf_zip_app.py:479-487 | each completion queues exactly one progress value, `int(completed / total * 80)` |
| BatchFacts.CollectProgress | src/docx_to_pdf_zip_app.py:479-481 | the progress values of the collection loop are, in order, the values for 1, 2, ... completed files |
| BatchFacts.PackagingProgressValues | src/docx_to_pdf_zip_app.py:521-526 | the progress values while writing are, in order, `int(85 + idx / count * 15)` for each PDF written |
| BatchFacts.ConversionStepsShape | src/docx_to_pdf_zip_app.py:479-481 | the conversion progress never decreases and stays within 0..80 |
| BatchFacts.PackagingStepsShape | src/docx_to_pdf_zip_app.py:521-528 | the packaging progress never decreases, stays within 85..100, and reaches 100 on the last PDF |
| BatchFacts.ZipOpeningProgress | src/docx_to_pdf_zip_app.py:501-510 | opening the ZIP queues exactly one progress value, 85 |
| BatchFacts.OpenedProgress | src/docx_to_pdf_zip_app.py:501-526 | after the opening, the progress values are 85 followed by one value per PDF written |
| BatchFacts.OpenedShape | src/docx_to_pdf_zip_app.py:510-528 | 85, the writing values and the final 100 never decrease and stay within 85..100 |
| BatchFacts.WritingProgressShape | src/docx_to_pdf_zip_app.py:513-528 | once the ZIP is open, the packaging progress never decreases, stays within 85..100, and ends at 100 when every PDF was written |
| BatchFacts.PackagingProgressShape | src/docx_to_pdf_zip_app.py:495-528 | whatever happens after the loop, the packaging progress never decreases, stays within 85..100, and ends at 100 on success |
| BatchFacts.RunValues | src/docx_to_pdf_zip_app.py:398-532 | the progress values of a run are the conversion values of the consumed completions followed, when none was cut off, by the packaging values |
| BatchFacts.ProgressBetween | src/docx_to_pdf_zip_app.py:406-532 | the start status and the finished message carry no progress value |
| BatchFacts.RunProgress | src/docx_to_pdf_zip_app.py:398-532 | across a whole run the progress bar never goes back, stays within 0..100, and a successful run ends at 100 |
| BatchFacts.FullRunAccountsForEveryFile | src/docx_to_pdf_zip_app.py:424-479 | without a cancel every file is consumed and counted once, as a success or a failure |
| BatchFacts.RunAccountsForConsumed | src/docx_to_pdf_zip_app.py:424-479 | whatever the cancel flag does, at most all files are consumed, each consumed completion counts once as a success or a failure, and there is one PDF per success |
| BatchFacts.RunSucceeds | src/docx_to_pdf_zip_app.py:495-532 | a run succeeds if and only if some PDF was produced, the ZIP opened, and no cancel was seen up to the last write; the ZIP then holds every PDF, in completion order, at the chosen path, encrypted exactly when a password was given |
| BatchFacts.PackagingSucceeds | src/docx_to_pdf_zip_app.py:495-532 | packaging succeeds if and only if there are PDFs, the ZIP opens and no cancel is seen up to the last write; it then reports the ZIP path and holds all the PDFs |
| BatchFacts.CancelWhileCollecting | src/docx_to_pdf_zip_app.py:425-428 | a flag seen at completion `s` leaves that completion and the later ones unrecorded, writes no archive and ends with the cancellation message |
| BatchFacts.CancelWhilePackaging | src/docx_to_pdf_zip_app.py:521-523 | a flag seen during the ZIP loop leaves an archive with only the PDFs written before it, and ends with the cancellation message |
| BatchFacts.EmptyBatchFails | src/docx_to_pdf_zip_app.py:495-496 | a run that produced no PDF fails with "No s'ha pogut convertir cap fitxer." before packaging: no archive, no 85% step |
| BatchFacts.EmptyBatchRun | src/docx_to_pdf_zip_app.py:495-496 | such a run queues only the start status, the collection messages and the finished message |
| BatchFacts.CollectWithoutPdfs | src/docx_to_pdf_zip_app.py:434-466 | if no completion produced a PDF, the loop gathers no PDF |
| BatchFacts.CollectStaysBelowPackaging | src/docx_to_pdf_zip_app.py:479-481 | the collection loop never queues the 85% packaging step |
| BatchFacts.WorkerConverterBounds | src/docx_to_pdf_zip_app.py:390-396 | for an input file and a temporary directory that both exist, the workers' converter reports 1..5 attempts on success, and 5 attempts with the "Fallo després de 5 intents: " message on failure |
| BatchFacts.ExhaustedAfterFive | src/docx_converter.py:148-152 | the exhaustion message of a five-attempt converter is the fixed head followed by the last error |
| BatchFacts.WorkerSleepBound | src/docx_converter.py:140-142 | a worker sleeps at most 3 + 6 + 9 + 12 = 30 seconds for one file |
| BatchFacts.SleepsUpToFour | src/docx_converter.py:140-141 | up to four backoffs total at most 30 seconds |
| BatchFacts.FinishedOutcome | src/docx_to_pdf_zip_app.py:560-588 | a success shows the full-success status exactly when nothing failed and the partial one otherwise, with the report dialog; a failure shows "Error: " and its message, in the error colour, with either no dialog or the error dialog |
| BatchFacts.CancelShowsNoDialog | src/docx_to_pdf_zip_app.py:583-588 | the cancellation message contains "cancel·lada", so it opens no error dialog |
| BatchFacts.ErrorWithoutMarkerShowsDialog | src/docx_to_pdf_zip_app.py:583-588 | a failure message without a `·` cannot contain "cancel·lada" in any case, so it opens the error dialog |
| BatchFacts.NoOutputShowsDialog | src/docx_to_pdf_zip_app.py:583-588 | the no-output failure opens the error dialog |

## Left out

- The tkinter interface is not modelled: building the window, file and folder pickers,
  `clear_all`, the `update_*` helpers, the `process_queue` polling and the message boxes.
  The model keeps only the queued messages and the chosen status and dialog.
- `src/report_dialog.py` is not part of this model. It is a window that shows the report
  and can save it to a file.
- Threads, the thread pools, `as_completed`, the cancelling of futures and the timeout
  mechanism are not modelled. Completion order is an input sequence, a timeout is an
  outcome of an attempt, and the cancel flag is the number of the first check that sees it.
- docx2pdf, Word automation over COM, pyzipper, and the existence and size checks are
  foreign calls. What they answer is an input of the model.
- The temporary directory is a name given as an input. A failure of `tempfile.mkdtemp`
  (`src/docx_to_pdf_zip_app.py:403`) is not modelled: the program would then end with
  "Error durant la conversió: ..." before queuing its start status (`:537-543`).
- The clean-up is not modelled: removing the temporary directory with `shutil.rmtree` in
  the `finally` block (`src/docx_to_pdf_zip_app.py:545-547`) and `gc.collect`. It has no
  effect on the queued messages, the report or the archive.
- Converter.DocxConverter.ConvertSingleFile: removing a leftover PDF with `unlink` before
  each attempt (`src/docx_converter.py:95-99`) is left out. It is a file-system effect, and
  a failure there is only logged.
- `time.sleep` is recorded as the seconds asked for. `time.time` is a parameter.
  `gc.collect` and the psutil memory checks (`_check_memory_usage`) are left out: they
  are housekeeping with no effect on results.
- The `file_num` and `total_files` parameters of `convert_single_file` are left out. The
  code does not use them.
- The ZIP archive is modelled by its path, its password and its entries. Compression,
  AES encryption and a failure while writing an entry are left out. Of the ZIP errors,
  only a failure to open the file is modelled.
- Report.Percent: the percentage is computed exactly and rounded half to even at one
  decimal. Python formats the binary float `(success / total) * 100` instead, which can
  round differently at exact ties.
- App.ConversionProgress: `int(completed / total * 80)` is modelled as exact integer floor
  division. A float rounding error could make the program print one less.
- App.PackagingProgress: `int(85 + idx / count * 15)` is modelled in the same way.
- Report.Minutes: `duration // 60` and `% 60` are computed on exact reals, not on floats.
- Report.Seconds: the same approximation as Report.Minutes.
- The report and the status line print totals with the model's decimal printer. Python's
  `int()` and `str()` on the summary's floats give the same digits for the counts involved.
- App.ValidateStart: `int()` is modelled as ASCII digits with an optional sign, single
  underscores between digits, and the white space `int()` skips around them. That white space
  is `str.isspace()` without the ASCII separators U+001C..U+001F, which `strip()` removes but
  `int()` does not. Non-ASCII digits, which Python also accepts, are left out.
- App.FinishedViewOf: `error_msg.lower()` is modelled by ASCII lower-casing. The test for
  "cancel·lada" gives the same answer, because only ASCII capitals lower to that
  pattern's letters.
- The window's defaults (8 workers, password use on) are UI state, so they are left out.
- The standard-error redirection and the probing for optional modules are left out.
  `HAS_WIN32` in the application is always true, since its `try` block imports nothing
  (`src/docx_to_pdf_zip_app.py:39-43`).
- `Path` normalisation (collapsing repeated separators, drive letters) is left out.
  `Path.name` and `Path.stem` are modelled on the text of the path with `/` and `\` as
  separators.
