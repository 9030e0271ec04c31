/**
 * Properties of a batch run of `DocxToPdfZipApp`: what the collection loop
 * gathers, that it does not depend on the order in which the conversions
 * finish, the values the progress bar takes, how a run ends, and what
 * `conversion_finished` shows for it.
 */
module BatchFacts {
  import opened Options
  import Strings
  import Seqs
  import Arith
  import Converter
  import Report
  import opened App

  // ---------------------------------------------------------------------
  // The collection loop

  /**
   * Every completion consumed is counted once, as a success or as a failure;
   * each success contributes one PDF, a retry entry only comes with a
   * success, and each completion sends three messages.
   */
  lemma {:induction false} CollectCounts(cs: seq<Completion>, base: nat, total: nat)
    requires cs == [] || total > 0
    ensures var t := Collect(cs, base, total);
            && |t.successes| + |t.failures| == |cs|
            && |t.pdfFiles| == |t.successes|
            && |t.retries| <= |t.successes|
            && |t.messages| == 3 * |cs|
    decreases |cs|
  {
    if cs != [] {
      CollectCounts(cs[..|cs| - 1], base, total);
    }
  }

  /** Each list the loop builds is the completions that contribute to it, in the order they were consumed. */
  lemma {:induction false} CollectIsFiltered(cs: seq<Completion>, base: nat, total: nat)
    requires cs == [] || total > 0
    ensures var t := Collect(cs, base, total);
            && t.pdfFiles == Seqs.FilterMap(PdfOf, cs)
            && t.successes == Seqs.FilterMap(SuccessOf, cs)
            && t.failures == Seqs.FilterMap(FailureOf, cs)
            && t.retries == Seqs.FilterMap(RetryOf, cs)
    decreases |cs|
  {
    if cs != [] {
      CollectIsFiltered(cs[..|cs| - 1], base, total);
    }
  }

  /**
   * `as_completed` may hand back the conversions in any order: two orders of
   * the same completions give the same PDFs, successes, failures and
   * retries up to order, hence the same counts and the same verdict.
   */
  lemma CompletionOrderIrrelevant(cs1: seq<Completion>, cs2: seq<Completion>, base1: nat, base2: nat, total: nat)
    requires multiset(cs1) == multiset(cs2) && total > 0
    ensures var t1, t2 := Collect(cs1, base1, total), Collect(cs2, base2, total);
            && multiset(t1.pdfFiles) == multiset(t2.pdfFiles)
            && multiset(t1.successes) == multiset(t2.successes)
            && multiset(t1.failures) == multiset(t2.failures)
            && multiset(t1.retries) == multiset(t2.retries)
            && |t1.successes| == |t2.successes| && |t1.failures| == |t2.failures| && |t1.retries| == |t2.retries|
            && Report.VerdictOf(|t1.successes|, |t1.failures|) == Report.VerdictOf(|t2.successes|, |t2.failures|)
  {
    var t1, t2 := Collect(cs1, base1, total), Collect(cs2, base2, total);
    CollectIsFiltered(cs1, base1, total);
    CollectIsFiltered(cs2, base2, total);
    Seqs.FilterMapPermutation(PdfOf, cs1, cs2);
    Seqs.FilterMapPermutation(SuccessOf, cs1, cs2);
    Seqs.FilterMapPermutation(FailureOf, cs1, cs2);
    Seqs.FilterMapPermutation(RetryOf, cs1, cs2);
    assert |t1.successes| == |multiset(t1.successes)| == |multiset(t2.successes)| == |t2.successes|;
    assert |t1.failures| == |multiset(t1.failures)| == |multiset(t2.failures)| == |t2.failures|;
    assert |t1.retries| == |multiset(t1.retries)| == |multiset(t2.retries)| == |t2.retries|;
  }

  /** A file is listed as retried exactly when its conversion produced a PDF after more than one attempt. */
  lemma RetriedMeansSeveralAttempts(cs: seq<Completion>, base: nat, total: nat, name: string, attempts: int)
    requires cs == [] || total > 0
    ensures Report.Retry(name, attempts) in Collect(cs, base, total).retries <==>
              exists c :: c in cs && c.outcome.Returned? && c.outcome.result.pdfPath.Some?
                          && c.outcome.result.attempts == attempts && attempts > 1
                          && App.Paths.BaseName(c.source) == name
  {
    CollectIsFiltered(cs, base, total);
    Seqs.FilterMapMembers(RetryOf, cs, Report.Retry(name, attempts));
  }

  /** A file is listed as failed exactly when its conversion produced no PDF, with the error the loop records. */
  lemma FailedMeansNoPdf(cs: seq<Completion>, base: nat, total: nat, f: Report.Failure)
    requires cs == [] || total > 0
    ensures f in Collect(cs, base, total).failures <==>
              exists c :: c in cs && PdfOf(c).None? && FailureOf(c) == Some(f)
  {
    CollectIsFiltered(cs, base, total);
    Seqs.FilterMapMembers(FailureOf, cs, f);
  }

  // ---------------------------------------------------------------------
  // The progress bar

  function ProgressOf(m: Message): Option<int> {
    if m.Progress? then Some(m.value) else None
  }

  /** The values sent to the progress bar, in order. */
  function ProgressValues(ms: seq<Message>): seq<int> {
    Seqs.FilterMap(ProgressOf, ms)
  }

  /** The progress after each of `k` conversions consumed after the first `base`. */
  function ConversionSteps(base: nat, k: nat, total: nat): seq<int>
    requires k == 0 || total > 0
  {
    seq(k, i requires 0 <= i < k => ConversionProgress(base + i + 1, total))
  }

  /** The progress after writing each of the first `j` of `count` PDFs. */
  function PackagingSteps(j: nat, count: nat): seq<int>
    requires count > 0
  {
    seq(j, i requires 0 <= i < j => PackagingProgress(i + 1, count))
  }

  /** Each completion sends a status line, a progress value and the counter: only the middle one reaches the bar. */
  lemma EntryProgress(c: Completion, completed: nat, total: nat)
    requires total > 0
    ensures ProgressValues(Entry(c, completed, total).messages) == [ConversionProgress(completed, total)]
  {
    var ms := Entry(c, completed, total).messages;
    assert ms == [ms[0], Progress(ConversionProgress(completed, total)), Active(completed, total)] && ms[0].Status?;
    Seqs.FilterMapThree(ProgressOf, ms[0], ms[1], ms[2]);
  }

  lemma ConversionStepsSnoc(base: nat, k: nat, total: nat)
    requires total > 0
    ensures ConversionSteps(base, k + 1, total) == ConversionSteps(base, k, total) + [ConversionProgress(base + k + 1, total)]
  {
  }

  /** The collection loop sends one progress value per completion: the share of conversions done, scaled to 80. */
  lemma {:induction false} CollectProgress(cs: seq<Completion>, base: nat, total: nat)
    requires cs == [] || total > 0
    ensures ProgressValues(Collect(cs, base, total).messages) == ConversionSteps(base, |cs|, total)
    decreases |cs|
  {
    if cs != [] {
      var init := cs[..|cs| - 1];
      var e := Entry(cs[|cs| - 1], base + |cs|, total);
      calc {
        ProgressValues(Collect(cs, base, total).messages);
        ProgressValues(Collect(init, base, total).messages + e.messages);
        { Seqs.FilterMapAppend(ProgressOf, Collect(init, base, total).messages, e.messages); }
        ProgressValues(Collect(init, base, total).messages) + ProgressValues(e.messages);
        { CollectProgress(init, base, total); EntryProgress(cs[|cs| - 1], base + |cs|, total); }
        ConversionSteps(base, |init|, total) + [ConversionProgress(base + |cs|, total)];
        { ConversionStepsSnoc(base, |init|, total); }
        ConversionSteps(base, |cs|, total);
      }
    }
  }

  /** The packaging loop sends one progress value per PDF written. */
  lemma {:induction false} PackagingProgressValues(j: nat, count: nat)
    requires count > 0
    ensures ProgressValues(PackagingMessages(j, count)) == PackagingSteps(j, count)
    decreases j
  {
    if j > 0 {
      PackagingProgressValues(j - 1, count);
      Seqs.FilterMapAppend(ProgressOf, PackagingMessages(j - 1, count), [Progress(PackagingProgress(j, count))]);
      assert PackagingSteps(j, count) == PackagingSteps(j - 1, count) + [PackagingProgress(j, count)];
    }
  }

  /** During conversion the bar climbs, one value per completion, and never leaves 0..80. */
  lemma ConversionStepsShape(base: nat, k: nat, total: nat)
    requires total > 0 && base + k <= total
    ensures Seqs.ClimbsWithin(ConversionSteps(base, k, total), 0, 80)
  {
    var s := ConversionSteps(base, k, total);
    forall i, j | 0 <= i < j < |s|
      ensures s[i] <= s[j]
    {
      assert s[i] == ConversionProgress(base + i + 1, total) && s[j] == ConversionProgress(base + j + 1, total);
      Arith.DivMonotone((base + i + 1) * 80, (base + j + 1) * 80, total);
    }
    forall i | 0 <= i < |s|
      ensures 0 <= s[i] <= 80
    {
      assert s[i] == ConversionProgress(base + i + 1, total);
      Arith.DivBelow((base + i + 1) * 80, total, 80);
    }
  }

  /** While writing the ZIP the bar climbs from 85 and never passes 100, reaching it with the last PDF. */
  lemma PackagingStepsShape(j: nat, count: nat)
    requires 0 < count && j <= count
    ensures Seqs.ClimbsWithin(PackagingSteps(j, count), 85, 100)
    ensures j == count ==> PackagingSteps(j, count)[count - 1] == 100
  {
    var s := PackagingSteps(j, count);
    forall i, i' | 0 <= i < i' < |s|
      ensures s[i] <= s[i']
    {
      assert s[i] == PackagingProgress(i + 1, count) && s[i'] == PackagingProgress(i' + 1, count);
      Arith.DivMonotone((i + 1) * 15, (i' + 1) * 15, count);
    }
    forall i | 0 <= i < |s|
      ensures 85 <= s[i] <= 100
    {
      assert s[i] == PackagingProgress(i + 1, count);
      Arith.DivBelow((i + 1) * 15, count, 15);
    }
    if j == count {
      assert s[count - 1] == PackagingProgress(count, count);
      Arith.DivAtLeast(count * 15, count, 15);
    }
  }

  /** The opening of the ZIP stage: its status line, then the bar at 85. */
  lemma ZipOpeningProgress(m: nat)
    ensures ProgressValues([ZipStatus(m), Progress(85)]) == [85]
  {
    calc {
      ProgressValues([ZipStatus(m), Progress(85)]);
      { assert [ZipStatus(m), Progress(85)] == [ZipStatus(m)] + [Progress(85)]; }
      ProgressValues([ZipStatus(m)] + [Progress(85)]);
      { Seqs.FilterMapAppend(ProgressOf, [ZipStatus(m)], [Progress(85)]);
        Seqs.FilterMapSingle(ProgressOf, ZipStatus(m)); Seqs.FilterMapSingle(ProgressOf, Progress(85)); }
      [] + [85];
    }
  }

  /** The ZIP stage after `w` of `m` PDFs were written. */
  lemma OpenedProgress(w: nat, m: nat)
    requires 0 < m
    ensures ProgressValues([ZipStatus(m), Progress(85)] + PackagingMessages(w, m)) == [85] + PackagingSteps(w, m)
  {
    calc {
      ProgressValues([ZipStatus(m), Progress(85)] + PackagingMessages(w, m));
      { Seqs.FilterMapAppend(ProgressOf, [ZipStatus(m), Progress(85)], PackagingMessages(w, m)); }
      ProgressValues([ZipStatus(m), Progress(85)]) + ProgressValues(PackagingMessages(w, m));
      { ZipOpeningProgress(m); PackagingProgressValues(w, m); }
      [85] + PackagingSteps(w, m);
    }
  }

  /** The ZIP stage climbs within 85..100, with or without the final 100. */
  lemma OpenedShape(w: nat, m: nat)
    requires 0 < m && w <= m
    ensures Seqs.ClimbsWithin([85] + PackagingSteps(w, m), 85, 100)
    ensures Seqs.ClimbsWithin([85] + PackagingSteps(w, m) + [100], 85, 100)
  {
    PackagingStepsShape(w, m);
    Seqs.JoinClimbs([85], PackagingSteps(w, m), 85, 85, 85, 100);
    Seqs.JoinClimbs([85] + PackagingSteps(w, m), [100], 85, 100, 100, 100);
  }

  /**
   * After the collection loop the bar only shows values in 85..100, never
   * going back; a successful ZIP ends it at 100.
   */
  lemma PackagingProgressShape(job: Job, pdfFiles: seq<App.Paths.PdfPath>, n: nat, cancelStep: Option<nat>,
                               zipError: Option<string>)
    ensures var o := Packaging(job, pdfFiles, n, cancelStep, zipError);
            var ps := ProgressValues(o.messages);
            && Seqs.ClimbsWithin(ps, 85, 100)
            && (o.payload.Succeeded? ==> |ps| > 0 && ps[|ps| - 1] == 100)
  {
    if pdfFiles == [] || CancelSeen(cancelStep, n) {
      assert Packaging(job, pdfFiles, n, cancelStep, zipError).messages == [];
    } else if zipError.Some? {
      assert Packaging(job, pdfFiles, n, cancelStep, zipError).messages == [ZipStatus(|pdfFiles|), Progress(85)];
      ZipOpeningProgress(|pdfFiles|);
    } else {
      WritingProgressShape(job, pdfFiles, n, cancelStep);
    }
  }

  /** The ZIP opened: 85, one value per PDF written, and 100 when every PDF was written. */
  lemma WritingProgressShape(job: Job, pdfFiles: seq<App.Paths.PdfPath>, n: nat, cancelStep: Option<nat>)
    requires pdfFiles != [] && !CancelSeen(cancelStep, n)
    ensures var o := Packaging(job, pdfFiles, n, cancelStep, None);
            var ps := ProgressValues(o.messages);
            && Seqs.ClimbsWithin(ps, 85, 100)
            && (o.payload.Succeeded? ==> |ps| > 0 && ps[|ps| - 1] == 100)
  {
    var o := Packaging(job, pdfFiles, n, cancelStep, None);
    var m := |pdfFiles|;
    var opening := [ZipStatus(m), Progress(85)];
    var w := Written(n, m, cancelStep);
    OpenedProgress(w, m);
    OpenedShape(w, m);
    if w < m {
      assert o.messages == opening + PackagingMessages(w, m);
    } else {
      calc {
        ProgressValues(o.messages);
        ProgressValues(opening + PackagingMessages(m, m) + [Progress(100)]);
        { Seqs.FilterMapAppend(ProgressOf, opening + PackagingMessages(m, m), [Progress(100)]);
          Seqs.FilterMapSingle(ProgressOf, Progress(100)); }
        [85] + PackagingSteps(m, m) + [100];
      }
    }
  }

  /**
   * A run started from a reset counter sends a progress sequence that never
   * goes back and stays within 0..100; a run that ends with the ZIP written
   * ends the bar at 100.
   */
  lemma RunProgress(job: Job, cs: seq<Completion>, cancelStep: Option<nat>, zipError: Option<string>)
    requires |cs| == |job.docxFiles|
    ensures var run := RunOf(job, cs, 0, cancelStep, zipError);
            var ps := ProgressValues(run.messages);
            && Seqs.ClimbsWithin(ps, 0, 100)
            && (run.payload.Succeeded? ==> |ps| > 0 && ps[|ps| - 1] == 100)
  {
    var n := |cs|;
    var k := Consumed(n, cancelStep);
    var t := Collect(cs[..k], 0, n);
    var o := Packaging(job, t.pdfFiles, n, cancelStep, zipError);
    var rest := if k < n then [] else ProgressValues(o.messages);
    var conversion := ConversionSteps(0, k, n);
    RunValues(job, cs, cancelStep, zipError);
    assert Seqs.ClimbsWithin(conversion, 0, 80) by {
      if n > 0 {
        ConversionStepsShape(0, k, n);
      }
    }
    PackagingProgressShape(job, t.pdfFiles, n, cancelStep, zipError);
    Seqs.JoinClimbs(conversion, rest, 0, 80, 85, 100);
    if RunOf(job, cs, 0, cancelStep, zipError).payload.Succeeded? {
      assert (conversion + rest)[|conversion + rest| - 1] == rest[|rest| - 1];
    }
  }

  /** The run's progress values: those of the collection loop, then those of the ZIP stage if it was reached. */
  lemma RunValues(job: Job, cs: seq<Completion>, cancelStep: Option<nat>, zipError: Option<string>)
    requires |cs| == |job.docxFiles|
    ensures var run := RunOf(job, cs, 0, cancelStep, zipError);
            var n := |cs|;
            var k := Consumed(n, cancelStep);
            var o := Packaging(job, Collect(cs[..k], 0, n).pdfFiles, n, cancelStep, zipError);
            && ProgressValues(run.messages)
               == ConversionSteps(0, k, n) + (if k < n then [] else ProgressValues(o.messages))
            && (run.payload.Succeeded? ==> k == n && run.payload == o.payload)
  {
    var run := RunOf(job, cs, 0, cancelStep, zipError);
    var n := |cs|;
    var k := Consumed(n, cancelStep);
    var t := Collect(cs[..k], 0, n);
    var rest := if k < n then [] else Packaging(job, t.pdfFiles, n, cancelStep, zipError).messages;
    assert run.messages == [StartStatus(job)] + t.messages + rest + [Finished(run.payload)];
    ProgressBetween(StartStatus(job), t.messages, rest, Finished(run.payload));
    CollectProgress(cs[..k], 0, n);
  }

  /** The first and last messages of a run carry no progress. */
  lemma ProgressBetween(first: Message, middle: seq<Message>, rest: seq<Message>, last: Message)
    requires !first.Progress? && !last.Progress?
    ensures ProgressValues([first] + middle + rest + [last]) == ProgressValues(middle) + ProgressValues(rest)
  {
    calc {
      ProgressValues([first] + middle + rest + [last]);
      { Seqs.FilterMapAppend(ProgressOf, [first] + middle + rest, [last]); Seqs.FilterMapSingle(ProgressOf, last); }
      ProgressValues([first] + middle + rest) + [];
      { Seqs.FilterMapAppend(ProgressOf, [first] + middle, rest); }
      ProgressValues([first] + middle) + ProgressValues(rest);
      { Seqs.FilterMapAppend(ProgressOf, [first], middle); Seqs.FilterMapSingle(ProgressOf, first); }
      [] + ProgressValues(middle) + ProgressValues(rest);
    }
  }

  // ---------------------------------------------------------------------
  // How a run ends

  /** Without a cancellation every completion is consumed and the report holds every file, once. */
  lemma FullRunAccountsForEveryFile(job: Job, cs: seq<Completion>, base: nat, zipError: Option<string>)
    requires |cs| == |job.docxFiles|
    ensures var run := RunOf(job, cs, base, None, zipError);
            && run.consumed == |cs|
            && |run.tally.successes| + |run.tally.failures| == |job.docxFiles|
  {
    assert cs[..|cs|] == cs;
    CollectCounts(cs, base, |cs|);
  }

  /** Whatever the cancel flag does, every consumed completion is counted once, and no more than all files are consumed. */
  lemma RunAccountsForConsumed(job: Job, cs: seq<Completion>, base: nat, cancelStep: Option<nat>,
                               zipError: Option<string>)
    requires |cs| == |job.docxFiles|
    ensures var run := RunOf(job, cs, base, cancelStep, zipError);
            && run.consumed <= |job.docxFiles|
            && |run.tally.successes| + |run.tally.failures| == run.consumed
            && |run.tally.pdfFiles| == |run.tally.successes|
  {
    var k := Consumed(|cs|, cancelStep);
    CollectCounts(cs[..k], base, |cs|);
  }

  /**
   * The ZIP is written, and the run reports success with its path, exactly
   * when some conversion produced a PDF, the ZIP opened, and the flag was
   * not seen before the last PDF was written; the archive then holds every
   * PDF, protected by the password when one was given.
   */
  lemma RunSucceeds(job: Job, cs: seq<Completion>, base: nat, cancelStep: Option<nat>, zipError: Option<string>)
    requires |cs| == |job.docxFiles|
    ensures var run := RunOf(job, cs, base, cancelStep, zipError);
            var pdfs := Seqs.FilterMap(PdfOf, cs);
            && (run.payload.Succeeded? <==> pdfs != [] && zipError.None? && !CancelSeen(cancelStep, |cs| + |pdfs|))
            && (run.payload.Succeeded? ==>
                  && run.payload.zipPath == job.zipPath && run.consumed == |cs|
                  && run.archive == Some(Archive(job.zipPath, ArchivePassword(job.password), pdfs))
                  && (run.archive.value.password.Some? <==> job.password != ""))
  {
    var n := |cs|;
    var k := Consumed(n, cancelStep);
    var pdfs := Seqs.FilterMap(PdfOf, cs);
    if k < n {
      assert CancelSeen(cancelStep, n + |pdfs|);
    } else {
      assert cs[..k] == cs;
      CollectIsFiltered(cs, base, n);
      PackagingSucceeds(job, pdfs, n, cancelStep, zipError);
    }
  }

  /** Packaging succeeds exactly when there are PDFs, the ZIP opens and no cancel is seen up to the last write. */
  lemma PackagingSucceeds(job: Job, pdfFiles: seq<Paths.PdfPath>, n: nat, cancelStep: Option<nat>,
                          zipError: Option<string>)
    ensures var o := Packaging(job, pdfFiles, n, cancelStep, zipError);
            && (o.payload.Succeeded? <==> pdfFiles != [] && zipError.None? && !CancelSeen(cancelStep, n + |pdfFiles|))
            && (o.payload.Succeeded? ==>
                  && o.payload.zipPath == job.zipPath
                  && o.archive == Some(Archive(job.zipPath, ArchivePassword(job.password), pdfFiles)))
  {
    var m := |pdfFiles|;
    if pdfFiles != [] && zipError.None? && !CancelSeen(cancelStep, n) {
      var w := Written(n, m, cancelStep);
      if w < m {
        assert CancelSeen(cancelStep, n + m);
      } else if m > 0 {
        assert !CancelSeen(cancelStep, n + w);
      }
    }
  }


  /** A flag seen before completion `s` is consumed stops the run with the cancel message and no ZIP. */
  lemma CancelWhileCollecting(job: Job, cs: seq<Completion>, base: nat, s: nat, zipError: Option<string>)
    requires |cs| == |job.docxFiles| && s < |cs|
    ensures var run := RunOf(job, cs, base, Some(s), zipError);
            && run.consumed == s
            && run.tally.successes == Seqs.FilterMap(SuccessOf, cs[..s])
            && run.tally.failures == Seqs.FilterMap(FailureOf, cs[..s])
            && run.archive == None && run.payload == Failed(CancelMessage)
  {
    CollectIsFiltered(cs[..s], base, |cs|);
  }

  /**
   * A flag seen while the PDFs are written leaves a ZIP holding the PDFs
   * written so far, a strict prefix, and the run reports the cancellation.
   */
  lemma CancelWhilePackaging(job: Job, cs: seq<Completion>, base: nat, s: nat)
    requires |cs| == |job.docxFiles|
    requires |cs| < s <= |cs| + |Seqs.FilterMap(PdfOf, cs)|
    ensures var run := RunOf(job, cs, base, Some(s), None);
            var pdfs := Seqs.FilterMap(PdfOf, cs);
            && run.consumed == |cs|
            && run.archive == Some(Archive(job.zipPath, ArchivePassword(job.password), pdfs[..s - |cs| - 1]))
            && |run.archive.value.entries| < |pdfs|
            && run.payload == Failed(CancelMessage)
  {
    assert cs[..|cs|] == cs;
    CollectIsFiltered(cs, base, |cs|);
  }

  /**
   * When no conversion produced a PDF, the run fails with the no-output
   * error, which takes precedence over a flag seen after the loop; no ZIP is
   * written and the bar never reaches the packaging stage.
   */
  lemma EmptyBatchFails(job: Job, cs: seq<Completion>, cancelStep: Option<nat>, zipError: Option<string>)
    requires |cs| == |job.docxFiles|
    requires forall c :: c in cs ==> PdfOf(c).None?
    requires cancelStep.None? || cancelStep.value >= |cs|
    ensures var run := RunOf(job, cs, 0, cancelStep, zipError);
            && run.payload == Failed(WrapError(NoOutputMessage))
            && run.archive == None
            && Progress(85) !in run.messages
  {
    EmptyBatchRun(job, cs, cancelStep, zipError);
    if |cs| > 0 {
      CollectStaysBelowPackaging(cs[..|cs|], |cs|);
    }
  }

  lemma EmptyBatchRun(job: Job, cs: seq<Completion>, cancelStep: Option<nat>, zipError: Option<string>)
    requires |cs| == |job.docxFiles|
    requires forall c :: c in cs ==> PdfOf(c).None?
    requires cancelStep.None? || cancelStep.value >= |cs|
    ensures var run := RunOf(job, cs, 0, cancelStep, zipError);
            && run.payload == Failed(WrapError(NoOutputMessage))
            && run.archive == None
            && run.consumed == |cs|
            && run.messages == [StartStatus(job)] + run.tally.messages + [Finished(run.payload)]
  {
    var n := |cs|;
    assert cs[..n] == cs;
    CollectWithoutPdfs(cs, 0, n);
    var run := RunOf(job, cs, 0, cancelStep, zipError);
    var start := [StartStatus(job)] + run.tally.messages;
    assert start + [] == start;
  }

  /** Completions that produced no PDF leave the PDF list empty. */
  lemma {:induction false} CollectWithoutPdfs(cs: seq<Completion>, base: nat, total: nat)
    requires cs == [] || total > 0
    requires forall c :: c in cs ==> PdfOf(c).None?
    ensures Collect(cs, base, total).pdfFiles == []
    decreases |cs|
  {
    if cs != [] {
      assert cs[|cs| - 1] in cs;
      CollectWithoutPdfs(cs[..|cs| - 1], base, total);
    }
  }

  /** The collection loop, started from a reset counter, never sends the value that opens the ZIP stage. */
  lemma CollectStaysBelowPackaging(cs: seq<Completion>, total: nat)
    requires 0 < total && |cs| <= total
    ensures Progress(85) !in Collect(cs, 0, total).messages
  {
    var t := Collect(cs, 0, total);
    CollectProgress(cs, 0, total);
    ConversionStepsShape(0, |cs|, total);
    if Progress(85) in t.messages {
      assert ProgressOf(Progress(85)) == Some(85);
      Seqs.FilterMapMembers(ProgressOf, t.messages, 85);
    }
  }

  // ---------------------------------------------------------------------
  // The worker's converter

  /**
   * The converter the workers build (five attempts, a 600-second timeout,
   * Word available) reports at most five attempts, and all five, with the
   * exhaustion message, when it fails.
   */
  lemma WorkerConverterBounds(docxFile: string, tempDir: string, docx2pdfAvailable: bool,
                              script: seq<Converter.AttemptScript>)
    requires MaxRetries <= |script|
    ensures var r := WorkerConverter.Expected(docxFile, tempDir, true, true, docx2pdfAvailable, script);
            && (r.pdfPath.Some? ==> 1 <= r.attempts <= 5)
            && (r.pdfPath.None? ==> r.attempts == 5 && r.error.Some?
                                    && Strings.IsPrefix(ExhaustedHead, r.error.value))
  {
    var r := WorkerConverter.Expected(docxFile, tempDir, true, true, docx2pdfAvailable, script);
    if r.pdfPath.Some? {
      Converter.SuccessShape(WorkerConverter, docxFile, tempDir, true, true, docx2pdfAvailable, script);
    } else {
      Converter.ExhaustionShape(WorkerConverter, docxFile, tempDir, docx2pdfAvailable, script);
      ExhaustedAfterFive(WorkerConverter.OutcomeAt(script, MaxRetries, docx2pdfAvailable).message);
    }
  }

  const ExhaustedHead := "Fallo despr\U{E9}s de 5 intents: "

  /** The message after five failed attempts starts with the fixed head naming the five attempts. */
  lemma ExhaustedAfterFive(tail: string)
    ensures Converter.ExhaustedMessage(5, Some(tail)) == ExhaustedHead + tail
    ensures Strings.IsPrefix(ExhaustedHead, ExhaustedHead + tail)
  {
    assert Strings.IntToString(5) == "5";
    assert (ExhaustedHead + tail)[..|ExhaustedHead|] == ExhaustedHead;
  }

  /** A worker's conversion of one file sleeps at most 30 seconds in all: 3 + 6 + 9 + 12 after four failures. */
  lemma WorkerSleepBound(docx2pdfAvailable: bool, script: seq<Converter.AttemptScript>)
    requires MaxRetries <= |script|
    ensures Converter.Sum(Converter.Backoffs(WorkerConverter.SleepCount(true, true, docx2pdfAvailable, script))) <= 30
  {
    SleepsUpToFour(WorkerConverter.SleepCount(true, true, docx2pdfAvailable, script));
  }

  lemma SleepsUpToFour(k: nat)
    requires k <= 4
    ensures Converter.Sum(Converter.Backoffs(k)) <= 30
  {
    assert Converter.Backoffs(0) == [];
    Converter.BackoffsStep(0);
    Converter.BackoffsStep(1);
    Converter.BackoffsStep(2);
    Converter.BackoffsStep(3);
  }

  // ---------------------------------------------------------------------
  // conversion_finished

  /**
   * A successful run shows the report dialog with the archive's path, in the
   * success colour exactly when no file failed; a failed run shows its error
   * in the error colour, in a dialog or not at all.
   */
  lemma FinishedOutcome(payload: Payload, summary: Report.Summary, reportText: string)
    ensures var v := FinishedViewOf(payload, summary, reportText);
            && (v.kind == Success <==> payload.Succeeded? && summary.failed == 0)
            && (v.kind == Warning <==> payload.Succeeded? && summary.failed != 0)
            && (v.kind == Error <==> payload.Failed?)
            && (payload.Succeeded? ==> v.dialog == ReportDialog(reportText, payload.zipPath))
            && (payload.Failed? ==> && v.status == "Error: " + payload.error
                                    && v.dialog in {NoDialog, ErrorDialog("Error durant la conversi\U{F3}:\n" + payload.error)})
  {
  }

  /** A cancelled run is reported only in the status line: its message contains the marker, so no dialog opens. */
  lemma CancelShowsNoDialog(summary: Report.Summary, reportText: string)
    ensures FinishedViewOf(Failed(CancelMessage), summary, reportText) == FinishedView("Error: " + CancelMessage, Error, NoDialog)
  {
    var lowered := Strings.AsciiLower(CancelMessage);
    MarkerInCancelMessage();
    Strings.AsciiLowerSlice(CancelMessage, 10, 21);
    LowerMarker();
    assert lowered[10..][..|CancelledMarker|] == lowered[10..21];
    Strings.OccursContains(lowered, CancelledMarker, 10);
  }

  lemma MarkerInCancelMessage()
    ensures CancelMessage[10..21] == CancelledMarker
  {
    var head := "Conversi\U{F3} ";
    assert |head| == 10;
    assert CancelMessage[|head|..|head| + |CancelledMarker|] == CancelledMarker;
  }

  lemma LowerMarker()
    ensures Strings.AsciiLower(CancelledMarker) == CancelledMarker
  {
  }

  /** An error whose text has no middle dot cannot contain the marker, so it opens the error dialog. */
  lemma ErrorWithoutMarkerShowsDialog(error: string, summary: Report.Summary, reportText: string)
    requires '\U{B7}' !in error
    ensures FinishedViewOf(Failed(error), summary, reportText).dialog == ErrorDialog("Error durant la conversi\U{F3}:\n" + error)
  {
    var lowered := Strings.AsciiLower(error);
    if Strings.Contains(lowered, CancelledMarker) {
      var k := Strings.ContainsWitness(lowered, CancelledMarker);
      MarkerDot(lowered, k);
      LoweredDot(error, k + 6);
      assert false;
    }
  }

  /** Where the marker occurs, its middle dot is six characters in. */
  lemma MarkerDot(s: string, k: int)
    requires Strings.OccursAt(s, CancelledMarker, k)
    ensures s[k + 6] == '\U{B7}'
  {
    assert s[k..][..|CancelledMarker|][6] == s[k + 6];
  }

  /** Lowering letters does not make a middle dot. */
  lemma LoweredDot(s: string, i: int)
    requires 0 <= i < |s| && Strings.AsciiLower(s)[i] == '\U{B7}'
    ensures s[i] == '\U{B7}' && s[i] in s
  {
  }

  /** A batch with no PDF ends with the no-output error in a dialog. */
  lemma NoOutputShowsDialog(summary: Report.Summary, reportText: string)
    ensures FinishedViewOf(Failed(WrapError(NoOutputMessage)), summary, reportText).dialog
            == ErrorDialog("Error durant la conversi\U{F3}:\n" + WrapError(NoOutputMessage))
  {
    var error := WrapError(NoOutputMessage);
    assert forall i :: 0 <= i < |error| ==> error[i] != '\U{B7}';
    ErrorWithoutMarkerShowsDialog(error, summary, reportText);
  }
}
