/**
 * The run semantics applied to the gulpfile's own task table: the order in
 * which `css`, `js`, `icon-font` and `default` run their tasks, and what a
 * run of each shows and deletes.
 */
module TaskRuns {
  import opened Config
  import opened Effects
  import opened Tasks
  import opened Runs
  import Stages

  /** The steps of each build sequence, as the table registers them. */
  lemma CssTable()
    ensures Definition(Css) == Sequence(CssSteps)
  {
  }

  lemma JsTable()
    ensures Definition(Js) == Sequence(JsSteps)
  {
  }

  lemma IconFontTable()
    ensures Definition(IconFont) == Sequence(IconFontSteps)
  {
  }

  lemma SassTable()
    ensures Definition(Sass) == Sequence([Run(CompileSass), Run(CssNotification)])
  {
  }

  lemma BrowserifyTable()
    ensures Definition(Browserify) == Sequence([Run(BrowserifyJs), Run(JsNotification)])
  {
  }

  /** The steps of each build sequence contain no further sequence. */
  lemma CssFlat()
    ensures Flat(Definition, CssSteps)
  {
    forall st | st in CssSteps && st.Run? ensures !Definition(st.task).Sequence? {
      SequenceTasks(st.task);
    }
  }

  lemma JsFlat()
    ensures Flat(Definition, JsSteps)
  {
    forall st | st in JsSteps && st.Run? ensures !Definition(st.task).Sequence? {
      SequenceTasks(st.task);
    }
  }

  lemma IconFontFlat()
    ensures Flat(Definition, IconFontSteps)
  {
    forall st | st in IconFontSteps && st.Run? ensures !Definition(st.task).Sequence? {
      SequenceTasks(st.task);
    }
  }

  lemma SassFlat()
    ensures Flat(Definition, [Run(CompileSass), Run(CssNotification)])
  {
    forall st | st in [Run(CompileSass), Run(CssNotification)] && st.Run? ensures !Definition(st.task).Sequence? {
      SequenceTasks(st.task);
    }
  }

  lemma BrowserifyFlat()
    ensures Flat(Definition, [Run(BrowserifyJs), Run(JsNotification)])
  {
    forall st | st in [Run(BrowserifyJs), Run(JsNotification)] && st.Run? ensures !Definition(st.task).Sequence? {
      SequenceTasks(st.task);
    }
  }

  /** `css` compiles, concatenates, cleans up and notifies, in that order; `js`, `icon-font`, `sass` and `browserify` likewise. */
  lemma SequenceOrders(fuel: nat)
    ensures Expand(Definition, [Run(Css)], fuel + 1) == Stages.Some(CssSteps)
    ensures Expand(Definition, [Run(Js)], fuel + 1) == Stages.Some(JsSteps)
    ensures Expand(Definition, [Run(IconFont)], fuel + 1) == Stages.Some(IconFontSteps)
    ensures Expand(Definition, [Run(Sass)], fuel + 1) == Stages.Some([Run(CompileSass), Run(CssNotification)])
    ensures Expand(Definition, [Run(Browserify)], fuel + 1) == Stages.Some([Run(BrowserifyJs), Run(JsNotification)])
  {
    assert Expand(Definition, [Run(Css)], fuel + 1) == Stages.Some(CssSteps) by {
      CssTable();
      CssFlat();
      ExpandSequence(Definition, Css, fuel);
    }
    assert Expand(Definition, [Run(Js)], fuel + 1) == Stages.Some(JsSteps) by {
      JsTable();
      JsFlat();
      ExpandSequence(Definition, Js, fuel);
    }
    assert Expand(Definition, [Run(IconFont)], fuel + 1) == Stages.Some(IconFontSteps) by {
      IconFontTable();
      IconFontFlat();
      ExpandSequence(Definition, IconFont, fuel);
    }
    assert Expand(Definition, [Run(Sass)], fuel + 1) == Stages.Some([Run(CompileSass), Run(CssNotification)]) by {
      SassTable();
      SassFlat();
      ExpandSequence(Definition, Sass, fuel);
    }
    BrowserifyTable();
    BrowserifyFlat();
    ExpandSequence(Definition, Browserify, fuel);
  }

  /**
   * `default` runs the icon font, then `css`, then `js`, each to its
   * notification, and only then starts the three watchers together.
   */
  lemma DefaultOrder(fuel: nat)
    ensures Expand(Definition, [Run(Default)], fuel + 2) ==
      Stages.Some(IconFontSteps + (CssSteps + (JsSteps + [Parallel(Watchers)])))
  {
    var f := fuel + 1;
    var w := [Parallel(Watchers)];
    var d := [Run(IconFont)] + ([Run(Css)] + ([Run(Js)] + w));
    assert Expand(Definition, w, f) == Stages.Some(w) by { ExpandFlatList(Definition, w, f); }
    assert Expand(Definition, [Run(Js)] + w, f) == Stages.Some(JsSteps + w) by {
      JsTable();
      JsFlat();
      ExpandFlatList(Definition, JsSteps, fuel);
      ExpandRunThen(Definition, Js, w, fuel);
    }
    assert Expand(Definition, [Run(Css)] + ([Run(Js)] + w), f) == Stages.Some(CssSteps + (JsSteps + w)) by {
      CssTable();
      CssFlat();
      ExpandFlatList(Definition, CssSteps, fuel);
      ExpandRunThen(Definition, Css, [Run(Js)] + w, fuel);
    }
    assert Expand(Definition, d, f) == Stages.Some(IconFontSteps + (CssSteps + (JsSteps + w))) by {
      IconFontTable();
      IconFontFlat();
      ExpandFlatList(Definition, IconFontSteps, fuel);
      ExpandRunThen(Definition, IconFont, [Run(Css)] + ([Run(Js)] + w), fuel);
    }
    var full := IconFontSteps + (CssSteps + (JsSteps + w));
    DefaultTable();
    assert Expand(Definition, [], f + 1) == Stages.Some([]);
    ExpandRunThen(Definition, Default, [], f);
    assert [Run(Default)] + [] == [Run(Default)];
    assert full + [] == full;
  }

  /** `default` runs `icon-font`, `css` and `js`, then the watcher group. */
  lemma DefaultTable()
    ensures Definition(Default) == Sequence([Run(IconFont)] + ([Run(Css)] + ([Run(Js)] + [Parallel(Watchers)])))
  {
  }

  /** The task's chain of `n` stages raises an error at one of them. */
  predicate FailsWithin(failures: Failures, t: TaskName, n: nat) {
    t in failures && failures[t].at < n
  }

  /** The task's error is raised by the stage at position `k` of its chain. */
  predicate FailsAt(failures: Failures, t: TaskName, k: nat) {
    t in failures && failures[t].at == k
  }

  /**
   * `compile-sass` reports the SASS compiler's error and goes on; an error
   * of any other stage of it (the source maps, the media-query merge, the
   * prefixer, the write) is not listened to and ends the process.
   */
  lemma CompileSassFailures(c: Config, failures: Failures)
    ensures Definition(CompileSass).Stream?
    ensures Handled(Definition, c, CompileSass, failures) <==> FailsAt(failures, CompileSass, Stages.SassStage)
    ensures Unhandled(Definition, c, CompileSass, failures) <==>
      FailsWithin(failures, CompileSass, |Stages.CompileSass(c)|) && !FailsAt(failures, CompileSass, Stages.SassStage)
  {
    assert Definition(CompileSass) == Stream(Stages.CompileSassStream, true);
    Stages.CompileSassHandlerAt(c);
    if Fails(Definition, c, CompileSass, failures) {
      assert Raiser(Definition, c, CompileSass, failures) == Stages.CompileSass(c)[failures[CompileSass].at];
    }
  }

  /** `browserify-js` reports the bundler's error and goes on; the rename's or the write's ends the process. */
  lemma BrowserifyJsFailures(c: Config, failures: Failures)
    ensures Definition(BrowserifyJs).Stream?
    ensures Handled(Definition, c, BrowserifyJs, failures) <==> FailsAt(failures, BrowserifyJs, Stages.BrowserifyStage)
    ensures Unhandled(Definition, c, BrowserifyJs, failures) <==>
      FailsWithin(failures, BrowserifyJs, |Stages.BrowserifyJs(c)|) && !FailsAt(failures, BrowserifyJs, Stages.BrowserifyStage)
  {
    assert Definition(BrowserifyJs) == Stream(Stages.BrowserifyJsStream, true);
    Stages.BrowserifyJsHandlerAt(c);
    if Fails(Definition, c, BrowserifyJs, failures) {
      assert Raiser(Definition, c, BrowserifyJs, failures) == Stages.BrowserifyJs(c)[failures[BrowserifyJs].at];
    }
  }

  /** `concat-css` attaches no handler: any error of its stages is fatal. */
  lemma ConcatCssFailures(c: Config, failures: Failures)
    ensures Definition(ConcatCss).Stream? && Stages.HandlerOf(Stages.StagesOf(Definition(ConcatCss).pipeline, c)).None?
    ensures Fails(Definition, c, ConcatCss, failures) <==> FailsWithin(failures, ConcatCss, |Stages.ConcatCss(c)|)
  {
    assert Definition(ConcatCss) == Stream(Stages.ConcatCssStream, true);
    Stages.HandlerOfPipeline(Stages.ConcatCssStream, c);
  }

  /** `concat-js` attaches no handler either. */
  lemma ConcatJsFailures(c: Config, failures: Failures)
    ensures Definition(ConcatJs).Stream? && Stages.HandlerOf(Stages.StagesOf(Definition(ConcatJs).pipeline, c)).None?
    ensures Fails(Definition, c, ConcatJs, failures) <==> FailsWithin(failures, ConcatJs, |Stages.ConcatJs(c)|)
  {
    assert Definition(ConcatJs) == Stream(Stages.ConcatJsStream, true);
    Stages.HandlerOfPipeline(Stages.ConcatJsStream, c);
  }

  /** Nor does `compile-icon-font`: its errors are never reported, and any of them is fatal. */
  lemma CompileIconFontFailures(c: Config, failures: Failures)
    ensures Definition(CompileIconFont).Stream? && !Handled(Definition, c, CompileIconFont, failures)
    ensures Unhandled(Definition, c, CompileIconFont, failures) <==>
      FailsWithin(failures, CompileIconFont, |Stages.CompileIconFont()|)
  {
    assert Definition(CompileIconFont) == Stream(Stages.CompileIconFontStream, true);
    Stages.HandlerOfPipeline(Stages.CompileIconFontStream, c);
    Unreported(Definition, c, CompileIconFont, failures);
  }

  /** The clean-up and notification entries of `css` and `js`. */
  lemma CssEntries()
    ensures Definition(CleanupCss) == Cleanup(CssCleanupPattern)
    ensures Definition(CssNotification) == Notification(CssMessage)
  {
  }

  lemma JsEntries()
    ensures Definition(CleanupJs) == Cleanup(JsCleanupPattern)
    ensures Definition(JsNotification) == Notification(JsMessage)
  {
  }

  lemma IconFontNotificationEntry()
    ensures Definition(IconFontNotification) == Notification(IconFontMessage)
  {
  }

  /**
   * Running `css`: it ends the process exactly when `concat-css` fails, or
   * `compile-sass` fails at a stage other than the SASS compiler; otherwise
   * the success notice is shown exactly when the flag was clear and the SASS
   * compiler reported no error, and one delete is issued, of the compiled
   * stylesheet in production and of the dummy pattern in development.
   */
  lemma CssRun(s: State, c: Config, failures: Failures)
    ensures Flat(Definition, CssSteps)
    ensures ExecFlat(Definition, s, c, CssSteps, failures).Crashed? <==>
      || FailsWithin(failures, ConcatCss, |Stages.ConcatCss(c)|)
      || (FailsWithin(failures, CompileSass, |Stages.CompileSass(c)|) && !FailsAt(failures, CompileSass, Stages.SassStage))
    ensures var o := ExecFlat(Definition, s, c, CssSteps, failures);
      o.Completed? ==>
        && !o.state.hasErrors
        && Notices(o.state.log) == Notices(s.log)
             + (if s.hasErrors || FailsAt(failures, CompileSass, Stages.SassStage) then [] else [CssMessage])
        && Deletions(o.state.log) == Deletions(s.log)
             + [if c.cleanUpFiles then CssCleanupPattern else DummyPattern]
  {
    CompileSassFailures(c, failures);
    ConcatCssFailures(c, failures);
    CssEntries();
    BuildRun(Definition, s, c, CompileSass, ConcatCss, CleanupCss, CssNotification, failures);
  }

  /**
   * Running `js`: the same shape, with the bundler's error reported and any
   * other stage's error in `browserify-js` or `concat-js` ending the process.
   */
  lemma JsRun(s: State, c: Config, failures: Failures)
    ensures Flat(Definition, JsSteps)
    ensures ExecFlat(Definition, s, c, JsSteps, failures).Crashed? <==>
      || FailsWithin(failures, ConcatJs, |Stages.ConcatJs(c)|)
      || (FailsWithin(failures, BrowserifyJs, |Stages.BrowserifyJs(c)|)
          && !FailsAt(failures, BrowserifyJs, Stages.BrowserifyStage))
    ensures var o := ExecFlat(Definition, s, c, JsSteps, failures);
      o.Completed? ==>
        && !o.state.hasErrors
        && Notices(o.state.log) == Notices(s.log)
             + (if s.hasErrors || FailsAt(failures, BrowserifyJs, Stages.BrowserifyStage) then [] else [JsMessage])
        && Deletions(o.state.log) == Deletions(s.log)
             + [if c.cleanUpFiles then JsCleanupPattern else DummyPattern]
  {
    BrowserifyJsFailures(c, failures);
    ConcatJsFailures(c, failures);
    JsEntries();
    BuildRun(Definition, s, c, BrowserifyJs, ConcatJs, CleanupJs, JsNotification, failures);
  }

  /**
   * Running `icon-font`: the font chain has no error handler, so an error of
   * any of its stages ends the process; otherwise the notice is shown
   * exactly when the flag was clear, and nothing is deleted.
   */
  lemma IconFontRun(s: State, c: Config, failures: Failures)
    ensures Flat(Definition, IconFontSteps)
    ensures ExecFlat(Definition, s, c, IconFontSteps, failures).Crashed? <==>
      FailsWithin(failures, CompileIconFont, |Stages.CompileIconFont()|)
    ensures var o := ExecFlat(Definition, s, c, IconFontSteps, failures);
      o.Completed? ==>
        && !o.state.hasErrors
        && Notices(o.state.log) == Notices(s.log) + (if s.hasErrors then [] else [IconFontMessage])
        && Deletions(o.state.log) == Deletions(s.log)
  {
    assert IconFontSteps == [Run(CompileIconFont), Run(IconFontNotification)];
    CompileIconFontFailures(c, failures);
    IconFontNotificationEntry();
    LeafThenNotify(Definition, s, c, CompileIconFont, IconFontNotification, failures);
  }

  /**
   * An error suppresses one notice only: a `css` run whose SASS fails shows
   * no notice, and the next `css` run that compiles shows its notice again,
   * even when the first run began with the flag set.
   */
  lemma CssRecovers(s: State, c: Config, failing: Failures, passing: Failures)
    requires FailsAt(failing, CompileSass, Stages.SassStage) && ConcatCss !in failing
    requires CompileSass !in passing && ConcatCss !in passing
    ensures Flat(Definition, CssSteps)
    ensures ExecFlat(Definition, s, c, CssSteps, failing).Completed?
    ensures var s1 := ExecFlat(Definition, s, c, CssSteps, failing).state;
      && Notices(s1.log) == Notices(s.log)
      && ExecFlat(Definition, s1, c, CssSteps, passing).Completed?
      && Notices(ExecFlat(Definition, s1, c, CssSteps, passing).state.log) == Notices(s.log) + [CssMessage]
  {
    CssRun(s, c, failing);
    CssRun(ExecFlat(Definition, s, c, CssSteps, failing).state, c, passing);
  }

  /**
   * Running `default` (the steps `DefaultOrder` expands it into) from a
   * clean start, when the only errors are the SASS compiler's and the
   * bundler's, which are reported: the icon font notice is shown, and the
   * `css` and `js` notices each exactly when their own compile step
   * succeeded, whatever happened before them; each clean-up deletes once,
   * stylesheet first.
   */
  lemma DefaultRun(s: State, c: Config, failures: Failures)
    requires !s.hasErrors
    requires CompileIconFont !in failures && ConcatCss !in failures && ConcatJs !in failures
    requires CompileSass in failures ==> FailsAt(failures, CompileSass, Stages.SassStage)
    requires BrowserifyJs in failures ==> FailsAt(failures, BrowserifyJs, Stages.BrowserifyStage)
    ensures var steps := IconFontSteps + (CssSteps + (JsSteps + [Parallel(Watchers)]));
      && Flat(Definition, steps)
      && ExecFlat(Definition, s, c, steps, failures).Completed?
      && var r := ExecFlat(Definition, s, c, steps, failures).state;
      && !r.hasErrors
      && Notices(r.log) == Notices(s.log) + [IconFontMessage]
           + (if CompileSass in failures then [] else [CssMessage])
           + (if BrowserifyJs in failures then [] else [JsMessage])
      && Deletions(r.log) == Deletions(s.log)
           + [if c.cleanUpFiles then CssCleanupPattern else DummyPattern]
           + [if c.cleanUpFiles then JsCleanupPattern else DummyPattern]
  {
    var w := [Parallel(Watchers)];
    var css := if CompileSass in failures then [] else [CssMessage];
    var js := if BrowserifyJs in failures then [] else [JsMessage];
    var dc := if c.cleanUpFiles then CssCleanupPattern else DummyPattern;
    var dj := if c.cleanUpFiles then JsCleanupPattern else DummyPattern;
    var n0, d0 := Notices(s.log), Deletions(s.log);
    assert Flat(Definition, IconFontSteps) && ExecFlat(Definition, s, c, IconFontSteps, failures).Completed? by {
      IconFontRun(s, c, failures);
    }
    var s1 := ExecFlat(Definition, s, c, IconFontSteps, failures).state;
    assert !s1.hasErrors && Notices(s1.log) == n0 + [IconFontMessage] && Deletions(s1.log) == d0 by {
      IconFontRun(s, c, failures);
    }
    assert Flat(Definition, CssSteps) && ExecFlat(Definition, s1, c, CssSteps, failures).Completed? by {
      CssRun(s1, c, failures);
    }
    var s2 := ExecFlat(Definition, s1, c, CssSteps, failures).state;
    assert !s2.hasErrors && Notices(s2.log) == Notices(s1.log) + css && Deletions(s2.log) == Deletions(s1.log) + [dc] by {
      CssRun(s1, c, failures);
    }
    assert Flat(Definition, JsSteps) && ExecFlat(Definition, s2, c, JsSteps, failures).Completed? by {
      JsRun(s2, c, failures);
    }
    var s3 := ExecFlat(Definition, s2, c, JsSteps, failures).state;
    assert !s3.hasErrors && Notices(s3.log) == Notices(s2.log) + js && Deletions(s3.log) == Deletions(s2.log) + [dj] by {
      JsRun(s2, c, failures);
    }
    assert ExecFlat(Definition, s2, c, JsSteps + w, failures) == Completed(s3) by {
      WatchersStart(s3, c, failures);
      ExecFlatConcat(Definition, s2, c, JsSteps, w, failures);
    }
    assert ExecFlat(Definition, s1, c, CssSteps + (JsSteps + w), failures) == Completed(s3) by {
      ExecFlatConcat(Definition, s1, c, CssSteps, JsSteps + w, failures);
    }
    assert ExecFlat(Definition, s, c, IconFontSteps + (CssSteps + (JsSteps + w)), failures) == Completed(s3) by {
      ExecFlatConcat(Definition, s, c, IconFontSteps, CssSteps + (JsSteps + w), failures);
    }
    assert Notices(s3.log) == n0 + [IconFontMessage] + css + js;
    assert Deletions(s3.log) == d0 + [dc] + [dj];
  }

  /** Starting the watchers changes nothing in the module state. */
  lemma WatchersStart(s: State, c: Config, failures: Failures)
    ensures Flat(Definition, [Parallel(Watchers)])
    ensures ExecFlat(Definition, s, c, [Parallel(Watchers)], failures) == Completed(s)
  {
    assert [Parallel(Watchers)][1..] == [];
  }

  /** The table as written does the same work as the corrected one. */
  lemma WrittenTableSameWork()
    ensures SameWork(Registered, Definition)
  {
    forall t ensures Awaited(Registered(t)) == Awaited(Definition(t)) {
      CorrectedTable(t);
    }
  }

  /**
   * Every run above comes out the same over the table as written: the same
   * expansion of any list of steps, and the same outcome, state and log of
   * any flat one. The correction changes only when gulp starts the next step.
   */
  lemma WrittenTableRunsAlike(s: State, c: Config, steps: seq<Step>, fuel: nat, failures: Failures)
    ensures Expand(Registered, steps, fuel) == Expand(Definition, steps, fuel)
    ensures Flat(Definition, steps) ==>
      && Flat(Registered, steps)
      && ExecFlat(Registered, s, c, steps, failures) == ExecFlat(Definition, s, c, steps, failures)
  {
    WrittenTableSameWork();
    SameWorkExpand(Registered, Definition, steps, fuel);
    if Flat(Definition, steps) {
      SameWorkExec(Definition, Registered, s, c, steps, failures);
    }
  }
}
