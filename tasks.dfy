/**
 * The gulp task table: every `gulp.task` the gulpfile registers, under
 * its name, with what it does: a `runSequence` of other tasks, a stream
 * pipeline, a clean-up, a notification or a watcher.
 */
module Tasks {
  import opened Config
  import opened Effects
  import Stages

  datatype TaskName =
    | CompileSass | Sass | WatchSass | ConcatCss | CleanupCss | Css | WatchCss | CssNotification
    | BrowserifyJs | Browserify | WatchBrowserify | ConcatJs | CleanupJs | JsNotification | Js | WatchJs
    | CompileIconFont | IconFontNotification | IconFont | WatchIconFont | Default

  /** The name each task is registered under with `gulp.task`. */
  function Name(t: TaskName): string {
    match t
    case CompileSass => "compile-sass"
    case Sass => "sass"
    case WatchSass => "watch-sass"
    case ConcatCss => "concat-css"
    case CleanupCss => "cleanup-css"
    case Css => "css"
    case WatchCss => "watch-css"
    case CssNotification => "css-notification"
    case BrowserifyJs => "browserify-js"
    case Browserify => "browserify"
    case WatchBrowserify => "watch-browserify"
    case ConcatJs => "concat-js"
    case CleanupJs => "cleanup-js"
    case JsNotification => "js-notification"
    case Js => "js"
    case WatchJs => "watch-js"
    case CompileIconFont => "compile-icon-font"
    case IconFontNotification => "icon-font-notification"
    case IconFont => "icon-font"
    case WatchIconFont => "watch-icon-font"
    case Default => "default"
  }

  /** Looking a task up by its registered name, as `runSequence` and `gulp.watch` do. */
  function FromName(s: string): Stages.Option<TaskName> {
    if s == "compile-sass" then Stages.Some(CompileSass)
    else if s == "sass" then Stages.Some(Sass)
    else if s == "watch-sass" then Stages.Some(WatchSass)
    else if s == "concat-css" then Stages.Some(ConcatCss)
    else if s == "cleanup-css" then Stages.Some(CleanupCss)
    else if s == "css" then Stages.Some(Css)
    else if s == "watch-css" then Stages.Some(WatchCss)
    else if s == "css-notification" then Stages.Some(CssNotification)
    else if s == "browserify-js" then Stages.Some(BrowserifyJs)
    else if s == "browserify" then Stages.Some(Browserify)
    else if s == "watch-browserify" then Stages.Some(WatchBrowserify)
    else if s == "concat-js" then Stages.Some(ConcatJs)
    else if s == "cleanup-js" then Stages.Some(CleanupJs)
    else if s == "js-notification" then Stages.Some(JsNotification)
    else if s == "js" then Stages.Some(Js)
    else if s == "watch-js" then Stages.Some(WatchJs)
    else if s == "compile-icon-font" then Stages.Some(CompileIconFont)
    else if s == "icon-font-notification" then Stages.Some(IconFontNotification)
    else if s == "icon-font" then Stages.Some(IconFont)
    else if s == "watch-icon-font" then Stages.Some(WatchIconFont)
    else if s == "default" then Stages.Some(Default)
    else Stages.None
  }

  /** Every task is found under the name it was registered with, so no two tasks share a name. */
  lemma NameRoundTrip(t: TaskName)
    ensures FromName(Name(t)) == Stages.Some(t)
  {
    if t in {CompileSass, Sass, WatchSass, ConcatCss, CleanupCss, Css, WatchCss, CssNotification, BrowserifyJs,
             Browserify, WatchBrowserify} {
      EarlyNamesFound(t);
    } else if t in {ConcatJs, CleanupJs, JsNotification, Js, WatchJs, CompileIconFont} {
      MiddleNamesFound(t);
    } else {
      LateNamesFound(t);
    }
  }

  // The name lookup checked in three parts, in the order the names are compared.
  lemma EarlyNamesFound(t: TaskName)
    requires t in {CompileSass, Sass, WatchSass, ConcatCss, CleanupCss, Css, WatchCss, CssNotification, BrowserifyJs,
                   Browserify, WatchBrowserify}
    ensures FromName(Name(t)) == Stages.Some(t)
  {
  }

  lemma MiddleNamesFound(t: TaskName)
    requires t in {ConcatJs, CleanupJs, JsNotification, Js, WatchJs, CompileIconFont}
    ensures FromName(Name(t)) == Stages.Some(t)
  {
  }

  lemma LateNamesFound(t: TaskName)
    requires t in {IconFontNotification, IconFont, WatchIconFont, Default}
    ensures FromName(Name(t)) == Stages.Some(t)
  {
  }

  lemma NamesDistinct(a: TaskName, b: TaskName)
    ensures Name(a) == Name(b) <==> a == b
  {
    NameRoundTrip(a);
    NameRoundTrip(b);
  }

  /** One argument of `runSequence`: a task name, or an array of names started together. */
  datatype Step = Run(task: TaskName) | Parallel(tasks: seq<TaskName>)

  /** What a registered task does. */
  datatype TaskDef =
    | Sequence(steps: seq<Step>)                             // runSequence(..., cb)
    | Stream(pipeline: Stages.Pipeline, returnsStream: bool)  // return gulp.src(...).pipe(...)
    | Cleanup(pattern: seq<string>)                          // cleanUp(pattern, cb)
    | Notification(message: string)                          // notifySuccess(message)
    | Watch(glob: string, tasks: seq<TaskName>)              // gulp.watch(glob, tasks)

  /**
   * The task table as the gulpfile writes it. `compile-icon-font` starts its
   * stream but does not return it.
   */
  function Registered(t: TaskName): TaskDef {
    match t
    case CompileSass => Stream(Stages.CompileSassStream, true)
    case Sass => Sequence([Run(CompileSass), Run(CssNotification)])
    case WatchSass => Watch(StylesSrcGlob, [Sass])
    case ConcatCss => Stream(Stages.ConcatCssStream, true)
    case CleanupCss => Cleanup(CssCleanupPattern)
    case Css => Sequence(CssSteps)
    case WatchCss => Watch(StylesSrcGlob, [Css])
    case CssNotification => Notification(CssMessage)
    case BrowserifyJs => Stream(Stages.BrowserifyJsStream, true)
    case Browserify => Sequence([Run(BrowserifyJs), Run(JsNotification)])
    case WatchBrowserify => Watch(ScriptsWatchGlob, [Browserify])
    case ConcatJs => Stream(Stages.ConcatJsStream, true)
    case CleanupJs => Cleanup(JsCleanupPattern)
    case JsNotification => Notification(JsMessage)
    case Js => Sequence(JsSteps)
    case WatchJs => Watch(ScriptsWatchGlob, [Js])
    case CompileIconFont => Stream(Stages.CompileIconFontStream, false)
    case IconFontNotification => Notification(IconFontMessage)
    case IconFont => Sequence(IconFontSteps)
    case WatchIconFont => Watch(IconFontWatchGlob, [IconFont])
    case Default => Sequence([Run(IconFont), Run(Css), Run(Js), Parallel(Watchers)])
  }

  /** The task table with `compile-icon-font` returning its stream like the other stream tasks. */
  function Definition(t: TaskName): TaskDef {
    if t == CompileIconFont then Stream(Stages.CompileIconFontStream, true) else Registered(t)
  }

  /**
   * The task tells gulp when it has finished: a stream task by returning
   * its stream, a sequence or clean-up task by calling `cb`. A task that
   * returns nothing and takes no `cb` counts as finished when its function
   * returns; for the notification and watch tasks that is when their work
   * is done.
   */
  predicate SignalsCompletion(d: TaskDef) {
    !d.Stream? || d.returnsStream
  }

  /** What a task does, whether or not it tells gulp when it has finished. */
  function Awaited(d: TaskDef): TaskDef {
    if d.Stream? then Stream(d.pipeline, true) else d
  }

  /**
   * As written, `icon-font` (the first step of `default`) does not wait for
   * the font and the stylesheet partial: gulp moves on to the notification,
   * and then to `css`, while `compile-icon-font` is still writing.
   */
  lemma IconFontNotAwaited()
    ensures !SignalsCompletion(Registered(CompileIconFont))
    ensures Registered(IconFont).steps[0] == Run(CompileIconFont)
    ensures Registered(Default).steps[0] == Run(IconFont)
    ensures forall t :: t != CompileIconFont ==> SignalsCompletion(Registered(t))
  {
  }

  /**
   * The corrected table differs from the written one only in
   * `compile-icon-font`, which now returns its stream, and every task in it
   * tells gulp when it has finished, so each step of a sequence starts after
   * the one before it has ended.
   */
  lemma CorrectedTable(t: TaskName)
    ensures SignalsCompletion(Definition(t))
    ensures t != CompileIconFont ==> Definition(t) == Registered(t)
    ensures Definition(CompileIconFont) == Stream(Registered(CompileIconFont).pipeline, true)
    ensures Awaited(Definition(t)) == Awaited(Registered(t))
  {
  }

  // The messages, clean-up patterns and watch globs the tasks are registered with.
  const CssMessage := "CSS Compiled Successfully!"
  const JsMessage := "JS Compiled Successfully!"
  const IconFontMessage := "Icon Font Compiled Successfully!"
  const CssCleanupPattern := [StylesCompiled + StylesCompiledFile]
  const JsCleanupPattern := [ScriptsCompiled + ScriptsCompiledFile]
  const ScriptsWatchGlob := ScriptsSrc + "**/*.js"
  const IconFontWatchGlob := IconFontSrc + "*.svg"

  // The step lists of the build sequences, as `runSequence` receives them.
  const CssSteps := [Run(CompileSass), Run(ConcatCss), Run(CleanupCss), Run(CssNotification)]
  const JsSteps := [Run(BrowserifyJs), Run(ConcatJs), Run(CleanupJs), Run(JsNotification)]
  const IconFontSteps := [Run(CompileIconFont), Run(IconFontNotification)]
  const Watchers := [WatchIconFont, WatchCss, WatchJs]

  /** Every sequence but `default` ends with its notification step; `default` ends with the watcher group. */
  lemma NotificationLast(t: TaskName)
    requires Definition(t).Sequence?
    ensures var steps := Definition(t).steps;
      && |steps| > 0
      && (t != Default ==> steps[|steps| - 1].Run? && Definition(steps[|steps| - 1].task).Notification?)
      && (t == Default ==> steps[|steps| - 1] == Parallel(Watchers))
    ensures forall w :: w in Watchers ==> Definition(w).Watch?
  {
  }

  /** `watch-sass` and `watch-css` watch the SASS sources `compile-sass` reads. */
  lemma WatchStylesSources(c: Config)
    ensures Definition(WatchSass).glob == Definition(WatchCss).glob
    ensures Stages.Sources(Stages.CompileSass(c)) == [Definition(WatchCss).glob]
    ensures Definition(WatchSass).tasks == [Sass] && Definition(WatchCss).tasks == [Css]
  {
  }

  /** `watch-icon-font` watches the SVG files `compile-icon-font` reads. */
  lemma WatchIconFontSources()
    ensures Stages.Sources(Stages.CompileIconFont()) == [Definition(WatchIconFont).glob]
    ensures Definition(WatchIconFont).tasks == [IconFont]
  {
  }

  /**
   * `watch-browserify` and `watch-js` watch every script under the script
   * folder, which holds the entry file `browserify-js` reads.
   */
  lemma WatchScriptsSources(c: Config)
    ensures Definition(WatchBrowserify).glob == Definition(WatchJs).glob
    ensures ScriptsSrc <= Definition(WatchJs).glob
    ensures forall g :: g in Stages.Sources(Stages.BrowserifyJs(c)) ==> ScriptsSrc <= g
    ensures Definition(WatchBrowserify).tasks == [Browserify] && Definition(WatchJs).tasks == [Js]
  {
  }

  /** The sequence tasks are exactly `sass`, `css`, `browserify`, `js`, `icon-font` and `default`. */
  lemma SequenceTasks(t: TaskName)
    ensures Definition(t).Sequence? <==> t in {Sass, Css, Browserify, Js, IconFont, Default}
  {
  }
}
