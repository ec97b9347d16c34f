# gulp front-end build workflow, modelled in Dafny

The repository is a gulp build file for a front-end project. It compiles
SASS to CSS and bundles JavaScript with browserify. It joins both with
vendor files, minifies them for production, builds an icon font from SVG
files, cleans up intermediate files, and shows desktop notifications.

A single command-line flag, `--dev`, chooses between the production
settings and the development settings. A module-level `hasErrors` flag
links the error handlers to the success notification. A failed compile
step sets the flag. The next success notification is then skipped, and the
flag is cleared.

The model has these modules:

- `Config`: the path constants, the concatenation lists, and the mode
  block that resolves the five settings from `--dev`.
- `PathDepth`: `getRoot` as a loop, and the count of `../` it returns.
- `Effects`: the module state as a class `Gulpfile`, with the fields
  `hasErrors` and a log of outside effects. The two error handlers,
  `notifySuccess` and `cleanUp` are its methods. Each method is specified
  by a pure transition on the state.
- `Stages`: the five stream tasks as chains of stages. A stage that a
  setting switches off is piped through `gutil.noop()`; the model keeps it
  as an explicit `Noop`.
- `Tasks`: the task table. It maps every registered task name to what the
  task does: a `runSequence`, a stream, a clean-up, a notification or a
  watcher.
- `Runs`: what running tasks does, for any task table. `runSequence` is
  flattened into the leaf tasks it runs in order. Running a leaf task
  changes the module state. A plugin failure is an input. It names the
  stage of the task's chain that raises the error. `.on('error', …)`
  listens to one stage only, so the error is reported only when that stage
  has a handler. From any other stage it ends the process.
- `TaskRuns`: the run semantics applied to the task table: the order
  `css`, `js`, `icon-font` and `default` run in, and what each run shows
  and deletes. The lemmas are stated over the corrected table
  `Tasks.Definition` (see "## Findings"). `TaskRuns.WrittenTableRunsAlike`
  proves that the table as written, `Tasks.Registered`, expands and
  executes every list of steps to the same outcome, state and log. So each
  of them holds for the gulpfile as written too.

## Model

| member | source | states |
|---|---|---|
| Config.Resolve | gulpfile.js:115-128 | Without `--dev` the settings are production, compressed, no source maps, media queries combined, clean-up on. With `--dev` every one of them flips to the development value. |
| Config.ConsistentIffResolved | gulpfile.js:115-128 | A configuration follows one mode in all five settings exactly when it is the value for one choice of the flag. |
| Config.ResolveInjective | gulpfile.js:115-128 | The two flag values give different configurations. |
| Config.VendorFilesFirst | gulpfile.js:81-91 | Both concatenation lists start with the vendor files from `bower_components/`, in their declared order. Each ends with the file its compile step writes, which is not a vendor file. |
| PathDepth.GetRoot | gulpfile.js:434-444 | The loop returns one `../` per `/` in the path. The result has length three times the slash count, repeats `../` character by character, and is empty exactly when the path has no `/`. |
| PathDepth.RepeatShape | gulpfile.js:439-441 | k appended copies of a three-character string have length 3k and repeat it position by position. |
| PathDepth.EmptyBackPathIffNoSlash | gulpfile.js:437-437 | The back path is empty exactly when the path has no `/`, the case where `match` returns null. |
| PathDepth.FontFolderBackPath | gulpfile.js:382-382 | For the configured font folder `iconfont.dest` (`public/fonts/`) the back path is `../../`. |
| PathDepth.JoinDepth | gulpfile.js:437-437 | A folder written as names each followed by `/` has as many slashes as names. |
| PathDepth.BackPathReachesRoot | gulpfile.js:382-382 | A root-relative path prefixed with the back path of a folder resolves, from that folder, against the project root. |
| Effects.OnError | gulpfile.js:468-494 | An error handler as a transition: `Effects.ErrorSetsFlag` and `Effects.Gulpfile.NotifySassError` state what it does. |
| Effects.OnSuccess | gulpfile.js:500-509 | `notifySuccess` as a transition: `Effects.SuccessNotifiesIffClean` states what it does. |
| Effects.CleanUpPattern | gulpfile.js:450-453 | The pattern `cleanUp` deletes: `Effects.CleanUpDeletesOnce` states which. |
| Effects.OnCleanUp | gulpfile.js:450-458 | `cleanUp` as a transition: `Effects.CleanUpDeletesOnce` states what it does. |
| Effects.ErrorSetsFlag | gulpfile.js:468-494 | Either error handler sets the flag and adds no success notice and no delete. |
| Effects.SuccessNotifiesIffClean | gulpfile.js:500-509 | `notifySuccess` adds its notice exactly when the flag is clear, touches no delete, and leaves the flag cleared. |
| Effects.CleanUpDeletesOnce | gulpfile.js:450-458 | `cleanUp` issues exactly one delete: of the given pattern with clean-up on, of `['nothing.toDelete']` with it off. The flag and the notices are unchanged. |
| Effects.ErrorThenSuccess | gulpfile.js:466-509 | After an error the next success notice is suppressed, the flag is cleared, and the notice after that is shown. |
| Effects.Gulpfile.constructor | gulpfile.js:115-128 | Loading the file fixes the settings to those the flag resolves to, with the flag clear and no effects yet. |
| Effects.Gulpfile.NotifySassError | gulpfile.js:468-480 | Sets `hasErrors`, then logs the error, shows the SASS error notice and ends the stream, in that order. |
| Effects.Gulpfile.NotifyJsError | gulpfile.js:482-494 | The same for the JavaScript error notice. |
| Effects.Gulpfile.NotifySuccess | gulpfile.js:500-509 | Shows the notice only when `hasErrors` was false, and always clears it. |
| Effects.Gulpfile.CleanUp | gulpfile.js:450-458 | Swaps in the dummy pattern when clean-up is off and issues the one delete either way. |
| Stages.CompileSass | gulpfile.js:146-174 | Reads `assets/sass/**/*.scss`, writes to `temp/`, and has a source-map stage exactly when source maps are on. It combines media queries exactly when that setting is on, always prefixes with the browser list, never minifies, and contains the SASS compiler with the configured style and the SASS handler. |
| Stages.CompileSassOrder | gulpfile.js:146-174 | Compile comes before prefixing, and combining before prefixing. With source maps on, a map is started before and written after the compiler, and reloaded before and written after prefixing. |
| Stages.ConcatCss | gulpfile.js:201-225 | Reads normalize.css then `temp/main.css`, and writes to `public/css/`. It has source-map stages exactly when source maps are on, and minifies exactly in production. |
| Stages.ConcatCssStages | gulpfile.js:201-225 | Combines media queries exactly when that setting is on, always prefixes, minifies with `keepSpecialComments: 0`, and no stage has an error handler. |
| Stages.ConcatCssOrder | gulpfile.js:201-225 | Concatenation comes first, then combining, prefixing and minification in that order. With source maps on, the map is started before concatenation and written after prefixing. |
| Stages.BrowserifyJs | gulpfile.js:272-285 | Bundles `assets/js/main.js` with debug maps exactly when source maps are on, attaches the JS handler, then renames to `main.js` and writes to `temp/`. It has no source-map stage. |
| Stages.ConcatJs | gulpfile.js:310-328 | Reads modernizr, jquery, then `temp/main.js`, and writes to `public/js/`. It has source-map stages exactly when source maps are on, the map then wrapping the concatenation, and uglify runs after concatenation exactly in production. There is no CSS stage and no handler. |
| Stages.CompileIconFont | gulpfile.js:374-391 | Reads the SVG files with base `.` and writes to `public/fonts/`. It writes the stylesheet partial, targeted at the font folder's back path plus `assets/sass/_icon-font.scss`, before the font (named by the configured font name), with normalised glyphs. There is no handler and no map. |
| Stages.CompileSassHandlerAt | gulpfile.js:153-155 | In either mode, the SASS compiler is the stage at `Stages.SassStage` of `compile-sass`, and it is the only stage of that chain with an error handler. |
| Stages.BrowserifyJsHandlerAt | gulpfile.js:277-278 | In either mode, the bundler is the stage at `Stages.BrowserifyStage` of `browserify-js`, and it is the only stage of that chain with an error handler. |
| Stages.StreamHandler | gulpfile.js:155-278 | The handler named for each stream task: the SASS handler for `compile-sass`, the JS handler for `browserify-js`, none for the others. `Stages.HandlerOfPipeline` proves this agrees with the chains' stages. |
| Stages.HandlerOf | gulpfile.js:155-155 | A chain has no handler exactly when none of its stages has one; a handler it reports is the handler of one of its stages. |
| Stages.HandlerOfPipeline | gulpfile.js:146-391 | In either mode, only `compile-sass` (SASS handler) and `browserify-js` (JS handler) attach an error handler. |
| Stages.Effective | gulpfile.js:151-170 | Dropping the pass-through stages leaves no `Noop` and only stages of the chain. |
| Stages.NoopsPassThrough | gulpfile.js:151-170 | For any plugin behaviour in which `gutil.noop()` passes the stream on unchanged, a chain with the pass-through stages gives the same stream as the chain without them. |
| Tasks.Registered | gulpfile.js:146-424 | The task table as written. `Tasks.IconFontNotAwaited` and `Tasks.CorrectedTable` state how it differs from the corrected one. |
| Tasks.Definition | gulpfile.js:146-424 | The corrected table. `Tasks.CorrectedTable` and `TaskRuns.WrittenTableRunsAlike` relate it to the table as written. |
| Tasks.NameRoundTrip | gulpfile.js:146-424 | Looking a task up by the name it was registered under finds that task. |
| Tasks.NamesDistinct | gulpfile.js:146-424 | No two tasks are registered under the same name. |
| Tasks.IconFontNotAwaited | gulpfile.js:374-391 | As written, `compile-icon-font` is the only task that does not signal its completion. It is the first step of `icon-font`, which is the first step of `default`. |
| Tasks.CorrectedTable | gulpfile.js:374-408 | In the corrected table every task signals completion. It differs from the written one only in `compile-icon-font` returning its stream, so the two do the same work. |
| Tasks.NotificationLast | gulpfile.js:180-424 | Every sequence task ends with a notification step, except `default`, which ends with the group of three watchers. |
| Tasks.WatchStylesSources | gulpfile.js:188-253 | `watch-sass` and `watch-css` watch exactly the glob `compile-sass` reads, and re-run `sass` and `css`. |
| Tasks.WatchIconFontSources | gulpfile.js:414-416 | `watch-icon-font` watches exactly the SVG glob `compile-icon-font` reads, and re-runs `icon-font`. |
| Tasks.WatchScriptsSources | gulpfile.js:299-364 | Both script watchers watch every script under `assets/js/`, which holds the entry files of `browserify-js`, and re-run `browserify` and `js`. |
| Tasks.SequenceTasks | gulpfile.js:180-424 | The tasks defined by `runSequence` are exactly `sass`, `css`, `browserify`, `js`, `icon-font` and `default`. |
| Runs.Expand | gulpfile.js:422-424 | `runSequence` flattening. `Runs.ExpandIsFlat`, `Runs.ExpandFlatList` and `Runs.ExpandRunThen` state what it returns. |
| Runs.ExpandIsFlat | gulpfile.js:422-424 | Whatever a successful flattening of steps returns contains no sequence task. |
| Runs.ExpandFlatList | gulpfile.js:243-245 | A list of leaf tasks is run exactly as listed. |
| Runs.ExpandRunThen | gulpfile.js:422-424 | A sequence step followed by more steps runs its own steps first and then the rest. |
| Runs.ExpandSequence | gulpfile.js:243-245 | A sequence of leaf tasks expands to exactly its steps. |
| Runs.ExecTask | gulpfile.js:146-391 | Running a leaf task ends the process, with the error's text, exactly when it is a stream task whose failing stage has no error handler attached. |
| Runs.ExecFlat | gulpfile.js:422-424 | Running flattened steps in order, a crash skipping the rest. `Runs.FailSoft`, `Runs.ExecFlatConcat` and `Runs.BodyEffects` state its outcome and effects. |
| Runs.ExecFlatConcat | gulpfile.js:422-424 | Running two step lists one after the other is running their concatenation, and a crash in the first skips the second. |
| Runs.FailSoft | gulpfile.js:468-494 | A run ends the process exactly when one of its tasks fails at a stage with no handler. Failures caught by a handler let the run go on. |
| Runs.TaskEffects | gulpfile.js:450-494 | One leaf task sets the flag exactly when it fails soft, shows no notice, and a clean-up task issues its one delete. |
| Runs.BodyEffects | gulpfile.js:466-494 | Before the notification the flag is set exactly when it already was or some task failed soft. No notice is shown, and each clean-up deletes once, in order. |
| Runs.BodyFlag | gulpfile.js:466-494 | After the steps before a notification, the flag is set exactly when it already was or some task's failure was reported. |
| Runs.BodyNotices | gulpfile.js:450-494 | The steps before a notification show no success notice. |
| Runs.BodyDeletions | gulpfile.js:450-458 | The steps before a notification issue one delete per clean-up task, in order, and no other. |
| Runs.NotifierInvariant | gulpfile.js:466-509 | The closing notice of a run is shown exactly when the flag was clear at the start and no task failed soft. The flag is clear afterwards either way. |
| Runs.LeafThenNotify | gulpfile.js:406-408 | A one-task sequence with its notification crashes exactly when the task fails unhandled. Otherwise it shows the notice exactly when the flag was clear and the task did not fail soft, and deletes nothing. |
| Runs.BuildRun | gulpfile.js:243-245 | A compile, concatenate, clean-up, notify sequence, whose concatenation has no handler, crashes exactly when the compile step fails at an unhandled stage or the concatenation fails. Otherwise it shows the notice exactly when the flag was clear and the compile step reported no error, clears the flag, and issues one delete. |
| Runs.BuildBody | gulpfile.js:243-245 | In the body of a build sequence, the fatal failures are the compile step's unhandled ones and all of the concatenation's. The reported ones are the compile step's handled ones, and the one delete is the clean-up's. |
| Runs.Unreported | gulpfile.js:201-391 | A stream task none of whose stages has a handler never reports an error, and every failure of it is fatal. |
| Runs.SameWorkAt | gulpfile.js:374-391 | Two tables that do the same work agree on each task's kind and chain, and otherwise on its whole definition. |
| Runs.SameWorkExpand | gulpfile.js:422-424 | Two tables that do the same work flatten every list of steps alike. |
| Runs.SameWorkExec | gulpfile.js:422-424 | Two tables that do the same work run every flat list to the same outcome, state and log. |
| TaskRuns.CssFlat | gulpfile.js:243-245 | The steps of `css` are all leaf tasks. |
| TaskRuns.JsFlat | gulpfile.js:354-356 | The steps of `js` are all leaf tasks. |
| TaskRuns.IconFontFlat | gulpfile.js:406-408 | The steps of `icon-font` are all leaf tasks. |
| TaskRuns.SassFlat | gulpfile.js:180-182 | The steps of `sass` are all leaf tasks. |
| TaskRuns.BrowserifyFlat | gulpfile.js:291-293 | The steps of `browserify` are all leaf tasks. |
| TaskRuns.SequenceOrders | gulpfile.js:180-408 | `css` and `js` run compile, concatenate, clean-up, notify in that order. `icon-font`, `sass` and `browserify` run their compile step and then their notification. |
| TaskRuns.DefaultOrder | gulpfile.js:422-424 | `default` runs the steps of `icon-font`, then `css`, then `js`, and only then starts the three watchers. |
| TaskRuns.CompileSassFailures | gulpfile.js:146-174 | `compile-sass` reports an error exactly when the SASS compiler raises it. An error of any other of its stages is fatal. |
| TaskRuns.BrowserifyJsFailures | gulpfile.js:272-285 | `browserify-js` reports an error exactly when the bundler raises it. The rename's and the write's errors are fatal. |
| TaskRuns.ConcatCssFailures | gulpfile.js:201-225 | `concat-css` has no handler: it fails exactly when one of its stages raises an error. |
| TaskRuns.ConcatJsFailures | gulpfile.js:310-328 | `concat-js` has no handler: it fails exactly when one of its stages raises an error. |
| TaskRuns.CompileIconFontFailures | gulpfile.js:374-391 | `compile-icon-font` never reports an error, and an error of any of its stages is fatal. |
| TaskRuns.CssRun | gulpfile.js:243-245 | `css` ends the process exactly when `concat-css` fails, or `compile-sass` fails at a stage other than the SASS compiler. Otherwise its notice is shown exactly when the flag was clear and the compiler reported no error. It deletes `temp/main.css` in production and the dummy pattern in development. |
| TaskRuns.JsRun | gulpfile.js:354-356 | `js` does the same with `browserify-js` (the bundler being its handled stage), `concat-js` and `temp/main.js`. |
| TaskRuns.IconFontRun | gulpfile.js:406-408 | `icon-font` ends the process exactly when a stage of the font chain fails, since none has a handler. Otherwise its notice is shown exactly when the flag was clear, and nothing is deleted. |
| TaskRuns.CssRecovers | gulpfile.js:466-509 | A `css` run whose SASS compiler fails shows no notice, and the next `css` run that compiles shows its notice again. |
| TaskRuns.DefaultRun | gulpfile.js:422-424 | From a clean start in which the only errors are the SASS compiler's and the bundler's, `default` shows the icon font notice. It then shows the css and js notices, each exactly when its own compile step succeeded. It deletes the stylesheet and then the script, or the dummy pattern twice in development. |
| TaskRuns.WatchersStart | gulpfile.js:414-424 | Starting the watcher group changes nothing in the module state. |
| TaskRuns.WrittenTableSameWork | gulpfile.js:146-424 | The table as written and the corrected table do the same work. |
| TaskRuns.WrittenTableRunsAlike | gulpfile.js:146-424 | Over the table as written, every list of steps expands as over the corrected one. Every flat list runs to the same outcome, state and log. |

## Left out

- Plugin behaviour (SASS, autoprefixer, cssmin, browserify, uglify, concat, rename, iconfont, iconfont-css, source maps): each plugin is an opaque stage. `Stages.Pipe` takes what a stage does to the stream as a parameter.
- File system, console and desktop notification I/O are recorded as effects in a log (`Effects.Effect`). No file is read or written.
- `gulp.watch` is not modelled as a running process. Running a watch task, or the parallel watcher group of `default`, only starts watchers and changes no state. What a watcher re-runs and which glob it watches are modelled in the table.
- Stream concurrency and timing: a task that returns its stream or calls `cb` is treated as finished before the next step starts. `Tasks.SignalsCompletion` states which tasks do so. The effect of the finding below is stated on the table, not as an interleaving.
- A plugin failure is an input: a map from the stream tasks that fail to the position of the failing stage in the task's chain and the error text. At most one stage per task fails in a run. A position outside the chain means the task does not fail. A failure at a no-op position is treated like any other unhandled stage error. Clean-up, notification and watch tasks never fail.
- `gutil.env.dev === true` is a boolean parameter `dev`.
- `Runs.Expand`: bounded by a `fuel` parameter, because `runSequence` nesting is not bounded by the type. Running out of fuel gives `None`. The gulpfile nests two levels, and `TaskRuns.DefaultOrder` uses enough fuel for them.
- What a handler does after `this.emit('end')` is modelled as the task finishing. The stages after the failing one produce nothing and raise no error.
- `TaskRuns.DefaultRun`: covers a run from a clear flag in which no fatal failure occurs. Which failures end a run is stated by `Runs.FailSoft`, and by `TaskRuns.CssRun`, `TaskRuns.JsRun` and `TaskRuns.IconFontRun`.
- DummySpec.php is not part of this model; it has no behaviour.

## Findings

| source | as written | input that shows it | evidently intended | confidence | as-written member | corrected member |
|---|---|---|---|---|---|---|
| gulpfile.js:374-391 | `compile-icon-font` starts its stream but does not `return` it, and takes no `cb`. gulp therefore treats it as finished as soon as the function returns. | `gulp` (the `default` task): `icon-font` moves on to its notification, and `default` moves on to `css`, while the font and `assets/sass/_icon-font.scss` are still being written. | Return the stream, as every other stream task does, so that the next step waits for the font and the partial. | not executed | Tasks.IconFontNotAwaited | Tasks.CorrectedTable |
