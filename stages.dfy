/**
 * The stream tasks of the gulpfile as chains of stages. Every plugin is an
 * opaque stage; a stage switched off by a setting is piped through
 * `gutil.noop()`, kept here as an explicit `Noop` in its place.
 */
module Stages {
  import opened Config
  import opened Effects
  import PathDepth

  datatype Option<T> = None | Some(value: T)

  datatype Stage =
    | Src(globs: seq<string>, base: Option<string>)             // gulp.src
    | Dest(dir: string)                                          // gulp.dest
    | Noop                                                       // gutil.noop()
    | SourcemapsInit(loadMaps: bool)                             // sourcemaps.init
    | SourcemapsWrite                                            // sourcemaps.write
    | Sass(outputStyle: SassStyle, onError: ErrorKind)           // sass, with its .on('error') handler
    | CombineMq                                                  // combineMq
    | Prefix(browsers: seq<string>)                              // prefix (autoprefixer)
    | Cssmin(keepSpecialComments: nat)                           // cssmin
    | Concat(file: string)                                       // concat
    | Browserify(debug: bool, onError: ErrorKind)                // browserify, with its .on('error') handler
    | Rename(file: string)                                       // rename
    | Uglify                                                     // uglify
    | IconfontCss(fontName: string, path: string, targetPath: string, fontPath: string) // iconfontcss
    | Iconfont(fontName: string, normalize: bool)                // iconfont
  {
    predicate IsSourcemaps() {
      SourcemapsInit? || SourcemapsWrite?
    }

    /** The stage reports its failures to an error handler instead of leaving the error unhandled. */
    function Handler(): Option<ErrorKind> {
      match this
      case Sass(_, k) => Some(k)
      case Browserify(_, k) => Some(k)
      case _ => None
    }
  }

  /** The five stream tasks. */
  datatype Pipeline = CompileSassStream | ConcatCssStream | BrowserifyJsStream | ConcatJsStream | CompileIconFontStream

  /** Some stage of the chain writes or starts a source map. */
  predicate UsesSourcemaps(p: seq<Stage>) {
    exists i :: 0 <= i < |p| && p[i].IsSourcemaps()
  }

  /** Stage `a` occurs at an earlier position than stage `b`. */
  predicate Before(p: seq<Stage>, a: Stage, b: Stage) {
    exists i, j :: 0 <= i < j < |p| && p[i] == a && p[j] == b
  }

  /** A chain reads its sources first and writes its output last. */
  predicate Framed(p: seq<Stage>) {
    |p| >= 2 && p[0].Src? && p[|p| - 1].Dest?
    && forall i :: 0 < i < |p| - 1 ==> !p[i].Src? && !p[i].Dest?
  }

  /** `compile-sass`. */
  function CompileSass(c: Config): (p: seq<Stage>)
    ensures Framed(p) && p[0].globs == [StylesSrcGlob] && p[|p| - 1] == Dest(StylesCompiled)
    ensures UsesSourcemaps(p) <==> c.sourceMap
    ensures CombineMq in p <==> c.combineMediaQueries
    ensures Prefix(CssBrowsers) in p
    ensures forall s :: s in p ==> !s.Cssmin? && !s.Uglify?
    ensures Sass(c.sassStyle, SassError) in p
    ensures forall s :: s in p && s.Sass? ==> s.outputStyle == c.sassStyle && s.onError == SassError
  {
    var p := [
      Src([StylesSrcGlob], None),
      if c.sourceMap then SourcemapsInit(false) else Noop,
      Sass(c.sassStyle, SassError),
      if c.sourceMap then SourcemapsWrite else Noop,
      if c.sourceMap then SourcemapsInit(true) else Noop,
      if c.combineMediaQueries then CombineMq else Noop,
      Prefix(CssBrowsers),
      if c.sourceMap then SourcemapsWrite else Noop,
      Dest(StylesCompiled)
    ];
    assert c.sourceMap ==> p[3].IsSourcemaps();
    assert p[2] == Sass(c.sassStyle, SassError) && p[6] == Prefix(CssBrowsers);
    p
  }

  /**
   * In `compile-sass` the SASS compiler runs before the autoprefixer, media
   * queries are combined before prefixing, and in development the SASS map
   * is written and reloaded around the compiler and a second map is written
   * after prefixing.
   */
  lemma CompileSassOrder(c: Config)
    ensures var p := CompileSass(c);
      && Before(p, Sass(c.sassStyle, SassError), Prefix(CssBrowsers))
      && (c.combineMediaQueries ==> Before(p, CombineMq, Prefix(CssBrowsers)))
      && (c.sourceMap ==> Before(p, SourcemapsInit(false), Sass(c.sassStyle, SassError)))
      && (c.sourceMap ==> Before(p, Sass(c.sassStyle, SassError), SourcemapsWrite))
      && (c.sourceMap ==> Before(p, SourcemapsInit(true), Prefix(CssBrowsers)))
      && (c.sourceMap ==> Before(p, Prefix(CssBrowsers), SourcemapsWrite))
  {
    var p := CompileSass(c);
    assert p[2] == Sass(c.sassStyle, SassError) && p[6] == Prefix(CssBrowsers);
    assert c.combineMediaQueries ==> p[5] == CombineMq;
    assert c.sourceMap ==> p[1] == SourcemapsInit(false) && p[3] == SourcemapsWrite && p[4] == SourcemapsInit(true) && p[7] == SourcemapsWrite;
  }

  /** `concat-css`. */
  function ConcatCss(c: Config): (p: seq<Stage>)
    ensures Framed(p) && p[0].globs == ConcatStyles && p[|p| - 1] == Dest(StylesProduction)
    ensures UsesSourcemaps(p) <==> c.sourceMap
    ensures Cssmin(0) in p <==> c.isProduction
  {
    var p := [
      Src(ConcatStyles, None),
      if c.sourceMap then SourcemapsInit(true) else Noop,
      Concat(StylesProductionFile),
      if c.combineMediaQueries then CombineMq else Noop,
      Prefix(CssBrowsers),
      if c.isProduction then Cssmin(0) else Noop,
      if c.sourceMap then SourcemapsWrite else Noop,
      Dest(StylesProduction)
    ];
    assert c.sourceMap ==> p[1].IsSourcemaps();
    p
  }

  /** The other stages of `concat-css`: media queries combined exactly in production, prefixing always, no handler. */
  lemma ConcatCssStages(c: Config)
    ensures var p := ConcatCss(c);
      && (CombineMq in p <==> c.combineMediaQueries)
      && (forall s :: s in p && s.Cssmin? ==> s.keepSpecialComments == 0)
      && Prefix(CssBrowsers) in p
      && (forall s :: s in p ==> s.Handler() == None)
  {
    var p := ConcatCss(c);
    assert p[4] == Prefix(CssBrowsers);
    assert c.combineMediaQueries ==> p[3] == CombineMq;
  }


  /**
   * In `concat-css` the files are joined before anything else runs on
   * them, prefixing comes after media-query combination, minification after
   * prefixing, and in development the map is written last.
   */
  lemma ConcatCssOrder(c: Config)
    ensures var p := ConcatCss(c);
      && Before(p, Concat(StylesProductionFile), Prefix(CssBrowsers))
      && (c.combineMediaQueries ==> Before(p, Concat(StylesProductionFile), CombineMq))
      && (c.combineMediaQueries ==> Before(p, CombineMq, Prefix(CssBrowsers)))
      && (c.isProduction ==> Before(p, Prefix(CssBrowsers), Cssmin(0)))
      && (c.sourceMap ==> Before(p, SourcemapsInit(true), Concat(StylesProductionFile)))
      && (c.sourceMap ==> Before(p, Prefix(CssBrowsers), SourcemapsWrite))
  {
    var p := ConcatCss(c);
    assert p[2] == Concat(StylesProductionFile) && p[4] == Prefix(CssBrowsers);
    assert c.combineMediaQueries ==> p[3] == CombineMq;
    assert c.isProduction ==> p[5] == Cssmin(0);
    assert c.sourceMap ==> p[1] == SourcemapsInit(true) && p[6] == SourcemapsWrite;
  }

  /** `browserify-js`: the bundle carries debug source maps exactly when source maps are on. */
  function BrowserifyJs(c: Config): (p: seq<Stage>)
    ensures Framed(p) && p[0].globs == ScriptsSrcFiles && p[|p| - 1] == Dest(ScriptsCompiled)
    ensures !UsesSourcemaps(p)
    ensures Browserify(c.sourceMap, JsError) in p
    ensures forall s :: s in p && s.Browserify? ==> s.debug == c.sourceMap && s.onError == JsError
    ensures forall s :: s in p && s.Rename? ==> s.file == ScriptsCompiledFile
    ensures Before(p, Browserify(c.sourceMap, JsError), Rename(ScriptsCompiledFile))
  {
    var p := [
      Src(ScriptsSrcFiles, None),
      Browserify(c.sourceMap, JsError),
      Rename(ScriptsCompiledFile),
      Dest(ScriptsCompiled)
    ];
    assert p[1] == Browserify(c.sourceMap, JsError) && p[2] == Rename(ScriptsCompiledFile);
    p
  }

  /** `concat-js`. */
  function ConcatJs(c: Config): (p: seq<Stage>)
    ensures Framed(p) && p[0].globs == ConcatScripts && p[|p| - 1] == Dest(ScriptsProduction)
    ensures UsesSourcemaps(p) <==> c.sourceMap
    ensures c.sourceMap ==> Before(p, SourcemapsInit(true), Concat(ScriptsProductionFile))
    ensures c.sourceMap ==> Before(p, Concat(ScriptsProductionFile), SourcemapsWrite)
    ensures Uglify in p <==> c.isProduction
    ensures c.isProduction ==> Before(p, Concat(ScriptsProductionFile), Uglify)
    ensures forall s :: s in p ==> !s.Prefix? && !s.CombineMq? && !s.Cssmin?
    ensures forall s :: s in p ==> s.Handler() == None
  {
    var p := [
      Src(ConcatScripts, None),
      if c.sourceMap then SourcemapsInit(true) else Noop,
      Concat(ScriptsProductionFile),
      if c.isProduction then Uglify else Noop,
      if c.sourceMap then SourcemapsWrite else Noop,
      Dest(ScriptsProduction)
    ];
    assert c.sourceMap ==> p[1].IsSourcemaps() && p[1] == SourcemapsInit(true) && p[4] == SourcemapsWrite;
    assert p[2] == Concat(ScriptsProductionFile);
    assert c.isProduction ==> p[3] == Uglify;
    p
  }

  /** `compile-icon-font`: the partial is written back into the style sources, relative to the font folder. */
  function CompileIconFont(): (p: seq<Stage>)
    ensures Framed(p) && p[|p| - 1] == Dest(IconFontDest) && p[0].base == Some(".")
    ensures p[0].globs == [IconFontSrc + "*.svg"]
    ensures Before(p, IconfontCss(IconFontName, IconFontTemplate, PathDepth.BackPath(IconFontDest) + IconFontPartial,
                                  IconFontCss2Font),
                   Iconfont(IconFontName, true))
    ensures forall s :: s in p && s.IconfontCss? ==> s.targetPath == PathDepth.BackPath(IconFontDest) + IconFontPartial
    ensures forall s :: s in p ==> s.Handler() == None && !s.IsSourcemaps()
  {
    var p := [
      Src([IconFontSrc + "*.svg"], Some(".")),
      IconfontCss(IconFontName, IconFontTemplate, PathDepth.BackPath(IconFontDest) + IconFontPartial, IconFontCss2Font),
      Iconfont(IconFontName, true),
      Dest(IconFontDest)
    ];
    assert p[1].IconfontCss? && p[2] == Iconfont(IconFontName, true);
    p
  }

  /** The globs a chain reads, as its `gulp.src` stage names them. */
  function Sources(p: seq<Stage>): seq<string> {
    if p != [] && p[0].Src? then p[0].globs else []
  }

  /** The chain of a stream task under a configuration. */
  function StagesOf(q: Pipeline, c: Config): seq<Stage> {
    match q
    case CompileSassStream => CompileSass(c)
    case ConcatCssStream => ConcatCss(c)
    case BrowserifyJsStream => BrowserifyJs(c)
    case ConcatJsStream => ConcatJs(c)
    case CompileIconFontStream => CompileIconFont()
  }

  /** The error handler attached to a chain, if any of its stages has one. */
  function HandlerOf(p: seq<Stage>): (h: Option<ErrorKind>)
    ensures h.None? <==> forall i :: 0 <= i < |p| ==> p[i].Handler().None?
    ensures h.Some? ==> exists i :: 0 <= i < |p| && p[i].Handler() == h
  {
    if p == [] then None
    else if p[0].Handler().Some? then p[0].Handler()
    else HandlerOf(p[1..])
  }

  /** The position in `compile-sass` of the SASS compiler, the one stage with an error handler. */
  const SassStage := 2

  /** The position in `browserify-js` of the bundler, the one stage with an error handler. */
  const BrowserifyStage := 1

  /**
   * `.on('error', …)` is attached to the stream the plugin returns, so it
   * catches the errors of that one stage: in `compile-sass` only the SASS
   * compiler's, in either mode.
   */
  lemma CompileSassHandlerAt(c: Config)
    ensures SassStage < |CompileSass(c)| && CompileSass(c)[SassStage] == Sass(c.sassStyle, SassError)
    ensures forall i :: 0 <= i < |CompileSass(c)| ==> (CompileSass(c)[i].Handler().Some? <==> i == SassStage)
  {
    var p := CompileSass(c);
    assert p[0].Src? && p[1].Handler().None? && p[3].Handler().None? && p[4].Handler().None?;
    assert p[5].Handler().None? && p[6].Handler().None? && p[7].Handler().None? && p[8].Dest?;
  }

  /** In `browserify-js` only the bundler's errors are caught, in either mode. */
  lemma BrowserifyJsHandlerAt(c: Config)
    ensures BrowserifyStage < |BrowserifyJs(c)| && BrowserifyJs(c)[BrowserifyStage] == Browserify(c.sourceMap, JsError)
    ensures forall i :: 0 <= i < |BrowserifyJs(c)| ==> (BrowserifyJs(c)[i].Handler().Some? <==> i == BrowserifyStage)
  {
    var p := BrowserifyJs(c);
    assert p[0].Src? && p[2].Rename? && p[3].Dest?;
  }

  /** The error handler each stream task attaches: only `compile-sass` and `browserify-js` have one. */
  function StreamHandler(q: Pipeline): Option<ErrorKind> {
    match q
    case CompileSassStream => Some(SassError)
    case BrowserifyJsStream => Some(JsError)
    case _ => None
  }

  /** The handler found in a stream's chain is the one named for it, in either mode. */
  lemma HandlerOfPipeline(q: Pipeline, c: Config)
    ensures HandlerOf(StagesOf(q, c)) == StreamHandler(q)
  {
    match q
    case CompileSassStream =>
      var p := CompileSass(c);
      assert p[0].Handler() == None && p[1].Handler() == None && p[2].Handler() == Some(SassError);
      assert HandlerOf(p) == HandlerOf(p[1..]);
      assert HandlerOf(p[1..]) == HandlerOf(p[2..]);
    case BrowserifyJsStream =>
      var p := BrowserifyJs(c);
      assert p[0].Handler() == None && p[1].Handler() == Some(JsError);
      assert HandlerOf(p) == HandlerOf(p[1..]);
    case ConcatCssStream =>
      ConcatCssStages(c);
      NoHandler(ConcatCss(c));
    case ConcatJsStream =>
      NoHandler(ConcatJs(c));
    case CompileIconFontStream =>
      NoHandler(CompileIconFont());
  }

  /** A chain none of whose stages has a handler has none. */
  lemma NoHandler(p: seq<Stage>)
    requires forall s :: s in p ==> s.Handler() == None
    ensures HandlerOf(p) == None
  {
    assert forall i :: 0 <= i < |p| ==> p[i] in p;
  }

  /** The chain with the pass-through stages dropped. */
  function Effective(p: seq<Stage>): (r: seq<Stage>)
    ensures Noop !in r
    ensures forall s :: s in r ==> s in p
  {
    if p == [] then []
    else if p[0] == Noop then Effective(p[1..])
    else [p[0]] + Effective(p[1..])
  }

  /**
   * Piping a stream through a chain: each stage is applied in order. What a
   * plugin does to the stream is left to `apply`.
   */
  function Pipe<S>(p: seq<Stage>, apply: (Stage, S) -> S, input: S): S {
    if p == [] then input
    else Pipe(p[1..], apply, apply(p[0], input))
  }

  /**
   * `gutil.noop()` passes the stream on unchanged, so a chain that inserts it
   * for a switched-off stage behaves like the chain that leaves the stage
   * out, whatever the other plugins do.
   */
  lemma {:induction false} NoopsPassThrough<S>(p: seq<Stage>, apply: (Stage, S) -> S, input: S)
    requires forall x :: apply(Noop, x) == x
    ensures Pipe(p, apply, input) == Pipe(Effective(p), apply, input)
  {
    if p != [] {
      if p[0] == Noop {
        NoopsPassThrough(p[1..], apply, input);
      } else {
        NoopsPassThrough(p[1..], apply, apply(p[0], input));
        var e := [p[0]] + Effective(p[1..]);
        assert e[0] == p[0] && e[1..] == Effective(p[1..]);
      }
    }
  }
}
