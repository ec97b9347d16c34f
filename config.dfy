/**
 * The CONFIGURATION section of the gulpfile: the fixed path constants and
 * the compile mode, which a single command-line flag switches between the
 * production defaults and the development settings.
 */
module Config {

  /** `sassStyle`, the output style handed to the SASS compiler. */
  datatype SassStyle = Compressed | Expanded

  /** The two modes the gulpfile can run in. */
  datatype Mode = Dev | Production

  /** The five module-level settings the mode block assigns. */
  datatype Config = Config(
    isProduction: bool,
    sassStyle: SassStyle,
    sourceMap: bool,
    combineMediaQueries: bool,
    cleanUpFiles: bool)
  {
    function Mode(): Mode {
      if isProduction then Production else Dev
    }

    /**
     * The settings all follow the one mode: source maps only in development,
     * media-query combination and clean-up only in production, and the
     * compressed SASS style exactly in production.
     */
    predicate Consistent() {
      && sourceMap == !isProduction
      && combineMediaQueries == isProduction
      && cleanUpFiles == isProduction
      && sassStyle == (if isProduction then Compressed else Expanded)
    }
  }

  /** `gutil.env.dev === true`: the run was started with `--dev`. */
  function ModeOf(dev: bool): Mode {
    if dev then Dev else Production
  }

  /**
   * The settings in force for a run: the development settings when `--dev`
   * was given, the production defaults otherwise.
   */
  function Resolve(dev: bool): (c: Config)
    ensures c.Consistent()
    ensures c.Mode() == ModeOf(dev)
    ensures c.isProduction == !dev
    ensures c.sourceMap == dev
    ensures c.combineMediaQueries == !dev && c.cleanUpFiles == !dev
    ensures c.sassStyle == (if dev then Expanded else Compressed)
  {
    if dev then Config(false, Expanded, true, false, false)
    else Config(true, Compressed, false, true, true)
  }

  /** A configuration is never a mix of the two modes: it is consistent exactly when some flag value resolves to it. */
  lemma ConsistentIffResolved(c: Config)
    ensures c.Consistent() <==> (c == Resolve(true) || c == Resolve(false))
  {
    if c.Consistent() {
      assert c == Resolve(!c.isProduction);
    }
  }

  /** The mode is determined by the configuration alone, so the flag can be read back from it. */
  lemma ResolveInjective(d1: bool, d2: bool)
    ensures Resolve(d1) == Resolve(d2) <==> d1 == d2
  {
  }

  // Base paths
  const Assets := "assets/"
  const Bower := "bower_components/"
  const Compiled := "temp/"
  const ProductionDir := "public/"

  // Source and destination folders
  const ScriptsSrc := Assets + "js/"
  const ScriptsCompiled := Compiled + ""
  const ScriptsProduction := ProductionDir + "js/"
  const StylesSrc := Assets + "sass/"
  const StylesCompiled := Compiled + ""
  const StylesProduction := ProductionDir + "css/"

  // Source files to compile
  const StylesSrcGlob := StylesSrc + "**/*.scss"
  const ScriptsSrcFiles := [ScriptsSrc + "main.js"]

  // Output files, compiled and production
  const StylesCompiledFile := "main.css"
  const StylesProductionFile := "styles.css"
  const ScriptsCompiledFile := "main.js"
  const ScriptsProductionFile := "scripts.js"

  // Files to concatenate, vendor files first, compiler output last
  const NormalizeCss := Bower + "normalize.css/normalize.css"
  const ModernizrJs := Bower + "modernizr/modernizr.js"
  const JqueryJs := Bower + "jquery/dist/jquery.js"
  const ConcatStyles := [NormalizeCss, StylesCompiled + StylesCompiledFile]
  const ConcatScripts := [ModernizrJs, JqueryJs, ScriptsCompiled + ScriptsCompiledFile]

  // Icon font settings
  const IconFontName := "icon-font"
  const IconFontSrc := Assets + "icon-font/"
  const IconFontDest := ProductionDir + "fonts/"
  const IconFontCss2Font := "../fonts/"
  const IconFontTemplate := Assets + "icon-font-template.scss"
  const IconFontPartial := StylesSrc + "_icon-font.scss"

  /** Browser compatibility list handed to the autoprefixer. */
  const CssBrowsers := ["last 2 version", "safari 5", "ie 8", "ie 9", "opera 12.1", "ios 6", "android 4"]

  /**
   * The concatenation lists put the vendor files first, in their declared
   * order, and the file the compile step writes last.
   */
  lemma VendorFilesFirst()
    ensures ConcatStyles[0] == NormalizeCss && Bower <= NormalizeCss
    ensures ConcatStyles[|ConcatStyles| - 1] == StylesCompiled + StylesCompiledFile
    ensures ConcatScripts[0] == ModernizrJs && ConcatScripts[1] == JqueryJs
    ensures Bower <= ModernizrJs && Bower <= JqueryJs
    ensures ConcatScripts[|ConcatScripts| - 1] == ScriptsCompiled + ScriptsCompiledFile
    ensures !(Bower <= StylesCompiled + StylesCompiledFile) && !(Bower <= ScriptsCompiled + ScriptsCompiledFile)
  {
    assert (StylesCompiled + StylesCompiledFile)[0] == 't';
    assert (ScriptsCompiled + ScriptsCompiledFile)[0] == 't';
  }
}
