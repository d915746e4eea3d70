/** The combined configuration files, one per framework: every mode-dependent
    key is computed from the single `env` switch, here the `mode` argument. */
module Combined {
  import opened Wrappers
  import opened Gating
  import opened Strings
  import opened Common
  import opened StyleChain
  import opened Rules
  import opened Plugins
  import opened Output
  import opened Optimization
  import opened ConfigRecord

  /** `env ? MiniCssExtractPlugin.loader : "style-loader"` (React) or `"vue-style-loader"` (Vue). */
  function FirstLoaderFor(fw: Framework, mode: Mode): (f: FirstLoader)
    ensures f == ExtractLoader <==> mode == Production
    ensures mode == Development ==> (f == StyleLoader <==> fw == React)
  {
    if mode == Production then ExtractLoader
    else match fw
      case React => StyleLoader
      case Vue => VueStyleLoader
  }

  /** The combined React file writes the preprocessor as an object with
      options; the combined Vue file passes it bare. */
  function BuilderFor(fw: Framework, mode: Mode): StyleBuilder {
    StyleBuilder(FirstLoaderFor(fw, mode), if fw == React then ThemedPre else BarePre)
  }

  /** `[!env && 'react-refresh/babel'].filter(Boolean)`. */
  function RefreshBabelPlugins(mode: Mode): (r: seq<string>)
    ensures RefreshBabelPlugin in r <==> mode == Development
    ensures |r| <= 1
    ensures mode == Production ==> r == []
  {
    GateContributes(mode == Development, RefreshBabelPlugin);
    Compact([Gate(mode == Development, RefreshBabelPlugin)])
  }

  /** The rules after the four stylesheet rules: images, fonts, scripts. */
  function TailRules(fw: Framework, mode: Mode): seq<Rule> {
    match fw
    case React => [ImageRule, FontRule, ScriptRule(JsxTest, Some(RefreshBabelPlugins(mode)))]
    case Vue => [ImageRule, FontRule, ScriptRule(JsTest, None), VueRule]
  }

  function CombinedRules(fw: Framework, mode: Mode): seq<Rule> {
    StyleRules(BuilderFor(fw, mode)) + TailRules(fw, mode)
  }

  const ReactTailTests := [ImageTest, FontTest, JsxTest]
  const VueTailTests := [ImageTest, FontTest, JsTest, VueTest]

  lemma ReactTailSeparated()
    ensures Separated(ReactTailTests)
  {
    SeparatedCons(JsxTest, []);
    assert [JsxTest] == [JsxTest] + [];
    SeparatedCons(FontTest, [JsxTest]);
    assert [FontTest, JsxTest] == [FontTest] + [JsxTest];
    SeparatedCons(ImageTest, [FontTest, JsxTest]);
    assert ReactTailTests == [ImageTest] + [FontTest, JsxTest];
  }

  lemma VueTailSeparated()
    ensures Separated(VueTailTests)
  {
    SeparatedCons(VueTest, []);
    assert [VueTest] == [VueTest] + [];
    SeparatedCons(JsTest, [VueTest]);
    assert [JsTest, VueTest] == [JsTest] + [VueTest];
    var r2 := [JsTest, VueTest];
    SeparatedCons(FontTest, r2);
    assert [FontTest, JsTest, VueTest] == [FontTest] + r2;
    var r3 := [FontTest, JsTest, VueTest];
    SeparatedCons(ImageTest, r3);
    assert VueTailTests == [ImageTest] + r3;
  }

  lemma StyleSeparatedFromTails()
    ensures forall t | t in StyleTests :: SeparatedFrom(t, ReactTailTests)
    ensures forall t | t in StyleTests :: SeparatedFrom(t, VueTailTests)
  {
  }

  lemma TailRuleTests(fw: Framework, mode: Mode)
    ensures Tests(TailRules(fw, mode)) == if fw == React then ReactTailTests else VueTailTests
  {
    var tail := TailRules(fw, mode);
    assert tail[0].test == ImageTest && tail[1].test == FontTest;
    if fw == React {
      assert tail[2].test == JsxTest;
    } else {
      assert tail[2].test == JsTest && tail[3].test == VueTest;
    }
  }

  /** The tests of the combined rule lists, in order. */
  lemma CombinedTests(fw: Framework, mode: Mode)
    ensures Tests(CombinedRules(fw, mode)) == StyleTests + (if fw == React then ReactTailTests else VueTailTests)
  {
    TestsAppend(StyleRules(BuilderFor(fw, mode)), TailRules(fw, mode));
    StyleRuleTests(BuilderFor(fw, mode));
    TailRuleTests(fw, mode);
  }

  /** No file name is claimed by two end-anchored rules, in either file and mode. */
  lemma CombinedRulesUnambiguous(fw: Framework, mode: Mode)
    ensures Unambiguous(CombinedRules(fw, mode))
  {
    CombinedTests(fw, mode);
    StyleTestsSeparated();
    StyleSeparatedFromTails();
    ReactTailSeparated();
    VueTailSeparated();
    SeparatedAppend(StyleTests, if fw == React then ReactTailTests else VueTailTests);
    SeparatedIsUnambiguous(CombinedRules(fw, mode));
  }

  /** The React `plugins` list: `env && …` entries, then `filter(Boolean)`. */
  function ReactPlugins(mode: Mode): (ps: seq<Plugin>)
    ensures mode == Production ==> ps == [SourceLint, HtmlShell, CssExtract, CopyPublic]
    ensures mode == Development ==> ps == [SourceLint, HtmlShell, ReactRefreshPlugin]
  {
    var prod := mode == Production;
    var a, b, c, d, e := Some(SourceLint), Some(HtmlShell), Gate(prod, CssExtract), Gate(prod, CopyPublic),
                         Gate(!prod, ReactRefreshPlugin);
    CompactFive(a, b, c, d, e);
    Compact([a, b, c, d, e])
  }

  /** The Vue `plugins` list: `env && …` entries, then `filter(Boolean)`. */
  function VuePlugins(mode: Mode): (ps: seq<Plugin>)
    ensures mode == Production ==> ps == [SourceLint, HtmlShell, CssExtract, CopyPublic, VueLoaderPlugin, VueFlags]
    ensures mode == Development ==> ps == [SourceLint, HtmlShell, VueLoaderPlugin, VueFlags]
  {
    var prod := mode == Production;
    var a, b, c, d, e, f := Some(SourceLint), Some(HtmlShell), Gate(prod, CssExtract), Gate(prod, CopyPublic),
                            Some(VueLoaderPlugin), Some(VueFlags);
    CompactSix(a, b, c, d, e, f);
    Compact([a, b, c, d, e, f])
  }

  function CombinedPlugins(fw: Framework, mode: Mode): seq<Plugin> {
    match fw
    case React => ReactPlugins(mode)
    case Vue => VuePlugins(mode)
  }

  /** The `optimization` record; only the React file declares cache groups. */
  function CombinedOptimization(fw: Framework, mode: Mode): Optimization {
    Optimization(SplitChunks("all", if fw == React then Some(ReactCacheGroups) else None),
                 RuntimeChunkName, Some(mode == Production), Some(Minimizers))
  }

  /** `module.exports` of a combined file, for the mode the environment selects. */
  function Assemble(fw: Framework, mode: Mode): (c: Config)
    ensures c.mode == ModeName(mode) && c.devtool == Devtool(mode)
    ensures c.optimization.minimize == Some(mode == Production)
    ensures Hashed(c.output.filename) <==> mode == Production
    ensures c.output.path.Some? <==> mode == Production
    ensures Unambiguous(c.rules)
    ensures VueLoaderPlugin in c.plugins <==> fw == Vue
  {
    CombinedRulesUnambiguous(fw, mode);
    PluginGating(fw, mode);
    var output, rules, plugins := CombinedOutput(mode), CombinedRules(fw, mode), CombinedPlugins(fw, mode);
    Config(Entry, output, rules, plugins,
           ModeName(mode), Devtool(mode), CombinedOptimization(fw, mode),
           if fw == React then ReactExtensions else VueExtensions,
           Some(LocalServer), if fw == React then Some(false) else None)
  }

  /** Which plugins the gates let through, and that the always-on ones lead. */
  lemma PluginGating(fw: Framework, mode: Mode)
    ensures |CombinedPlugins(fw, mode)| >= 2
    ensures CombinedPlugins(fw, mode)[0] == SourceLint && CombinedPlugins(fw, mode)[1] == HtmlShell
    ensures CssExtract in CombinedPlugins(fw, mode) <==> mode == Production
    ensures CopyPublic in CombinedPlugins(fw, mode) <==> mode == Production
    ensures ReactRefreshPlugin in CombinedPlugins(fw, mode) <==> fw == React && mode == Development
    ensures VueLoaderPlugin in CombinedPlugins(fw, mode) <==> fw == Vue
    ensures VueFlags in CombinedPlugins(fw, mode) <==> fw == Vue
  {
    if fw == React {
      if mode == Production { ReactProductionPlugins(); } else { ReactDevelopmentPlugins(); }
    } else {
      if mode == Production { VueProductionPlugins(); } else { VueDevelopmentPlugins(); }
    }
  }

  lemma ReactProductionPlugins()
    ensures var ps := CombinedPlugins(React, Production);
      |ps| >= 2 && ps[0] == SourceLint && ps[1] == HtmlShell && CssExtract in ps && CopyPublic in ps
      && ReactRefreshPlugin !in ps && VueLoaderPlugin !in ps && VueFlags !in ps
  {
  }

  lemma ReactDevelopmentPlugins()
    ensures var ps := CombinedPlugins(React, Development);
      |ps| >= 2 && ps[0] == SourceLint && ps[1] == HtmlShell && CssExtract !in ps && CopyPublic !in ps
      && ReactRefreshPlugin in ps && VueLoaderPlugin !in ps && VueFlags !in ps
  {
  }

  lemma VueProductionPlugins()
    ensures var ps := CombinedPlugins(Vue, Production);
      |ps| >= 2 && ps[0] == SourceLint && ps[1] == HtmlShell && CssExtract in ps && CopyPublic in ps
      && ReactRefreshPlugin !in ps && VueLoaderPlugin in ps && VueFlags in ps
  {
  }

  lemma VueDevelopmentPlugins()
    ensures var ps := CombinedPlugins(Vue, Development);
      |ps| >= 2 && ps[0] == SourceLint && ps[1] == HtmlShell && CssExtract !in ps && CopyPublic !in ps
      && ReactRefreshPlugin !in ps && VueLoaderPlugin in ps && VueFlags in ps
  {
  }

  /** The copy plugin leaves the HTML template to the HTML plugin, and the
      Vue feature flags are the same in both modes. */
  lemma PluginOptions()
    ensures CopyPublic.patterns == [CopyPattern(PublicDir, DistDir, ["**/index.html*"])]
    ensures VueFlags.definitions == map["__VUE_OPTIONS_API__" := true, "__VUE_PROD_DEVTOOLS__" := false]
    ensures forall mode: Mode :: VueFlags in CombinedPlugins(Vue, mode)
  {
  }

  /** The React script rule is scoped to `src`, and only development gets
      the refresh Babel plugin. */
  lemma ReactScriptRule(mode: Mode)
    ensures |CombinedRules(React, mode)| == 7
    ensures CombinedRules(React, mode)[6]
            == LoaderRule(JsxTest, Some(SrcDir), "babel-loader",
                          Some(BabelOptions(true, false, Some(if mode == Development then [RefreshBabelPlugin] else []))))
  {
    var style, tail := StyleRules(BuilderFor(React, mode)), TailRules(React, mode);
    assert CombinedRules(React, mode)[6] == tail[2];
    GateContributes(mode == Development, RefreshBabelPlugin);
  }

  /** The Vue script rule is scoped to `src` with no mode-dependent plugin;
      `.vue` files go to `vue-loader`. */
  lemma VueScriptRules(mode: Mode)
    ensures |CombinedRules(Vue, mode)| == 8
    ensures CombinedRules(Vue, mode)[6] == LoaderRule(JsTest, Some(SrcDir), "babel-loader", Some(BabelOptions(true, false, None)))
    ensures CombinedRules(Vue, mode)[7] == LoaderRule(VueTest, None, "vue-loader", None)
  {
    var style, tail := StyleRules(BuilderFor(Vue, mode)), TailRules(Vue, mode);
    assert CombinedRules(Vue, mode)[6] == tail[2];
    assert CombinedRules(Vue, mode)[7] == tail[3];
  }

  /** Images may become data URLs below 10 KiB; fonts are always separate files. */
  lemma AssetRules(fw: Framework, mode: Mode)
    ensures CombinedRules(fw, mode)[4] == AssetRule(ImageTest, Asset(10240))
    ensures CombinedRules(fw, mode)[5] == AssetRule(FontTest, AssetResource)
  {
    var style, tail := StyleRules(BuilderFor(fw, mode)), TailRules(fw, mode);
    assert |style| == 4;
    if fw == React {
      assert CombinedRules(fw, mode)[4] == tail[0] == ImageRule;
      assert CombinedRules(fw, mode)[5] == tail[1] == FontRule;
    } else {
      assert CombinedRules(fw, mode)[4] == tail[0] == ImageRule;
      assert CombinedRules(fw, mode)[5] == tail[1] == FontRule;
    }
  }

  /** The first style loader extracts to a file exactly in production, for
      every stylesheet rule. */
  lemma FirstStyleLoader(fw: Framework, mode: Mode, i: nat)
    requires i < 4
    ensures CombinedRules(fw, mode)[i].UseRule?
    ensures CombinedRules(fw, mode)[i].use[0].loader == "MiniCssExtractPlugin.loader" <==> mode == Production
  {
    var style := StyleRules(BuilderFor(fw, mode));
    assert CombinedRules(fw, mode)[i] == style[i];
    StyleRuleFirst(BuilderFor(fw, mode), i);
  }

  /** Which record each key of a combined file comes from: only the React
      file declares cache groups, and the extension list is per framework. */
  lemma AssembleParts(fw: Framework, mode: Mode)
    ensures Assemble(fw, mode).rules == CombinedRules(fw, mode)
    ensures Assemble(fw, mode).plugins == CombinedPlugins(fw, mode)
    ensures Assemble(fw, mode).output == CombinedOutput(mode)
    ensures Assemble(fw, mode).optimization.splitChunks.cacheGroups == (if fw == React then Some(ReactCacheGroups) else None)
    ensures Assemble(fw, mode).optimization.runtimeChunk == RuntimeChunkName
    ensures Assemble(fw, mode).extensions == (if fw == React then [".jsx", ".js", ".json"] else [".vue", ".js", ".json"])
  {
  }
}
