/** The three single-mode files: the same records as the combined files,
    written out for one mode with no `env` switch. */
module SplitConfigs {
  import opened Wrappers
  import opened Common
  import opened StyleChain
  import opened Rules
  import opened Plugins
  import opened Output
  import opened Optimization
  import opened ConfigRecord

  /** The React production-only file. */
  function ReactProdConfig(): Config {
    Config(
      Entry,
      Output(Some(DistDir), HashedFilename, HashedChunkFilename, AssetModuleFilename, Some(true)),
      StyleRules(StyleBuilder(ExtractLoader, BarePre)) + [ImageRule, FontRule, ScriptRule(JsxTest, None)],
      [SourceLint, HtmlShell, CssExtract, CopyPublic],
      "production",
      "source-map",
      Optimization(SplitChunks("all", None), RuntimeChunkName, None, Some(Minimizers)),
      ReactExtensions,
      None,
      None)
  }

  /** The React development-only file. */
  function ReactDevConfig(): Config {
    Config(
      Entry,
      Output(None, PlainFilename, PlainChunkFilename, AssetModuleFilename, None),
      StyleRules(StyleBuilder(StyleLoader, BarePre))
        + [ImageRule, FontRule, ScriptRule(JsxTest, Some([RefreshBabelPlugin]))],
      [SourceLint, HtmlShell, ReactRefreshPlugin],
      "development",
      "cheap-module-source-map",
      Optimization(SplitChunks("all", None), RuntimeChunkName, None, None),
      ReactExtensions,
      Some(LocalServer),
      None)
  }

  /** The Vue development-only file. */
  function VueDevConfig(): Config {
    Config(
      Entry,
      Output(None, PlainFilename, PlainChunkFilename, AssetModuleFilename, None),
      StyleRules(StyleBuilder(VueStyleLoader, BarePre))
        + [ImageRule, FontRule, ScriptRule(JsTest, None), VueRule],
      [SourceLint, HtmlShell, VueLoaderPlugin, VueFlags],
      "development",
      "cheap-module-source-map",
      Optimization(SplitChunks("all", None), RuntimeChunkName, None, None),
      VueExtensions,
      Some(LocalServer),
      None)
  }

  /** Every stylesheet rule of a split file starts with that file's fixed
      first loader, and its preprocessor is passed bare. */
  lemma SplitStyleChains(i: nat)
    requires i < 4
    ensures ReactProdConfig().rules[i].use[0].loader == "MiniCssExtractPlugin.loader"
    ensures ReactDevConfig().rules[i].use[0].loader == "style-loader"
    ensures VueDevConfig().rules[i].use[0].loader == "vue-style-loader"
    ensures 1 <= i ==> ReactProdConfig().rules[i].use[3].options == NoOptions
    ensures 1 <= i ==> ReactDevConfig().rules[i].use[3].options == NoOptions
    ensures 1 <= i ==> VueDevConfig().rules[i].use[3].options == NoOptions
  {
    var p, d, v := StyleBuilder(ExtractLoader, BarePre), StyleBuilder(StyleLoader, BarePre),
                   StyleBuilder(VueStyleLoader, BarePre);
    var pt := [ImageRule, FontRule, ScriptRule(JsxTest, None)];
    var dt := [ImageRule, FontRule, ScriptRule(JsxTest, Some([RefreshBabelPlugin]))];
    var vt := [ImageRule, FontRule, ScriptRule(JsTest, None), VueRule];
    assert ReactProdConfig().rules == StyleRules(p) + pt;
    assert ReactDevConfig().rules == StyleRules(d) + dt;
    assert VueDevConfig().rules == StyleRules(v) + vt;
    LeadingStyleRule(p, pt, i);
    LeadingStyleRule(d, dt, i);
    LeadingStyleRule(v, vt, i);
  }

  /** A rule list that opens with a bare builder's stylesheet rules has that
      builder's first loader, and a bare preprocessor, in each of them. */
  lemma LeadingStyleRule(b: StyleBuilder, tail: seq<Rule>, i: nat)
    requires b.preForm == BarePre && i < 4
    ensures (StyleRules(b) + tail)[i].UseRule?
    ensures (StyleRules(b) + tail)[i].use[0].loader == FirstLoaderName(b.first)
    ensures 1 <= i ==> |(StyleRules(b) + tail)[i].use| == 4 && (StyleRules(b) + tail)[i].use[3].options == NoOptions
  {
    assert (StyleRules(b) + tail)[i] == StyleRules(b)[i];
    if i == 0 {
      StyleRuleFirst(b, 0);
    } else {
      BareStyleRule(b, i);
    }
  }

  /** A preprocessor stylesheet rule built with a bare preprocessor starts
      with the builder's first loader and passes no preprocessor options. */
  lemma BareStyleRule(b: StyleBuilder, i: nat)
    requires b.preForm == BarePre && 1 <= i < 4
    ensures StyleRules(b)[i].UseRule? && |StyleRules(b)[i].use| == 4
    ensures StyleRules(b)[i].use[0].loader == FirstLoaderName(b.first)
    ensures StyleRules(b)[i].use[3].options == NoOptions
  {
    StyleRuleFirst(b, i);
    var pre := if i == 1 then "less-loader" else if i == 2 then "sass-loader" else "stylus-loader";
    assert StyleRules(b)[i].use == GetStyleLoaders(b, Some(pre));
    PreprocessorIsLast(b, Some(pre));
  }

  /** The production file writes content-hashed bundles under `../dist` and
      clears it; the development files name bundles without a hash, set no
      output path and leave `clean` out. */
  lemma SplitOutputs()
    ensures var o := ReactProdConfig().output;
      o.path == Some(DistDir) && Hashed(o.filename) && Hashed(o.chunkFilename) && o.clean == Some(true)
    ensures var o := ReactDevConfig().output;
      o.path.None? && !Hashed(o.filename) && !Hashed(o.chunkFilename) && o.clean.None?
    ensures var o := VueDevConfig().output;
      o.path.None? && !Hashed(o.filename) && !Hashed(o.chunkFilename) && o.clean.None?
  {
    HashedTemplates();
  }
}
