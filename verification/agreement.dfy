/** How each single-mode file relates to the combined file of its framework
    at that mode: what agrees, and where the copies have drifted apart. */
module Agreement {
  import opened Wrappers
  import opened Common
  import opened StyleChain
  import opened Rules
  import opened Plugins
  import opened Output
  import opened Optimization
  import opened ConfigRecord
  import opened Combined
  import opened SplitConfigs

  /** The React production file's rules have the same skeletons as the
      combined React file's rules at production. */
  lemma ReactProdRulesAgree()
    ensures Skeletons(ReactProdConfig().rules) == Skeletons(Assemble(React, Production).rules)
  {
    var b := StyleBuilder(ExtractLoader, BarePre);
    var tail := [ImageRule, FontRule, ScriptRule(JsxTest, None)];
    var combinedTail := TailRules(React, Production);
    AssembleParts(React, Production);
    SkeletonsAppend(StyleRules(b), tail);
    SkeletonsAppend(StyleRules(BuilderFor(React, Production)), combinedTail);
    StyleSkeletonsAgree(b, BuilderFor(React, Production));
    TailSkeletonsAgree(Production);
  }

  /** The images, fonts and scripts rules have the same skeletons whatever
      the Babel plugins of the scripts rule. */
  lemma TailSkeletonsAgree(mode: Mode)
    ensures Skeletons([ImageRule, FontRule, ScriptRule(JsxTest, None)]) == Skeletons(TailRules(React, mode))
  {
    var tail, combinedTail := [ImageRule, FontRule, ScriptRule(JsxTest, None)], TailRules(React, mode);
    assert SkeletonOf(tail[0]) == SkeletonOf(combinedTail[0]);
    assert SkeletonOf(tail[1]) == SkeletonOf(combinedTail[1]);
    assert SkeletonOf(tail[2]) == SkeletonOf(combinedTail[2]);
  }

  /** The React production file matches the combined React file at production
      in its plugins, output and the mode-named keys. */
  lemma ReactProdAgrees()
    ensures ReactProdConfig().plugins == Assemble(React, Production).plugins
    ensures ReactProdConfig().output == Assemble(React, Production).output
    ensures ReactProdConfig().mode == Assemble(React, Production).mode
    ensures ReactProdConfig().devtool == Assemble(React, Production).devtool
    ensures ReactProdConfig().extensions == Assemble(React, Production).extensions
    ensures ReactProdConfig().optimization.runtimeChunk == Assemble(React, Production).optimization.runtimeChunk
    ensures ReactProdConfig().optimization.minimizer == Assemble(React, Production).optimization.minimizer
  {
    AssembleParts(React, Production);
  }

  /** Where the React production file departs from the combined file at
      production: no cache groups, no `minimize` key, bare `less-loader`,
      no Babel `plugins` key, no dev server and no `performance` key. */
  lemma ReactProdDiverges()
    ensures ReactProdConfig().optimization.splitChunks.cacheGroups.None?
    ensures Assemble(React, Production).optimization.splitChunks.cacheGroups == Some(ReactCacheGroups)
    ensures ReactProdConfig().optimization.minimize.None?
    ensures Assemble(React, Production).optimization.minimize == Some(true)
    ensures ReactProdConfig().rules[1].use[3].options == NoOptions
    ensures Assemble(React, Production).rules[1].use[3].options == ThemeOptions
    ensures ReactProdConfig().rules[6].babel == Some(BabelOptions(true, false, None))
    ensures Assemble(React, Production).rules[6].babel == Some(BabelOptions(true, false, Some([])))
    ensures ReactProdConfig().devServer.None? && Assemble(React, Production).devServer.Some?
    ensures ReactProdConfig().performance.None? && Assemble(React, Production).performance == Some(false)
  {
    SplitStyleChains(1);
    var b := BuilderFor(React, Production);
    assert Assemble(React, Production).rules[1] == StyleRules(b)[1];
    PreprocessorIsLast(b, Some("less-loader"));
    ReactScriptRule(Production);
  }

  /** The React development file matches the combined React file at
      development in its rule skeletons, its script rule (refresh plugin
      included), its plugins and its output names. */
  lemma ReactDevAgrees()
    ensures Skeletons(ReactDevConfig().rules) == Skeletons(Assemble(React, Development).rules)
    ensures ReactDevConfig().rules[6] == Assemble(React, Development).rules[6]
    ensures ReactDevConfig().plugins == Assemble(React, Development).plugins
    ensures ReactDevConfig().output.path == Assemble(React, Development).output.path
    ensures ReactDevConfig().output.filename == Assemble(React, Development).output.filename
    ensures ReactDevConfig().output.chunkFilename == Assemble(React, Development).output.chunkFilename
    ensures ReactDevConfig().output.assetModuleFilename == Assemble(React, Development).output.assetModuleFilename
    ensures ReactDevConfig().mode == Assemble(React, Development).mode
    ensures ReactDevConfig().devtool == Assemble(React, Development).devtool
    ensures ReactDevConfig().devServer == Assemble(React, Development).devServer
  {
    var b := StyleBuilder(StyleLoader, BarePre);
    var tail := [ImageRule, FontRule, ScriptRule(JsxTest, Some([RefreshBabelPlugin]))];
    ReactScriptRule(Development);
    assert ReactDevConfig().rules[6] == tail[2];
    SkeletonsAppend(StyleRules(b), tail);
    SkeletonsAppend(StyleRules(BuilderFor(React, Development)), TailRules(React, Development));
    StyleSkeletonsAgree(b, BuilderFor(React, Development));
    assert tail == TailRules(React, Development) by {
      assert tail[2] == Assemble(React, Development).rules[6] == TailRules(React, Development)[2];
    }
  }

  /** Where the React development file departs from the combined file at
      development: no `clean` key, bare `less-loader`, no cache groups, no
      `minimize` key, no minimizer list and no `performance` key. */
  lemma ReactDevDiverges()
    ensures ReactDevConfig().output.clean.None? && Assemble(React, Development).output.clean == Some(true)
    ensures ReactDevConfig().rules[1].use[3].options == NoOptions
    ensures Assemble(React, Development).rules[1].use[3].options == ThemeOptions
    ensures ReactDevConfig().optimization.splitChunks.cacheGroups.None?
    ensures Assemble(React, Development).optimization.splitChunks.cacheGroups.Some?
    ensures ReactDevConfig().optimization.minimize.None?
    ensures Assemble(React, Development).optimization.minimize == Some(false)
    ensures ReactDevConfig().optimization.minimizer.None?
    ensures Assemble(React, Development).optimization.minimizer.Some?
    ensures ReactDevConfig().performance.None? && Assemble(React, Development).performance == Some(false)
  {
    SplitStyleChains(1);
    var b := BuilderFor(React, Development);
    assert Assemble(React, Development).rules[1] == StyleRules(b)[1];
    PreprocessorIsLast(b, Some("less-loader"));
  }

  /** The Vue development file has exactly the combined Vue file's rules and
      plugins at development, and its output names. */
  lemma VueDevAgrees()
    ensures VueDevConfig().rules == Assemble(Vue, Development).rules
    ensures VueDevConfig().plugins == Assemble(Vue, Development).plugins
    ensures VueDevConfig().output.path == Assemble(Vue, Development).output.path
    ensures VueDevConfig().output.filename == Assemble(Vue, Development).output.filename
    ensures VueDevConfig().output.chunkFilename == Assemble(Vue, Development).output.chunkFilename
    ensures VueDevConfig().output.assetModuleFilename == Assemble(Vue, Development).output.assetModuleFilename
    ensures VueDevConfig().mode == Assemble(Vue, Development).mode
    ensures VueDevConfig().devtool == Assemble(Vue, Development).devtool
    ensures VueDevConfig().extensions == Assemble(Vue, Development).extensions
    ensures VueDevConfig().optimization.splitChunks == Assemble(Vue, Development).optimization.splitChunks
    ensures VueDevConfig().optimization.runtimeChunk == Assemble(Vue, Development).optimization.runtimeChunk
  {
  }

  /** Where the Vue development file departs from the combined file at
      development: no `clean` key, no `minimize` key, no minimizer list. */
  lemma VueDevDiverges()
    ensures VueDevConfig().output.clean.None? && Assemble(Vue, Development).output.clean == Some(true)
    ensures VueDevConfig().optimization.minimize.None?
    ensures Assemble(Vue, Development).optimization.minimize == Some(false)
    ensures VueDevConfig().optimization.minimizer.None?
    ensures Assemble(Vue, Development).optimization.minimizer == Some(Minimizers)
  {
  }
}
