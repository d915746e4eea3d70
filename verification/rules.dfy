/** The `module.rules` list: which files a rule claims, and what it does with them. */
module Rules {
  import opened Wrappers
  import opened Gating
  import opened Strings
  import opened Common
  import opened StyleChain

  /** A rule's `test` regex. Every test in these files is an escaped dot
      followed by an alternation of extensions, either end-anchored (`$`)
      or free to match anywhere in the name. */
  datatype Test = Test(extensions: seq<string>, anchored: bool)

  predicate Matches(t: Test, name: string) {
    exists k | 0 <= k < |t.extensions| ::
      if t.anchored then EndsWith(name, "." + t.extensions[k]) else Contains(name, "." + t.extensions[k])
  }

  const CssTest := Test(["css"], true)            // /\.css$/
  const LessTest := Test(["less"], true)          // /\.less$/
  const SassTest := Test(["sass", "scss"], true)  // /\.s[ac]ss$/
  const StylusTest := Test(["styl"], true)        // /\.styl$/
  const ImageTest := Test(["jpg", "png", "gif", "webp", "svg"], false)  // /\.(jpg|png|gif|webp|svg)/
  const FontTest := Test(["woff", "woff2", "ttf"], false)               // /\.(woff2?|ttf)/
  const JsxTest := Test(["js", "jsx"], true)      // /\.jsx?$/
  const JsTest := Test(["js"], true)              // /\.js$/
  const VueTest := Test(["vue"], true)            // /\.vue$/

  /** `type: 'asset'` with a data-URL size limit, or `type: 'asset/resource'`
      (always emitted as a separate file). */
  datatype AssetType = Asset(dataUrlMaxSize: nat) | AssetResource

  /** The `options` of `babel-loader`; `plugins` is `None` when the key is absent. */
  datatype BabelOptions = BabelOptions(cacheDirectory: bool, cacheCompression: bool, plugins: Option<seq<string>>)

  datatype Rule =
    | UseRule(test: Test, use: seq<UseEntry>)
    | AssetRule(test: Test, assetType: AssetType)
    | LoaderRule(test: Test, scope: Option<Path>, loader: string, babel: Option<BabelOptions>)

  /** The data-URL limit of the image rule: `10 * 1024` bytes. */
  const ImageInlineLimit: nat := 10 * 1024

  const ImageRule := AssetRule(ImageTest, Asset(ImageInlineLimit))
  const FontRule := AssetRule(FontTest, AssetResource)
  const VueRule := LoaderRule(VueTest, None, "vue-loader", None)
  const RefreshBabelPlugin := "react-refresh/babel"

  /** The four stylesheet rules, each calling the file's `getStyleLoaders`. */
  function StyleRules(b: StyleBuilder): (r: seq<Rule>)
    ensures |r| == 4
    ensures r[0].test == CssTest && r[1].test == LessTest && r[2].test == SassTest && r[3].test == StylusTest
    ensures r[0].UseRule? && LoaderNames(r[0].use) == [FirstLoaderName(b.first), "css-loader", "postcss-loader"]
    ensures r[1].UseRule? && LoaderNames(r[1].use) == [FirstLoaderName(b.first), "css-loader", "postcss-loader", "less-loader"]
    ensures r[2].UseRule? && LoaderNames(r[2].use) == [FirstLoaderName(b.first), "css-loader", "postcss-loader", "sass-loader"]
    ensures r[3].UseRule? && LoaderNames(r[3].use) == [FirstLoaderName(b.first), "css-loader", "postcss-loader", "stylus-loader"]
  {
    var css := GetStyleLoaders(b, None);
    var less := GetStyleLoaders(b, Some("less-loader"));
    var sass := GetStyleLoaders(b, Some("sass-loader"));
    var stylus := GetStyleLoaders(b, Some("stylus-loader"));
    ChainOrder(b, None);
    ChainOrder(b, Some("less-loader"));
    ChainOrder(b, Some("sass-loader"));
    ChainOrder(b, Some("stylus-loader"));
    [UseRule(CssTest, css), UseRule(LessTest, less), UseRule(SassTest, sass), UseRule(StylusTest, stylus)]
  }

  /** Every stylesheet rule starts with the builder's first loader. */
  lemma StyleRuleFirst(b: StyleBuilder, i: nat)
    requires i < 4
    ensures StyleRules(b)[i].UseRule? && StyleRules(b)[i].use[0].loader == FirstLoaderName(b.first)
  {
    var r := StyleRules(b);
    if i == 0 {
      assert LoaderNames(r[0].use)[0] == r[0].use[0].loader;
    } else if i == 1 {
      assert LoaderNames(r[1].use)[0] == r[1].use[0].loader;
    } else if i == 2 {
      assert LoaderNames(r[2].use)[0] == r[2].use[0].loader;
    } else {
      assert LoaderNames(r[3].use)[0] == r[3].use[0].loader;
    }
  }

  /** The `babel-loader` rule, restricted to the project's `src` directory. */
  function ScriptRule(test: Test, plugins: Option<seq<string>>): Rule {
    LoaderRule(test, Some(SrcDir), "babel-loader", Some(BabelOptions(true, false, plugins)))
  }

  /** The tests of a rule list, in order. */
  function Tests(rules: seq<Rule>): (ts: seq<Test>)
    ensures |ts| == |rules|
    ensures forall i :: 0 <= i < |rules| ==> ts[i] == rules[i].test
  {
    if |rules| == 0 then [] else [rules[0].test] + Tests(rules[1..])
  }

  /** What a rule does, without its loader options: its test, its loader
      names in list order, its asset type and its directory scope. */
  datatype Skeleton = Skeleton(test: Test, loaders: seq<string>, asset: Option<AssetType>, scope: Option<Path>)

  function SkeletonOf(r: Rule): Skeleton {
    match r
    case UseRule(t, use) => Skeleton(t, LoaderNames(use), None, None)
    case AssetRule(t, a) => Skeleton(t, [], Some(a), None)
    case LoaderRule(t, scope, loader, _) => Skeleton(t, [loader], None, scope)
  }

  function Skeletons(rules: seq<Rule>): (sk: seq<Skeleton>)
    ensures |sk| == |rules|
    ensures forall i :: 0 <= i < |rules| ==> sk[i] == SkeletonOf(rules[i])
  {
    if |rules| == 0 then [] else [SkeletonOf(rules[0])] + Skeletons(rules[1..])
  }

  lemma {:induction false} SkeletonsAppend(a: seq<Rule>, b: seq<Rule>)
    ensures Skeletons(a + b) == Skeletons(a) + Skeletons(b)
  {
    assert |Skeletons(a + b)| == |Skeletons(a) + Skeletons(b)|;
    forall i | 0 <= i < |a + b| ensures Skeletons(a + b)[i] == (Skeletons(a) + Skeletons(b))[i] {
      if i < |a| { } else { assert (a + b)[i] == b[i - |a|]; }
    }
  }

  /** The stylesheet rules of two builders with the same first loader differ
      at most in the preprocessor's options. */
  lemma StyleSkeletonsAgree(b1: StyleBuilder, b2: StyleBuilder)
    requires b1.first == b2.first
    ensures Skeletons(StyleRules(b1)) == Skeletons(StyleRules(b2))
  {
    var r1, r2 := StyleRules(b1), StyleRules(b2);
    StyleRuleTests(b1);
    StyleRuleTests(b2);
    assert Tests(r1)[0] == r1[0].test && Tests(r2)[0] == r2[0].test;
    assert SkeletonOf(r1[0]) == SkeletonOf(r2[0]);
    assert Tests(r1)[1] == r1[1].test && Tests(r2)[1] == r2[1].test;
    assert SkeletonOf(r1[1]) == SkeletonOf(r2[1]);
    assert Tests(r1)[2] == r1[2].test && Tests(r2)[2] == r2[2].test;
    assert SkeletonOf(r1[2]) == SkeletonOf(r2[2]);
    assert Tests(r1)[3] == r1[3].test && Tests(r2)[3] == r2[3].test;
    assert SkeletonOf(r1[3]) == SkeletonOf(r2[3]);
  }

  /** No file name is claimed by two end-anchored rules. */
  ghost predicate Unambiguous(rules: seq<Rule>) {
    forall i, j, name | 0 <= i < j < |rules| && rules[i].test.anchored && rules[j].test.anchored ::
      !(Matches(rules[i].test, name) && Matches(rules[j].test, name))
  }

  predicate DotFree(t: Test) {
    forall e | e in t.extensions :: '.' !in e
  }

  /** The two tests name no extension in common. */
  predicate Disjoint(a: Test, b: Test) {
    forall e | e in a.extensions :: e !in b.extensions
  }

  /** `t`, if anchored, shares no extension with any anchored test in `rest`. */
  predicate SeparatedFrom(t: Test, rest: seq<Test>) {
    forall u | u in rest :: t.anchored && u.anchored ==> Disjoint(t, u)
  }

  /** The decidable check behind `Unambiguous`: every test is dot-free and
      the anchored tests pairwise share no extension. */
  predicate Separated(ts: seq<Test>) {
    |ts| == 0 || (DotFree(ts[0]) && SeparatedFrom(ts[0], ts[1..]) && Separated(ts[1..]))
  }

  /** Two anchored, dot-free tests with no shared extension never claim the same name. */
  lemma DisjointTestsNeverOverlap(a: Test, b: Test, name: string)
    requires a.anchored && b.anchored && DotFree(a) && DotFree(b) && Disjoint(a, b)
    ensures !(Matches(a, name) && Matches(b, name))
  {
    if Matches(a, name) && Matches(b, name) {
      var k1 :| 0 <= k1 < |a.extensions| && EndsWith(name, "." + a.extensions[k1]);
      var k2 :| 0 <= k2 < |b.extensions| && EndsWith(name, "." + b.extensions[k2]);
      assert a.extensions[k1] in a.extensions && b.extensions[k2] in b.extensions;
      DottedSuffixUnique(name, a.extensions[k1], b.extensions[k2]);
    }
  }

  lemma {:induction false} SeparatedAt(ts: seq<Test>, i: nat, j: nat)
    requires Separated(ts) && i < j < |ts| && ts[i].anchored && ts[j].anchored
    ensures DotFree(ts[i]) && DotFree(ts[j]) && Disjoint(ts[i], ts[j])
  {
    if i == 0 {
      assert ts[j] in ts[1..];
      SeparatedDotFree(ts[1..], j - 1);
    } else {
      SeparatedAt(ts[1..], i - 1, j - 1);
    }
  }

  lemma {:induction false} SeparatedDotFree(ts: seq<Test>, j: nat)
    requires Separated(ts) && j < |ts|
    ensures DotFree(ts[j])
  {
    if j > 0 {
      SeparatedDotFree(ts[1..], j - 1);
    }
  }

  /** The decidable check establishes that no name is claimed by two anchored rules. */
  lemma SeparatedIsUnambiguous(rules: seq<Rule>)
    requires Separated(Tests(rules))
    ensures Unambiguous(rules)
  {
    var ts := Tests(rules);
    forall i, j, name | 0 <= i < j < |rules| && rules[i].test.anchored && rules[j].test.anchored
      ensures !(Matches(rules[i].test, name) && Matches(rules[j].test, name))
    {
      SeparatedAt(ts, i, j);
      DisjointTestsNeverOverlap(ts[i], ts[j], name);
    }
  }

  lemma SeparatedCons(t: Test, rest: seq<Test>)
    requires DotFree(t) && SeparatedFrom(t, rest) && Separated(rest)
    ensures Separated([t] + rest)
  {
    assert ([t] + rest)[1..] == rest;
  }

  /** Two separated lists whose tests are pairwise separated join into a separated list. */
  lemma {:induction false} SeparatedAppend(a: seq<Test>, b: seq<Test>)
    requires Separated(a) && Separated(b)
    requires forall t | t in a :: SeparatedFrom(t, b)
    ensures Separated(a + b)
  {
    if |a| == 0 {
      assert a + b == b;
    } else {
      assert (a + b)[1..] == a[1..] + b;
      assert a[0] in a;
      forall t | t in a[1..] ensures SeparatedFrom(t, b) { assert t in a; }
      SeparatedAppend(a[1..], b);
      forall u | u in a[1..] + b ensures a[0].anchored && u.anchored ==> Disjoint(a[0], u) {
        if u in a[1..] { } else { assert u in b; }
      }
    }
  }

  lemma {:induction false} TestsAppend(a: seq<Rule>, b: seq<Rule>)
    ensures Tests(a + b) == Tests(a) + Tests(b)
  {
    assert |Tests(a + b)| == |Tests(a) + Tests(b)|;
    forall i | 0 <= i < |a + b| ensures Tests(a + b)[i] == (Tests(a) + Tests(b))[i] {
      if i < |a| { } else { assert (a + b)[i] == b[i - |a|]; }
    }
  }

  const StyleTests := [CssTest, LessTest, SassTest, StylusTest]

  lemma StyleRuleTests(b: StyleBuilder)
    ensures Tests(StyleRules(b)) == StyleTests
  {
    var r := StyleRules(b);
    assert r[0].test == CssTest && r[1].test == LessTest && r[2].test == SassTest && r[3].test == StylusTest;
  }

  /** The four stylesheet tests end on four distinct groups of extensions. */
  lemma StyleTestsSeparated()
    ensures Separated(StyleTests)
  {
    StyleTestsDisjoint();
    var r1 := [StylusTest];
    SeparatedCons(StylusTest, []);
    assert r1 == [StylusTest] + [];
    var r2 := [SassTest] + r1;
    SeparatedCons(SassTest, r1);
    var r3 := [LessTest] + r2;
    SeparatedCons(LessTest, r2);
    SeparatedCons(CssTest, r3);
    assert StyleTests == [CssTest] + r3;
  }

  /** The stylesheet extensions are dot-free and no two tests share one. */
  lemma StyleTestsDisjoint()
    ensures DotFree(CssTest) && DotFree(LessTest) && DotFree(SassTest) && DotFree(StylusTest)
    ensures SeparatedFrom(SassTest, [StylusTest])
    ensures SeparatedFrom(LessTest, [SassTest, StylusTest])
    ensures SeparatedFrom(CssTest, [LessTest, SassTest, StylusTest])
  {
    assert Disjoint(SassTest, StylusTest);
    assert Disjoint(LessTest, SassTest) && Disjoint(LessTest, StylusTest);
    assert Disjoint(CssTest, LessTest) && Disjoint(CssTest, SassTest) && Disjoint(CssTest, StylusTest);
  }

  /** The image test is not end-anchored, so it does claim names that an
      anchored stylesheet test claims as well. */
  lemma ImageTestOverlapsCss()
    ensures Matches(ImageTest, "a.png.css") && Matches(CssTest, "a.png.css")
  {
    var name := "a.png.css";
    assert name == "a" + ".png" + ".css";
    assert name[1..5] == ".png";
    ContainsAt(name, "." + ImageTest.extensions[1], 1);
    assert name[|name| - 4..] == ".css";
    assert EndsWith(name, "." + CssTest.extensions[0]);
  }
}
