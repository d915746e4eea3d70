/** The `optimization` record: chunk splitting, runtime chunk naming, minimizers. */
module Optimization {
  import opened Wrappers

  /** A cache group's `test` regex over a module's resolved path:
      `[\\/]node_modules[\\/]` alone, followed by one package name and a
      separator, or followed by a package-name prefix, `(.*)?` and a separator. */
  datatype PathPattern = UnderNodeModules | Package(name: string) | PackagePrefix(prefix: string)

  predicate IsSep(c: char) {
    c == '/' || c == '\\'
  }

  /** The characters a regex `.` does not match. */
  predicate IsLineTerminator(c: char) {
    c == '\n' || c == '\r' || c == '\U{2028}' || c == '\U{2029}'
  }

  const NodeModules := "node_modules"

  /** `[\\/]node_modules[\\/]` occurs with its first separator at index `i`. */
  predicate NodeModulesAt(p: string, i: int) {
    0 <= i && i + 14 <= |p| && IsSep(p[i]) && p[i + 1..i + 13] == NodeModules && IsSep(p[i + 13])
  }

  /** `(.*)?[\\/]` matches from index `k`: a separator lies ahead with no line
      terminator before it. */
  predicate SepAhead(p: string, k: int) {
    exists j | 0 <= k <= j < |p| :: IsSep(p[j]) && forall m | k <= m < j :: !IsLineTerminator(p[m])
  }

  /** The pattern matches `p` starting at index `i`. */
  predicate MatchesAt(pat: PathPattern, p: string, i: int) {
    NodeModulesAt(p, i) &&
    match pat
    case UnderNodeModules => true
    case Package(n) =>
      i + 14 + |n| < |p| && p[i + 14..i + 14 + |n|] == n && IsSep(p[i + 14 + |n|])
    case PackagePrefix(n) =>
      i + 14 + |n| <= |p| && p[i + 14..i + 14 + |n|] == n && SepAhead(p, i + 14 + |n|)
  }

  predicate PathMatches(pat: PathPattern, p: string) {
    exists i | 0 <= i < |p| :: MatchesAt(pat, p, i)
  }

  /** Every cache-group pattern is a refinement of the plain `node_modules` one. */
  lemma FallsUnderNodeModules(pat: PathPattern, p: string)
    requires PathMatches(pat, p)
    ensures PathMatches(UnderNodeModules, p)
  {
    var i :| 0 <= i < |p| && MatchesAt(pat, p, i);
    assert MatchesAt(UnderNodeModules, p, i);
  }

  datatype CacheGroup = CacheGroup(key: string, test: PathPattern, name: string, priority: int)

  /** The React cache groups, in declaration order. */
  const ReactCacheGroups := [
    CacheGroup("react", PackagePrefix("react"), "chunk-react", 40),
    CacheGroup("antd", Package("antd"), "chunk-antd", 30),
    CacheGroup("libs", UnderNodeModules, "chunk-libs", 20)
  ]

  /** Neighbouring priorities fall strictly. */
  predicate Descending(gs: seq<CacheGroup>) {
    |gs| <= 1 || (gs[0].priority > gs[1].priority && Descending(gs[1..]))
  }

  /** Falling between neighbours means falling between any earlier and later
      group, so no two groups share a priority. */
  lemma {:induction false} DescendingEverywhere(gs: seq<CacheGroup>)
    requires Descending(gs)
    ensures forall i, j :: 0 <= i < j < |gs| ==> gs[i].priority > gs[j].priority
  {
    if |gs| > 1 {
      DescendingEverywhere(gs[1..]);
      forall i, j | 0 <= i < j < |gs|
        ensures gs[i].priority > gs[j].priority
      {
        if i > 0 {
          assert gs[i] == gs[1..][i - 1] && gs[j] == gs[1..][j - 1];
        } else if j > 1 {
          assert gs[1] == gs[1..][0] && gs[j] == gs[1..][j - 1];
        }
      }
    }
  }

  /** Priorities 40, 30 and 20, strictly falling in declaration order; the
      last group catches every path any group catches. */
  lemma ReactCacheGroupOrder()
    ensures |ReactCacheGroups| == 3
    ensures ReactCacheGroups[0].priority == 40 && ReactCacheGroups[1].priority == 30
            && ReactCacheGroups[2].priority == 20
    ensures forall i, j :: 0 <= i < j < |ReactCacheGroups| ==>
              ReactCacheGroups[i].priority > ReactCacheGroups[j].priority
    ensures forall g, p | g in ReactCacheGroups && PathMatches(g.test, p) ::
              PathMatches(ReactCacheGroups[2].test, p)
  {
    assert Descending(ReactCacheGroups[2..]);
    assert Descending(ReactCacheGroups[1..]);
    DescendingEverywhere(ReactCacheGroups);
    forall g, p | g in ReactCacheGroups && PathMatches(g.test, p)
      ensures PathMatches(ReactCacheGroups[2].test, p)
    {
      FallsUnderNodeModules(g.test, p);
    }
  }

  /** A React package path is claimed by both the react and the libs pattern,
      so the priorities are what separate them. */
  lemma ReactPathMatchesTwoGroups()
    ensures PathMatches(ReactCacheGroups[0].test, "/node_modules/react-dom/index.js")
    ensures PathMatches(ReactCacheGroups[2].test, "/node_modules/react-dom/index.js")
  {
    var p := "/node_modules/react-dom/index.js";
    assert p == "/" + NodeModules + "/" + "react" + "-dom" + "/index.js";
    assert p[1..13] == NodeModules;
    assert p[14..19] == "react";
    assert SepAhead(p, 19) by {
      assert IsSep(p[23]);
      assert forall m | 19 <= m < 23 :: !IsLineTerminator(p[m]);
    }
    assert MatchesAt(ReactCacheGroups[0].test, p, 0);
    assert MatchesAt(ReactCacheGroups[2].test, p, 0);
  }

  /** The runtime chunk name: a template literal with one hole for the entry
      point's name, `runtime~${entrypoint.name}.js`. */
  datatype NameTemplate = NameTemplate(prefix: string, suffix: string)

  const RuntimeChunkName := NameTemplate("runtime~", ".js")

  function Render(t: NameTemplate, entry: string): string {
    t.prefix + entry + t.suffix
  }

  /** Recovers the entry name from a rendered name, if it has the template's shape. */
  function EntryOf(t: NameTemplate, name: string): (r: Option<string>)
    ensures r.Some? ==> |r.value| == |name| - |t.prefix| - |t.suffix|
  {
    if |t.prefix| + |t.suffix| <= |name|
       && name[..|t.prefix|] == t.prefix && name[|name| - |t.suffix|..] == t.suffix
    then Some(name[|t.prefix|..|name| - |t.suffix|])
    else None
  }

  lemma RenderThenRecover(t: NameTemplate, entry: string)
    ensures EntryOf(t, Render(t, entry)) == Some(entry)
  {
    var name := Render(t, entry);
    assert name[..|t.prefix|] == t.prefix;
    assert name[|name| - |t.suffix|..] == t.suffix;
    assert name[|t.prefix|..|name| - |t.suffix|] == entry;
  }

  lemma RecoverThenRender(t: NameTemplate, name: string)
    requires EntryOf(t, name).Some?
    ensures Render(t, EntryOf(t, name).value) == name
  {
    var e := EntryOf(t, name).value;
    assert name == name[..|t.prefix|] + name[|t.prefix|..|name| - |t.suffix|] + name[|name| - |t.suffix|..];
  }

  /** Different entry points always get different runtime chunks. */
  lemma RuntimeNameInjective(t: NameTemplate, a: string, b: string)
    requires Render(t, a) == Render(t, b)
    ensures a == b
  {
    RenderThenRecover(t, a);
    RenderThenRecover(t, b);
  }

  /** An svgo plugin given by name alone (`preset-default` is itself a plugin
      that bundles svgo's defaults), or `sortAttrs` with its parameters. */
  datatype SvgoPlugin = SvgoPluginName(name: string) | SortAttrs(xmlnsOrder: string)

  datatype ImagePlugin =
    | Gifsicle(interlaced: bool)
    | Jpegtran(progressive: bool)
    | Optipng(optimizationLevel: nat)
    | Svgo(svgoPlugins: seq<SvgoPlugin>)

  datatype Minimizer = CssMinimizer | Terser | ImageMinimizer(implementation: string, imagePlugins: seq<ImagePlugin>)

  /** The lossless image toolchain, one plugin per format. */
  const ImagePlugins := [
    Gifsicle(true), Jpegtran(true), Optipng(5),
    Svgo([SvgoPluginName("preset-default"), SvgoPluginName("prefixIds"), SortAttrs("alphabetical")])
  ]

  const Minimizers := [CssMinimizer, Terser, ImageMinimizer("imageminGenerate", ImagePlugins)]

  /** `splitChunks`; `cacheGroups` is `None` where the key is absent. */
  datatype SplitChunks = SplitChunks(chunks: string, cacheGroups: Option<seq<CacheGroup>>)

  /** `minimize` and `minimizer` are `None` where the key is absent. */
  datatype Optimization = Optimization(splitChunks: SplitChunks, runtimeChunk: NameTemplate,
                                       minimize: Option<bool>, minimizer: Option<seq<Minimizer>>)
}
