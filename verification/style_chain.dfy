/** `getStyleLoaders(pre)`: the loader list of a stylesheet rule. Every
    configuration file defines its own copy; they differ only in the first
    loader and in how the preprocessor entry is written. */
module StyleChain {
  import opened Wrappers
  import opened Gating

  /** The loader that finally places the compiled stylesheet: extracted to a
      file, or injected into the page by a `<style>` tag. */
  datatype FirstLoader = ExtractLoader | StyleLoader | VueStyleLoader

  function FirstLoaderName(f: FirstLoader): string {
    match f
    case ExtractLoader => "MiniCssExtractPlugin.loader"
    case StyleLoader => "style-loader"
    case VueStyleLoader => "vue-style-loader"
  }

  /** The `options` of one `use` entry. `NoOptions` is a bare loader string,
      `EmptyOptions` the object `{}`. */
  datatype LoaderOptions =
    | NoOptions
    | EmptyOptions
    | PostcssOptions(postcssPlugins: seq<string>)
    | LessOptions(modifyVars: map<string, string>, javascriptEnabled: bool)

  datatype UseEntry = UseEntry(loader: string, options: LoaderOptions)

  /** How the preprocessor entry is written: as the bare loader name, or as
      an object whose options carry the theme for `less-loader`. */
  datatype PreForm = BarePre | ThemedPre

  datatype StyleBuilder = StyleBuilder(first: FirstLoader, preForm: PreForm)

  const CssLoader := UseEntry("css-loader", NoOptions)
  const PostcssLoader := UseEntry("postcss-loader", PostcssOptions(["postcss-preset-env"]))
  const LessLoaderName := "less-loader"
  /** The Less theme: `modifyVars` with the primary colour, inline JavaScript on. */
  const ThemeOptions := LessOptions(map["@primary-color" := "#1DA57A"], true)

  /** JavaScript truthiness of the `pre` argument: absent and empty are falsy. */
  predicate Truthy(pre: Option<string>) {
    pre.Some? && pre.value != ""
  }

  /** The fourth list element before filtering: `pre` itself, or `pre && {loader, options}`. */
  function PreEntry(form: PreForm, pre: Option<string>): Option<UseEntry> {
    if !Truthy(pre) then None
    else match form
      case BarePre => Some(UseEntry(pre.value, NoOptions))
      case ThemedPre =>
        Some(UseEntry(pre.value, if pre.value == LessLoaderName then ThemeOptions else EmptyOptions))
  }

  /** The loader list after `filter(Boolean)`. */
  function GetStyleLoaders(b: StyleBuilder, pre: Option<string>): (r: seq<UseEntry>)
    ensures |r| == if Truthy(pre) then 4 else 3
    ensures r[0] == UseEntry(FirstLoaderName(b.first), NoOptions)
    ensures r[1] == CssLoader && r[2] == PostcssLoader
    ensures Truthy(pre) ==> r[3].loader == pre.value
  {
    var first := UseEntry(FirstLoaderName(b.first), NoOptions);
    var fixed := [Some(first), Some(CssLoader), Some(PostcssLoader)];
    var tail := [PreEntry(b.preForm, pre)];
    CompactAppend(fixed, tail);
    CompactFixed(first);
    Compact(fixed + tail)
  }

  lemma CompactFixed(first: UseEntry)
    ensures Compact([Some(first), Some(CssLoader), Some(PostcssLoader)]) == [first, CssLoader, PostcssLoader]
  {
    CompactCons(Some(PostcssLoader), []);
    assert [Some(PostcssLoader)] == [Some(PostcssLoader)] + [];
    CompactCons(Some(CssLoader), [Some(PostcssLoader)]);
    assert [Some(CssLoader), Some(PostcssLoader)] == [Some(CssLoader)] + [Some(PostcssLoader)];
    CompactCons(Some(first), [Some(CssLoader), Some(PostcssLoader)]);
    assert [Some(first), Some(CssLoader), Some(PostcssLoader)]
        == [Some(first)] + [Some(CssLoader), Some(PostcssLoader)];
  }

  /** The loader names of a chain, the projection on which the files are compared. */
  function LoaderNames(chain: seq<UseEntry>): (names: seq<string>)
    ensures |names| == |chain|
    ensures forall i :: 0 <= i < |chain| ==> names[i] == chain[i].loader
  {
    if |chain| == 0 then [] else [chain[0].loader] + LoaderNames(chain[1..])
  }

  /** Only `less-loader` receives the theme, and only where the preprocessor
      is written as an object; the first loader (hence the mode) plays no part. */
  lemma PreprocessorOptions(first: FirstLoader, form: PreForm, pre: Option<string>)
    requires Truthy(pre)
    ensures form == BarePre ==> GetStyleLoaders(StyleBuilder(first, form), pre)[3].options == NoOptions
    ensures form == ThemedPre ==>
      (GetStyleLoaders(StyleBuilder(first, form), pre)[3].options == ThemeOptions <==> pre.value == LessLoaderName)
    ensures form == ThemedPre && pre.value != LessLoaderName ==>
      GetStyleLoaders(StyleBuilder(first, form), pre)[3].options == EmptyOptions
    ensures forall other: FirstLoader ::
      GetStyleLoaders(StyleBuilder(other, form), pre)[3] == GetStyleLoaders(StyleBuilder(first, form), pre)[3]
  {
    forall f: FirstLoader
      ensures GetStyleLoaders(StyleBuilder(f, form), pre)[3] == PreEntry(form, pre).value
    {
      PreprocessorIsLast(StyleBuilder(f, form), pre);
    }
  }

  lemma PreprocessorIsLast(b: StyleBuilder, pre: Option<string>)
    requires Truthy(pre)
    ensures GetStyleLoaders(b, pre)[3] == PreEntry(b.preForm, pre).value
  {
    var fixed := [Some(UseEntry(FirstLoaderName(b.first), NoOptions)), Some(CssLoader), Some(PostcssLoader)];
    var tail := [PreEntry(b.preForm, pre)];
    CompactAppend(fixed, tail);
    assert Compact(tail) == [PreEntry(b.preForm, pre).value];
  }

  /** A plain stylesheet gets the three fixed loaders; a preprocessor comes
      last in the list, which webpack applies right to left, so it runs
      first, then postcss, then css-loader, then the first loader. */
  lemma ChainOrder(b: StyleBuilder, pre: Option<string>)
    ensures !Truthy(pre) ==>
      LoaderNames(GetStyleLoaders(b, pre)) == [FirstLoaderName(b.first), "css-loader", "postcss-loader"]
    ensures Truthy(pre) ==>
      LoaderNames(GetStyleLoaders(b, pre)) == [FirstLoaderName(b.first), "css-loader", "postcss-loader", pre.value]
  {
  }
}
