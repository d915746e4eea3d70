/** The `plugins` list: plugin instances with their option records. */
module Plugins {
  import opened Wrappers
  import opened Strings
  import opened Common
  import opened Output

  datatype EslintOptions = EslintOptions(context: Path, exclude: string, cache: bool, cacheLocation: Path)

  /** One `patterns` entry of the copy plugin, with its `globOptions.ignore`. */
  datatype CopyPattern = CopyPattern(from: Path, to: Path, ignore: seq<string>)

  datatype Plugin =
    | EslintPlugin(eslint: EslintOptions)
    | HtmlPlugin(template: Path)
    | MiniCssExtractPlugin(cssFilename: string, cssChunkFilename: string)
    | CopyPlugin(patterns: seq<CopyPattern>)
    | ReactRefreshPlugin
    | VueLoaderPlugin
    | DefinePlugin(definitions: map<string, bool>)

  const SourceLint := EslintPlugin(EslintOptions(SrcDir, "node_modules", true, EslintCache))
  const HtmlShell := HtmlPlugin(HtmlTemplate)
  /** `static/css/[name].[contenthash:10].css` and its chunk counterpart. */
  const CssExtract := MiniCssExtractPlugin("static/css/[name]." + ContentHash + ".css",
                                           "static/css/[name]." + ContentHash + ".chunk.css")
  /** The glob the copy plugin skips, so the HTML template is not emitted twice. */
  const IndexHtmlGlob := "**/index.html*"
  const CopyPublic := CopyPlugin([CopyPattern(PublicDir, DistDir, [IndexHtmlGlob])])
  const VueOptionsApi := "__VUE_OPTIONS_API__"
  const VueProdDevtools := "__VUE_PROD_DEVTOOLS__"
  const VueFlags := DefinePlugin(map[VueOptionsApi := true, VueProdDevtools := false])

  /** Extracted stylesheets are content-hashed like the production bundles. */
  lemma ExtractedCssHashed()
    ensures Hashed(CssExtract.cssFilename) && Hashed(CssExtract.cssChunkFilename)
  {
    ContainsBetween("static/css/[name].", ContentHash, ".css");
    ContainsBetween("static/css/[name].", ContentHash, ".chunk.css");
  }
}
