/** Vocabulary shared by every configuration file. */
module Common {
  import opened Wrappers

  /** The single switch of the combined files: `NODE_ENV === 'production'`. */
  datatype Mode = Development | Production

  /** The two project templates. */
  datatype Framework = React | Vue

  /** A path built as `path.resolve(__dirname, relative)`; kept opaque. */
  datatype Path = Resolved(relative: string)

  const SrcDir: Path := Resolved("../src")
  const DistDir: Path := Resolved("../dist")
  const PublicDir: Path := Resolved("../public")
  const HtmlTemplate: Path := Resolved("../public/index.html")
  const EslintCache: Path := Resolved("../node_modules/.cache/.eslintcache")

  /** `process.env.NODE_ENV === 'production'`: every other value, and an
      unset variable, selects development. */
  function ModeOf(nodeEnv: Option<string>): (m: Mode)
    ensures m == Production <==> nodeEnv == Some("production")
  {
    if nodeEnv == Some("production") then Production else Development
  }

  /** The value written to the configuration's `mode` key. */
  function ModeName(mode: Mode): string {
    match mode
    case Development => "development"
    case Production => "production"
  }

  /** The value written to the configuration's `devtool` key. */
  function Devtool(mode: Mode): string {
    match mode
    case Development => "cheap-module-source-map"
    case Production => "source-map"
  }

  /** Running with `NODE_ENV` set to a configuration's own `mode` value
      selects that mode again, and the two modes write different values. */
  lemma ModeNameRoundTrip(mode: Mode)
    ensures ModeOf(Some(ModeName(mode))) == mode
    ensures ModeName(Development) != ModeName(Production)
    ensures Devtool(Development) != Devtool(Production)
  {
  }
}
