/** The exported configuration object as a whole. */
module ConfigRecord {
  import opened Wrappers
  import opened Rules
  import opened Plugins
  import opened Output
  import opened Optimization

  /** The fixed `devServer` record. */
  datatype DevServer = DevServer(host: string, port: nat, open: bool, hot: bool, historyApiFallback: bool)

  /** `module.exports` of a configuration file. Keys a file leaves out are `None`. */
  datatype Config = Config(
    entry: string,
    output: Output,
    rules: seq<Rule>,
    plugins: seq<Plugin>,
    mode: string,
    devtool: string,
    optimization: Optimization,
    extensions: seq<string>,
    devServer: Option<DevServer>,
    performance: Option<bool>)

  const Entry := "./src/main.js"
  const LocalServer := DevServer("localhost", 3000, true, true, true)
  /** `resolve.extensions` of the React files and of the Vue files. */
  const ReactExtensions := [".jsx", ".js", ".json"]
  const VueExtensions := [".vue", ".js", ".json"]
}
