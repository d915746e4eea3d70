# webpackConfig: a Dafny model of the build configurations

The repository holds two project templates, one for React and one for Vue 3,
each built with webpack 5. Each template's `config/` directory exports plain
configuration objects:

- a **combined** file, `webpack.config.js`, which reads
  `process.env.NODE_ENV` once into a boolean `env` and derives every
  mode-dependent key from it;
- **split** files, one per mode: `webpack.prod.js` and `webpack.dev.js` for
  React, `webpack.dev.js` for Vue. They repeat the combined file with the
  `env` switch resolved by hand.

This project models each file as a value. A combined file becomes
`Combined.Assemble(framework, mode)`, and each split file becomes a constant
in `SplitConfigs`. The proofs cover the following:

- Style loader chains: their shape, their order, and the Less theme.
- Rule tests: no two end-anchored tests claim the same file name.
- The data-URL limit for images.
- The React Fast Refresh Babel plugin, present only in React development.
- Plugin lists per mode, with their order preserved through `filter(Boolean)`.
- Output naming: hashed names and the `dist` path exactly in production.
- Cache-group priorities.
- The runtime chunk name: it determines the entry it was rendered from.
- Split files against combined files: where they agree and where they have
  drifted apart.

Modules, one per concept:

| module | models |
|---|---|
| `Wrappers` | `Option`, used for keys a file leaves out or sets to `undefined` |
| `Gating` | `cond && value` followed by `filter(Boolean)` |
| `Strings` | suffix and substring matching on file names |
| `Common` | `Mode`, `Framework`, `path.resolve` targets, the `mode` and `devtool` values |
| `StyleChain` | `getStyleLoaders(pre)` in its three written forms |
| `Rules` | `module.rules`: tests, asset types, the Babel rule, rule skeletons, unambiguity |
| `Plugins` | the plugin instances and their options |
| `Output` | the `output` record and content-hash detection |
| `Optimization` | `splitChunks`, cache groups, `runtimeChunk`, `minimize`, `minimizer` |
| `ConfigRecord` | the exported object as a whole |
| `Combined` | the two combined files |
| `SplitConfigs` | the three single-mode files |
| `Agreement` | split files compared with the combined file of the same framework and mode |

How JavaScript maps into the model:

- `filter(Boolean)` is `Gating.Compact` over `Option` values. `env && x` is
  `Gating.Gate`.
- The `pre` argument of `getStyleLoaders` is an `Option<string>`. JavaScript
  truthiness (`StyleChain.Truthy`) treats an absent argument and `""` as falsy.
- Every rule `test` in these files is an escaped dot followed by an
  alternation of extensions. It is modelled as `Rules.Test(extensions, anchored)`:
  - an anchored test (`$`) claims names ending in `"." + ext`;
  - an unanchored test claims names containing `"." + ext` anywhere.
- A key a file leaves out is `None`. This applies to `clean`, `minimize`,
  `minimizer`, `cacheGroups`, Babel `plugins`, `devServer` and `performance`.
  Modelling absence this way makes the differences between the files
  statable.

Both combined files set `clean: true` in both modes
(`Output.CombinedOutput`); only the split development files leave `clean`
out (`Agreement.ReactDevDiverges`, `Agreement.VueDevDiverges`).

## Model

| member | source | states |
|---|---|---|
| `Common.ModeOf` | REACT-CLI/config/webpack.config.js:12 | production is selected exactly when `NODE_ENV` is the string `production`; an unset or any other value means development |
| `Common.ModeNameRoundTrip` | VUE-CLI/config/webpack.config.js:137-138 | feeding a file's own `mode` value back as `NODE_ENV` selects that mode again; the two modes write different `mode` and `devtool` values |
| `Gating.CompactMembership` | REACT-CLI/config/webpack.config.js:109-138 | after `filter(Boolean)` every remaining element came from a present entry, and every present entry remains |
| `Gating.CompactKeepsOrder` | VUE-CLI/config/webpack.config.js:101-136 | two present entries keep their relative order after filtering |
| `Gating.CompactAppend` | REACT-CLI/config/webpack.config.js:14-40 | filtering a concatenation gives the concatenation of the filtered parts, so fixed loaders and the optional preprocessor filter independently |
| `Gating.GateContributes` | REACT-CLI/config/webpack.config.js:99-101 | `cond && value` inside a filtered list contributes `[value]` when `cond` holds and nothing otherwise |
| `StyleChain.GetStyleLoaders` | REACT-CLI/config/webpack.config.js:14-40 | four loaders when `pre` is truthy and three otherwise: the first loader, `css-loader`, `postcss-loader` with `postcss-preset-env`, then `pre` |
| `StyleChain.ChainOrder` | VUE-CLI/config/webpack.config.js:15-31 | the loader names are exactly first loader, `css-loader`, `postcss-loader`, then the preprocessor if one is given |
| `StyleChain.PreprocessorOptions` | REACT-CLI/config/webpack.config.js:28-38 | the theme options go to the preprocessor exactly when it is `less-loader` written as an object; other objects get `{}`; a bare preprocessor gets no options; the first loader plays no part |
| `StyleChain.PreprocessorIsLast` | REACT-CLI/config/webpack.prod.js:10-26 | a truthy preprocessor entry is the fourth and last element of the filtered list |
| `Rules.StyleRules` | REACT-CLI/config/webpack.config.js:57-75 | four stylesheet rules tested by `\.css$`, `\.less$`, `\.s[ac]ss$` and `\.styl$` in that order, each with the shared chain ending in its own preprocessor |
| `Rules.StyleRuleFirst` | VUE-CLI/config/webpack.config.js:48-66 | every stylesheet rule starts with the file's first loader |
| `Rules.DisjointTestsNeverOverlap` | REACT-CLI/config/webpack.config.js:58-68 | two end-anchored tests with dot-free extensions and no shared extension never claim the same name |
| `Rules.SeparatedIsUnambiguous` | REACT-CLI/config/webpack.config.js:55-105 | the decidable separation check on a rule list implies that no name is claimed by two anchored rules |
| `Rules.SeparatedAppend` | VUE-CLI/config/webpack.config.js:46-97 | two separated test lists that are separated from each other join into a separated list |
| `Rules.StyleTestsSeparated` | VUE-CLI/config/webpack.config.js:49-65 | the four stylesheet tests are separated |
| `Rules.ImageTestOverlapsCss` | REACT-CLI/config/webpack.config.js:77-78 | the unanchored image test also claims a name that the anchored css test claims (`a.png.css`) |
| `Rules.StyleSkeletonsAgree` | REACT-CLI/config/webpack.dev.js:6-22 | two chain builders with the same first loader yield stylesheet rules that differ only in loader options |
| `Rules.SkeletonsAppend` | VUE-CLI/config/webpack.dev.js:37-88 | the skeleton of a concatenated rule list is the concatenation of the skeletons |
| `Strings.DottedSuffixUnique` | VUE-CLI/config/webpack.config.js:84-94 | a name ends in `.e` for at most one dot-free extension `e` |
| `Combined.FirstLoaderFor` | VUE-CLI/config/webpack.config.js:17 | the first style loader extracts to a file exactly in production; in development it is `style-loader` for React and `vue-style-loader` for Vue |
| `Combined.FirstStyleLoader` | REACT-CLI/config/webpack.config.js:16 | every stylesheet rule of a combined file starts with `MiniCssExtractPlugin.loader` exactly in production |
| `Combined.RefreshBabelPlugins` | REACT-CLI/config/webpack.config.js:99-101 | the Babel `plugins` list is exactly `['react-refresh/babel']` in development and empty in production |
| `Combined.ReactScriptRule` | REACT-CLI/config/webpack.config.js:92-104 | the seventh and last React rule sends `.js`/`.jsx` under `src` to `babel-loader` with cache on, compression off, and the refresh plugin only in development |
| `Combined.VueScriptRules` | VUE-CLI/config/webpack.config.js:83-96 | the Vue `.js` rule is scoped to `src` and has no `plugins` key; the last rule sends `.vue` to `vue-loader` |
| `Combined.AssetRules` | REACT-CLI/config/webpack.config.js:77-90 | images are `asset` with a 10240-byte data-URL limit and fonts are `asset/resource`, in both frameworks and modes |
| `Combined.CombinedRulesUnambiguous` | VUE-CLI/config/webpack.config.js:46-98 | in both frameworks and modes, no name is claimed by two anchored rules |
| `Combined.ReactPlugins` | REACT-CLI/config/webpack.config.js:109-138 | production: ESLint, HTML, CSS extraction, copy; development: ESLint, HTML, React refresh; in that order |
| `Combined.VuePlugins` | VUE-CLI/config/webpack.config.js:101-136 | production: ESLint, HTML, CSS extraction, copy, Vue loader, flags; development: ESLint, HTML, Vue loader, flags; in that order |
| `Combined.PluginGating` | REACT-CLI/config/webpack.config.js:122-137 | ESLint and HTML lead; CSS extraction and copy are present exactly in production; refresh exactly in React development; the Vue loader and flags exactly in Vue |
| `Combined.PluginOptions` | VUE-CLI/config/webpack.config.js:118-135 | the copy plugin copies `public` to `dist` except `index.html`; the Vue flags enable the Options API and disable production devtools, in both modes |
| `Combined.AssembleParts` | REACT-CLI/config/webpack.config.js:141-208 | only the React file declares cache groups; the extension lists are `.jsx`/`.vue` first, then `.js`, `.json`; the runtime chunk template is the same in both modes |
| `Combined.Assemble` | REACT-CLI/config/webpack.config.js:42-217 | `mode`/`devtool` follow the mode; `minimize` equals production; filenames are hashed and a path is set exactly in production; rules are unambiguous; the Vue loader plugin is present exactly for Vue |
| `Plugins.ExtractedCssHashed` | REACT-CLI/config/webpack.config.js:122-125 | the extracted stylesheet and its chunks are named with a content hash |
| `Output.CombinedOutput` | REACT-CLI/config/webpack.config.js:46-52 | bundle and chunk names carry a content hash exactly in production; the output path is set exactly in production and is `../dist`; `clean` is true in both modes |
| `Output.HashedTemplates` | VUE-CLI/config/webpack.config.js:39-40 | the production templates contain `[contenthash:10]` and the development templates do not |
| `Output.AssetNamesModeIndependent` | REACT-CLI/config/webpack.config.js:50 | the asset file name is the same in both modes; it is named by the asset's own `[hash:10]` placeholder and does not contain `[contenthash:10]` |
| `Optimization.FallsUnderNodeModules` | REACT-CLI/config/webpack.config.js:147-159 | any path the react or antd pattern claims is also claimed by the plain `node_modules` pattern |
| `Optimization.DescendingEverywhere` | REACT-CLI/config/webpack.config.js:149-161 | priorities that fall between neighbours fall between any earlier and any later group |
| `Optimization.ReactCacheGroupOrder` | REACT-CLI/config/webpack.config.js:144-163 | priorities are 40, 30 and 20, strictly falling in declaration order; the libs group claims every path any group claims |
| `Optimization.ReactPathMatchesTwoGroups` | REACT-CLI/config/webpack.config.js:146-162 | `/node_modules/react-dom/index.js` is claimed by both the react and the libs groups, so priority decides |
| `Optimization.RenderThenRecover` | REACT-CLI/config/webpack.config.js:165-167 | the entry name can be read back from a rendered runtime chunk name |
| `Optimization.RecoverThenRender` | VUE-CLI/config/webpack.config.js:143-145 | a name from which an entry is read back is the rendering of that entry |
| `Optimization.RuntimeNameInjective` | REACT-CLI/config/webpack.prod.js:126-128 | different entry points get different runtime chunk names |
| `SplitConfigs.SplitStyleChains` | REACT-CLI/config/webpack.prod.js:10-26 | all four of the split files' stylesheet rules start with `MiniCssExtractPlugin.loader`, `style-loader` and `vue-style-loader` respectively, with a bare preprocessor |
| `SplitConfigs.SplitOutputs` | REACT-CLI/config/webpack.dev.js:28-33 | the production file writes hashed names under `../dist` and cleans it; the development files set no path, use plain names and leave `clean` out |
| `Agreement.ReactProdRulesAgree` | REACT-CLI/config/webpack.prod.js:41-87 | the production file's rules match the combined React rules at production, test for test and loader for loader |
| `Agreement.TailSkeletonsAgree` | REACT-CLI/config/webpack.prod.js:62-86 | the image, font and script rules have the same skeletons whatever the script rule's Babel plugins |
| `Agreement.ReactProdAgrees` | REACT-CLI/config/webpack.prod.js:28-169 | the production file has the combined React file's production plugins, output, `mode`, `devtool`, extensions, runtime chunk and minimizers |
| `Agreement.ReactProdDiverges` | REACT-CLI/config/webpack.prod.js:28-169 | unlike the combined file, the production file has no cache groups, no `minimize`, a bare `less-loader` without the theme, no Babel `plugins` key, no dev server and no `performance` key |
| `Agreement.ReactDevAgrees` | REACT-CLI/config/webpack.dev.js:24-126 | the development file matches the combined React file at development in rule skeletons, its script rule, plugins, output names, `mode`, `devtool` and dev server |
| `Agreement.ReactDevDiverges` | REACT-CLI/config/webpack.dev.js:28-113 | unlike the combined file, the development file has no `clean`, no theme, no cache groups, no `minimize`, no minimizers and no `performance` |
| `Agreement.VueDevAgrees` | VUE-CLI/config/webpack.dev.js:25-135 | the Vue development file has exactly the combined Vue file's development rules and plugins, and its output names, `mode`, `devtool`, extensions and chunking |
| `Agreement.VueDevDiverges` | VUE-CLI/config/webpack.dev.js:29-122 | unlike the combined file, the Vue development file has no `clean`, no `minimize` and no minimizers |

## Left out

- Reading the environment and the `console.log` of it (REACT-CLI/config/webpack.config.js:11-12): `NODE_ENV` is a parameter of `Common.ModeOf`, and the combined files take the resulting `Mode` as their argument.
- `require` of the loader and plugin packages: plugins are data constructors. Nothing models what a loader or plugin does (Babel, PostCSS, Less, ESLint, HTML generation, copying, minification).
- Webpack's own semantics are not modelled. This covers applying rules to modules, right-to-left loader execution, choosing a cache group by priority, the inline-or-emit decision against the data-URL limit, and running minimizers. The model states the configuration records that drive them, not the build itself.
- Regular expressions: only the shapes these files use are modelled. Rule tests are extension alternations, anchored or not, and cache-group tests are `node_modules` path patterns. There is no general regex engine.
- `path.resolve(__dirname, …)`: `Common.Path` keeps the relative argument. Absolute paths and the file system are not modelled.
- `runtimeChunk.name` is a function of the entry point. It is modelled as a template with one hole for the entry's name (`Optimization.NameTemplate`). Other fields of the entry point object are not modelled.
- `ImageMinimizerWebpackPlugin.imageminGenerate` is a function reference, kept as its name.
- `devServer` and `performance` are kept as data only. Nothing models serving, hot replacement or history fallback.
- These files have no catch-all binary rule, no lint pre-step inside a rule, no error raising and no Vue cache groups, so the model has none either.
- Gating.Compact: its own contract gives only the length facts. Membership and order are stated in `Gating.CompactMembership` and `Gating.CompactKeepsOrder`, to keep the verifier's work small.
- Combined.ReactPlugins and Combined.VuePlugins state the exact plugin list per mode, but they do not state each plugin's options. Those are constants, and `Combined.PluginOptions` states the copy and flag options.
