# WebpackConfig builder, modelled in Dafny

This project models the `WebpackConfig` class of the oreonyx build tooling. The class
assembles a webpack configuration document for two deployment targets: the browser
(`"web"`) and the server-side-rendering runtime (`"node"`). The document is one mutable
map from section name to value. Each builder method writes one top-level section under
one of these disciplines:

- write once, if the section is absent: `mode`, `target`, `name`, `resolve`;
- always overwrite: `devtool`, `entry`, `module`, `plugins`, `optimization`, `externals`;
- overwrite only when `target` matches, and throw otherwise: `output` (browser or server);
- do nothing when disabled: `devServer`.

`publicPath` touches only the builder's private host and public path.

Layout:

- `values.dfy` (module `Values`): a JavaScript value as the document needs it, including
  `undefined` and `null`. It also holds `Option`, `Outcome` (success or a thrown message) and the
  opaque tokens for objects built by unseen collaborators.
- `document.dfy` (module `Document`): the document type, JavaScript property reads, the
  write-once discipline and the mode-dependent `devtool` choice.
- `paths.dfy` (module `Paths`): the File collaborator as four arbitrary total functions.
  It also defines the entry map built from a list of paths, with its key set and its
  last-write-wins rule.
- `output.dfy` (module `Output`): the literal output descriptors of the two targets, and
  what it means for an `output` section to fit the document's `target`.
- `collaborators.dfy` (module `Collaborators`): the calls the builder makes into its rule,
  plugin, optimization and externals collaborators, and the three-way choice of the HTML
  page file name.
- `webpack_config.dfy` (module `Webpack`): the class `WebpackConfig`. Its field
  `webpackConfig` is the document. Its fields `publicPath`, `host`, `entryPath` and
  `hash` are the private state. Its field `calls` is the trace of collaborator calls.
  Every method has `requires Valid()`, `ensures Valid()` and a `modifies` clause that
  names only the fields it changes. Each method states the whole new document in terms
  of the old one. The invariant `Valid()` says:
  - the `entry` section and the remembered entry argument are set together and agree;
  - an `output` section always fits the write-once `target` it was built for.

Three behaviours of the code are worth stating plainly:

- `entry` remembers the whole argument, a string or a list, not only its first path;
- a repeated basename in the entry list raises no error, and the later path wins;
- the default HTML page is `<source dir>/main.croxo.php`.

## Model

| member | source | states |
|---|---|---|
| `Document.WriteOnce` | src/webpack/WebpackConfig.js:30-39 | the section is present afterwards; if it was present the whole document is unchanged; otherwise it holds the new value and every other section is unchanged |
| `Document.DevtoolFor` | src/webpack/WebpackConfig.js:48-50 | `"eval"` exactly when `mode` is present and equals `"development"`, `"none"` in every other case |
| `Paths.EntryMapKeys` | src/webpack/WebpackConfig.js:58-63 | the entry map's keys are exactly the basenames of the listed paths |
| `Paths.EntryMapLastWins` | src/webpack/WebpackConfig.js:60-63 | a basename maps to the relative path of the last listed path that has that basename |
| `Output.OutputDescriptor` | src/webpack/WebpackConfig.js:72-77 | the output record has exactly the fields publicPath, path, filename and clean; it carries the given public path, and its path and file name are the platform's |
| `Output.OutputsDistinguishPlatforms` | src/webpack/WebpackConfig.js:85-90 | no output record fits both the browser and the server, because their file names differ |
| `Webpack.OutputDeterminesTarget` | src/webpack/WebpackConfig.js:67-90 | in a builder's document with an `output` section, the output file name is `"server.js"` exactly when `target` is `"node"`, and the hashed browser bundle exactly when `target` is `"web"` |
| `Collaborators.HtmlFilename` | src/webpack/WebpackConfig.js:121-126 | the page is `<srcDir>/index.html` for html in `self`, `public/index.html` for html in `dist`, and `<srcDir>/main.croxo.php` otherwise, including when props are absent |
| `Collaborators.HtmlFilenameIsHtml` | src/webpack/WebpackConfig.js:121-126 | the page ends in `.html` if and only if the props ask for html in `self` or `dist`; otherwise it ends in `/main.croxo.php` |
| `Webpack.WebpackConfig.constructor` | src/webpack/WebpackConfig.js:17-28 | the document starts empty, the public path is `"/"`, the hash placeholder is `"contenthash"`, host and entry are unset, and the call trace is empty |
| `Webpack.WebpackConfig.Mode` | src/webpack/WebpackConfig.js:30-32 | write-once `mode`, where an undefined argument means `"production"` and any other argument, `null` included, is stored as given; the invariant is kept |
| `Webpack.WebpackConfig.Target` | src/webpack/WebpackConfig.js:34-36 | write-once `target`; any value is accepted; the invariant is kept, so an existing output still fits |
| `Webpack.WebpackConfig.Name` | src/webpack/WebpackConfig.js:38-40 | write-once `name` |
| `Webpack.WebpackConfig.PublicPath` | src/webpack/WebpackConfig.js:43-46 | host becomes `hostname` and the public path becomes `hostname + "/" + dir`, with an omitted `dir` read as empty; the document is unchanged |
| `Webpack.WebpackConfig.DevTool` | src/webpack/WebpackConfig.js:48-50 | `devtool` is overwritten with the mode-dependent choice; no other section changes |
| `Webpack.WebpackConfig.Entry` | src/webpack/WebpackConfig.js:52-65 | the argument is remembered; `entry` becomes the string itself or, for a list, the entry map built in list order by the loop; no other section changes |
| `Webpack.WebpackConfig.BrowserOutput` | src/webpack/WebpackConfig.js:67-78 | succeeds exactly when `target` is `"web"`; on failure it returns the thrown message and leaves the document unchanged; on success only `output` changes, to the browser record with the current public path |
| `Webpack.WebpackConfig.ServerOutput` | src/webpack/WebpackConfig.js:80-91 | succeeds exactly when `target` is `"node"`; on failure it returns the thrown message and leaves the document unchanged; on success only `output` changes, to the server record with the current public path |
| `Webpack.WebpackConfig.BrowserModules` | src/webpack/WebpackConfig.js:93-103 | the eight browser rule setups run in source order; `module` then refers to the browser rule list, and nothing else changes |
| `Webpack.WebpackConfig.ServerModules` | src/webpack/WebpackConfig.js:106-117 | the eight rule setups run, then SSR block stripping; `module` then refers to the server rule list, and nothing else changes |
| `Webpack.WebpackConfig.BrowserPlugins` | src/webpack/WebpackConfig.js:120-144 | the HTML plugin is registered with template, chosen page file, body injection and deferred loading, then the CSS plugin with the fixed pattern; `plugins` then refers to the browser plugin list |
| `Webpack.WebpackConfig.ServerPlugins` | src/webpack/WebpackConfig.js:146-148 | only the CSS plugin is registered, with the fixed pattern; `plugins` then refers to the server plugin list |
| `Webpack.WebpackConfig.DevServer` | src/webpack/WebpackConfig.js:150-162 | a false flag leaves the document unchanged; a true flag sets `devServer` to localhost, port 5050, hot and open on, serving the resolved `public` directory |
| `Webpack.WebpackConfig.Optimization` | src/webpack/WebpackConfig.js:165-170 | chunk splitting runs once; `optimization` then refers to the policy object |
| `Webpack.WebpackConfig.Externals` | src/webpack/WebpackConfig.js:172-174 | `externals` becomes a one-element list holding the node-externals rule |
| `Webpack.WebpackConfig.Resolve` | src/webpack/WebpackConfig.js:176-178 | write-once `resolve`, holding a copy of the extension list |

## Left out

- File helpers (`file_basename`, `relative_path`, `resolve_path`, `extract_src_dir`): their file-system behaviour is not part of this model. They are arbitrary total functions passed to the constructor, and are assumed to have no side effects. Because of that, calling `resolve_path` before the target check in the output builders is not observable.
- The internals of BrowserModules, ServerModules, BrowserPlugins, ServerPlugins, Optimization and Extra are not part of this model. Their calls are recorded in order in the `calls` trace. The objects they produce are opaque tokens, so nothing is said about rule or plugin accumulation or deduplication.
- The `async` markers on the output builders: the model uses ordinary methods that return `Fail(message)` where the source throws (a rejected promise).
- JavaScript stringification in template literals: `publicPath` takes a string host and an optional string directory, so a non-string argument is not modelled.
- Webpack.WebpackConfig.Entry: an argument that is neither a string nor an iterable of strings (the source would throw in its loop) is not modelled.
- The order of the entry object's keys and special property names such as `__proto__` are not modelled, because the entry map is a Dafny `map`.
- The webpack engine that consumes the finished document is not part of this model.
- Webpack.WebpackConfig.Resolve: takes a list of values, so it does not model the TypeError that spreading a non-iterable argument raises, nor a string argument spread into its characters.
- Aliasing of the entry argument: the source keeps a reference to the caller's list. If the caller later mutates that list, `extract_src_dir` sees the change but the `entry` section does not. The model stores the argument as a value, so it does not capture this. Its invariant that the `entry` section and the remembered argument agree relies on that.
- JavaScript truthiness: the `devServer` flag is a `bool`, and the optional plugin props are an `Option` (absent for any falsy value). Other falsy or truthy values are not modelled.
- Numbers: `Num` holds an integer, and the only number the builder writes is the port 5050. Floating-point values are not modelled.
- Direct writes by callers: the document is a public property, so a caller may assign any section directly. The model covers only the builder's own methods. Each of them requires `Valid()`, an invariant that only those methods maintain. A direct write to `entry`, `output` or `target` is therefore not modelled.
