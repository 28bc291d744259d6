/** The configuration builder: one mutable document, one section per operation. */
module Webpack {
  import opened Values
  import opened Document
  import opened Paths
  import opened Output
  import opened Collaborators

  /** The fixed development-server settings, serving `staticDir`. */
  function DevServerDescriptor(staticDir: string): Value {
    Obj(map[
      "static" := Obj(map["directory" := Str(staticDir)]),
      "host" := Str("localhost"),
      "port" := Num(5050),
      "hot" := Bool(true),
      "open" := Bool(true)])
  }

  class WebpackConfig {
    /** The configuration document under construction. */
    var webpackConfig: Doc
    /** The private public path, host, hash placeholder and remembered entry. */
    var publicPath: string
    var host: Option<string>
    var entryPath: Option<EntryArg>
    const hash: string
    /** The File collaborator. */
    const file: PathResolver
    /** Every call made into the module, plugin, optimization and externals
        collaborators, in order. */
    var calls: seq<Call>

    /** The builder's invariant: the entry section and the remembered entry are
        set together and agree; an output section always fits the (write-once)
        target it was built for. */
    ghost predicate Valid()
      reads this
    {
      && hash == "contenthash"
      && ("entry" in webpackConfig <==> entryPath.Some?)
      && (entryPath.Some? ==> webpackConfig["entry"] == EntryValue(file, entryPath.value))
      && ("output" in webpackConfig ==> OutputFitsTarget(webpackConfig, file, hash))
    }

    constructor (file: PathResolver)
      ensures Valid()
      ensures webpackConfig == map[] && calls == []
      ensures publicPath == "/" && hash == "contenthash"
      ensures host == None && entryPath == None
      ensures this.file == file
    {
      webpackConfig := map[];
      hash := "contenthash";
      publicPath := "/";
      host := None;
      entryPath := None;
      this.file := file;
      calls := [];
    }

    /** `mode`, written once; an omitted or undefined argument means "production",
        any other argument (null included) is stored as given. */
    method Mode(mode: Value)
      requires Valid()
      modifies this`webpackConfig
      ensures Valid()
      ensures webpackConfig == WriteOnce(old(webpackConfig), "mode", if mode.Undefined? then Str("production") else mode)
    {
      var m := if mode.Undefined? then Str("production") else mode;
      if "mode" !in webpackConfig {
        webpackConfig := webpackConfig["mode" := m];
      }
    }

    /** `target`, written once; any value is accepted. */
    method Target(target: Value)
      requires Valid()
      modifies this`webpackConfig
      ensures Valid()
      ensures webpackConfig == WriteOnce(old(webpackConfig), "target", target)
    {
      if "target" !in webpackConfig {
        webpackConfig := webpackConfig["target" := target];
      }
    }

    /** `name`, written once. */
    method Name(name: Value)
      requires Valid()
      modifies this`webpackConfig
      ensures Valid()
      ensures webpackConfig == WriteOnce(old(webpackConfig), "name", name)
    {
      if "name" !in webpackConfig {
        webpackConfig := webpackConfig["name" := name];
      }
    }

    /** Remembers the host and the public path `host/dir` for later output
        sections; an omitted `dir` is empty. The document is not touched. */
    method PublicPath(hostname: string, dir: Option<string>)
      requires Valid()
      modifies this`host, this`publicPath
      ensures Valid()
      ensures host == Some(hostname)
      ensures publicPath == hostname + "/" + dir.GetOr("")
      ensures webpackConfig == old(webpackConfig)
    {
      host := Some(hostname);
      publicPath := hostname + "/" + dir.GetOr("");
    }

    /** `devtool`, always overwritten, chosen from the mode present now. */
    method DevTool()
      requires Valid()
      modifies this`webpackConfig
      ensures Valid()
      ensures webpackConfig == old(webpackConfig)["devtool" := Str(DevtoolFor(old(webpackConfig)))]
    {
      webpackConfig := webpackConfig["devtool" := Str(DevtoolFor(webpackConfig))];
    }

    /** `entry`, always overwritten: a path verbatim, or for a list a map from each
        path's basename to its relative path, filled in list order. */
    method Entry(filepath: EntryArg)
      requires Valid()
      modifies this`entryPath, this`webpackConfig
      ensures Valid()
      ensures entryPath == Some(filepath)
      ensures webpackConfig == old(webpackConfig)["entry" := EntryValue(file, filepath)]
    {
      entryPath := Some(filepath);
      match filepath {
        case Single(p) =>
          webpackConfig := webpackConfig["entry" := Str(p)];
        case Many(paths) =>
          var entries: map<string, Value> := map[];
          webpackConfig := webpackConfig["entry" := Obj(entries)];
          for i := 0 to |paths|
            invariant entryPath == Some(filepath)
            invariant entries == EntryMap(file, paths[..i])
            invariant webpackConfig == old(webpackConfig)["entry" := Obj(entries)]
          {
            assert paths[..i + 1][..i] == paths[..i];
            entries := entries[file.basename(paths[i]) := Str(file.relativePath(paths[i]))];
            webpackConfig := webpackConfig["entry" := Obj(entries)];
          }
          assert paths[..|paths|] == paths;
      }
    }

    /** `output` for the browser; throws unless `target` is "web". */
    method BrowserOutput() returns (r: Outcome)
      requires Valid()
      modifies this`webpackConfig
      ensures Valid()
      ensures r.Pass? <==> Get(old(webpackConfig), "target") == Str("web")
      ensures r.Fail? ==> r.message == TargetError(Web) && webpackConfig == old(webpackConfig)
      ensures r.Pass? ==> webpackConfig == old(webpackConfig)["output" := OutputDescriptor(Web, publicPath, file, hash)]
    {
      if Get(webpackConfig, "target") != Str(TargetName(Web)) {
        return Fail(TargetError(Web));
      }
      webpackConfig := webpackConfig["output" := OutputDescriptor(Web, publicPath, file, hash)];
      r := Pass;
    }

    /** `output` for the server runtime; throws unless `target` is "node". */
    method ServerOutput() returns (r: Outcome)
      requires Valid()
      modifies this`webpackConfig
      ensures Valid()
      ensures r.Pass? <==> Get(old(webpackConfig), "target") == Str("node")
      ensures r.Fail? ==> r.message == TargetError(Node) && webpackConfig == old(webpackConfig)
      ensures r.Pass? ==> webpackConfig == old(webpackConfig)["output" := OutputDescriptor(Node, publicPath, file, hash)]
    {
      if Get(webpackConfig, "target") != Str(TargetName(Node)) {
        return Fail(TargetError(Node));
      }
      webpackConfig := webpackConfig["output" := OutputDescriptor(Node, publicPath, file, hash)];
      r := Pass;
    }

    /** Runs the browser rule setups in their fixed order; `module` then refers
        to the browser rule list. */
    method BrowserModules()
      requires Valid()
      modifies this`calls, this`webpackConfig
      ensures Valid()
      ensures calls == old(calls) + BrowserModuleCalls
      ensures webpackConfig == old(webpackConfig)["module" := Opaque(BrowserModuleList)]
    {
      calls := calls + [BrowserModuleSetup(Html)];
      calls := calls + [BrowserModuleSetup(Babel)];
      calls := calls + [BrowserModuleSetup(Css)];
      calls := calls + [BrowserModuleSetup(Sass)];
      calls := calls + [BrowserModuleSetup(ImageFile)];
      calls := calls + [BrowserModuleSetup(Font)];
      calls := calls + [BrowserModuleSetup(Audio)];
      calls := calls + [BrowserModuleSetup(Video)];
      webpackConfig := webpackConfig["module" := Opaque(BrowserModuleList)];
    }

    /** Runs the server rule setups, SSR block stripping last; `module` then
        refers to the server rule list. */
    method ServerModules()
      requires Valid()
      modifies this`calls, this`webpackConfig
      ensures Valid()
      ensures calls == old(calls) + ServerModuleCalls
      ensures webpackConfig == old(webpackConfig)["module" := Opaque(ServerModuleList)]
    {
      calls := calls + [ServerModuleSetup(Html)];
      calls := calls + [ServerModuleSetup(Babel)];
      calls := calls + [ServerModuleSetup(Css)];
      calls := calls + [ServerModuleSetup(Sass)];
      calls := calls + [ServerModuleSetup(ImageFile)];
      calls := calls + [ServerModuleSetup(Font)];
      calls := calls + [ServerModuleSetup(Audio)];
      calls := calls + [ServerModuleSetup(Video)];
      calls := calls + [ServerModuleSetup(SsrStripBlock)];
      webpackConfig := webpackConfig["module" := Opaque(ServerModuleList)];
    }

    /** Registers the HTML-emission plugin, with the page file chosen from the
        props and the remembered entry, then the style-extraction plugin;
        `plugins` then refers to the browser plugin list. */
    method BrowserPlugins(props: Option<PluginProps>)
      requires Valid()
      modifies this`calls, this`webpackConfig
      ensures Valid()
      ensures calls == old(calls) + [
        BrowserHtmlPlugin(HtmlOptions("./template.html", HtmlFilename(file.extractSrcDir(entryPath), props), "body", "defer")),
        BrowserCssPlugin(CssFilename)]
      ensures webpackConfig == old(webpackConfig)["plugins" := Opaque(BrowserPluginList)]
    {
      var filename := HtmlFilename(file.extractSrcDir(entryPath), props);
      var html := HtmlOptions("./template.html", filename, "body", "defer");
      calls := calls + [BrowserHtmlPlugin(html)];
      calls := calls + [BrowserCssPlugin(CssFilename)];
      webpackConfig := webpackConfig["plugins" := Opaque(BrowserPluginList)];
    }

    /** Registers the style-extraction plugin only; `plugins` then refers to the
        server plugin list. */
    method ServerPlugins()
      requires Valid()
      modifies this`calls, this`webpackConfig
      ensures Valid()
      ensures calls == old(calls) + [ServerCssPlugin(CssFilename)]
      ensures webpackConfig == old(webpackConfig)["plugins" := Opaque(ServerPluginList)]
    {
      calls := calls + [ServerCssPlugin(CssFilename)];
      webpackConfig := webpackConfig["plugins" := Opaque(ServerPluginList)];
    }

    /** `devServer`: nothing when disabled, else the fixed settings serving the
        resolved `public` directory. */
    method DevServer(devserver: bool)
      requires Valid()
      modifies this`webpackConfig
      ensures Valid()
      ensures !devserver ==> webpackConfig == old(webpackConfig)
      ensures devserver ==> webpackConfig == old(webpackConfig)["devServer" := DevServerDescriptor(file.resolvePath("public"))]
    {
      if !devserver {
        return;
      }
      webpackConfig := webpackConfig["devServer" := DevServerDescriptor(file.resolvePath("public"))];
    }

    /** Runs chunk splitting; `optimization` then refers to the policy object. */
    method Optimization()
      requires Valid()
      modifies this`calls, this`webpackConfig
      ensures Valid()
      ensures calls == old(calls) + [SplitChunk]
      ensures webpackConfig == old(webpackConfig)["optimization" := Opaque(OptimizationPolicy)]
    {
      calls := calls + [SplitChunk];
      webpackConfig := webpackConfig["optimization" := Opaque(OptimizationPolicy)];
    }

    /** `externals`: a one-element list holding the node-externals rule. */
    method Externals()
      requires Valid()
      modifies this`calls, this`webpackConfig
      ensures Valid()
      ensures calls == old(calls) + [NodeExternals]
      ensures webpackConfig == old(webpackConfig)["externals" := Arr([Opaque(NodeExternalsRule)])]
    {
      calls := calls + [NodeExternals];
      webpackConfig := webpackConfig["externals" := Arr([Opaque(NodeExternalsRule)])];
    }

    /** `resolve`, written once, holding a copy of the extension list. */
    method Resolve(extns: seq<Value>)
      requires Valid()
      modifies this`webpackConfig
      ensures Valid()
      ensures webpackConfig == WriteOnce(old(webpackConfig), "resolve", Obj(map["extensions" := Arr(extns)]))
    {
      if "resolve" !in webpackConfig {
        webpackConfig := webpackConfig["resolve" := Obj(map["extensions" := Arr(extns)])];
      }
    }
  }

  /** In a builder's document the output file name and the target determine
      each other: the file is "server.js" exactly when the target is "node",
      and the hashed browser bundle exactly when the target is "web". */
  lemma OutputDeterminesTarget(c: WebpackConfig)
    requires c.Valid() && "output" in c.webpackConfig
    ensures c.webpackConfig["output"].Obj? && "filename" in c.webpackConfig["output"].fields
    ensures (c.webpackConfig["output"].fields["filename"] == Str(BundleFilename(Node, c.hash)))
        <==> (Get(c.webpackConfig, "target") == Str(TargetName(Node)))
    ensures (c.webpackConfig["output"].fields["filename"] == Str(BundleFilename(Web, c.hash)))
        <==> (Get(c.webpackConfig, "target") == Str(TargetName(Web)))
  {
    OutputsDistinguishPlatforms(c.webpackConfig["output"], c.file, c.hash);
  }

  /** Clients of the builder: what its contracts alone let a caller conclude. */
  method ModeScenario(file: PathResolver)
  {
    var c := new WebpackConfig(file);
    c.Mode(Str("development"));
    c.Mode(Str("production"));
    assert c.webpackConfig["mode"] == Str("development");
    c.DevTool();
    assert c.webpackConfig["devtool"] == Str("eval");
  }

  method OutputScenario(file: PathResolver)
  {
    var c := new WebpackConfig(file);
    var r := c.BrowserOutput();
    assert r == Fail("Target must be web :_(") && "output" !in c.webpackConfig;
    c.Target(Str("web"));
    c.Target(Str("node"));
    r := c.ServerOutput();
    assert r.Fail?;
    r := c.BrowserOutput();
    assert r.Pass?;
    assert c.webpackConfig["output"].fields["filename"] == Str(BundleFilename(Web, "contenthash"));
  }

  method DevServerScenario(file: PathResolver)
  {
    var c := new WebpackConfig(file);
    c.DevServer(false);
    assert "devServer" !in c.webpackConfig;
    c.DevServer(true);
    assert c.webpackConfig["devServer"].fields["port"] == Num(5050);
  }
}
