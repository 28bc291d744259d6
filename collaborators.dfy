/** The calls the builder makes into its module, plugin, optimization and
    externals collaborators, and the plugin options it decides itself. */
module Collaborators {
  import opened Values

  /** The rule-setup operations of BrowserModules and ServerModules. */
  datatype RuleSetup =
    | Html | Babel | Css | Sass | ImageFile | Font | Audio | Video | SsrStripBlock

  /** The properties handed to the HTML-emission plugin. */
  datatype HtmlOptions = HtmlOptions(template: string, filename: string, inject: string, scriptLoading: string)

  /** The caller's optional plugin properties; only `ext` and `dir` are read. */
  datatype PluginProps = PluginProps(ext: Value, dir: Value)

  /** One call into a collaborator, in the order the builder makes them. */
  datatype Call =
    | BrowserModuleSetup(rule: RuleSetup)
    | ServerModuleSetup(rule: RuleSetup)
    | BrowserHtmlPlugin(html: HtmlOptions)
    | BrowserCssPlugin(cssFilename: string)
    | ServerCssPlugin(cssFilename: string)
    | SplitChunk
    | NodeExternals

  /** The fixed setup sequence of `browserModules`. */
  const BrowserModuleCalls: seq<Call> := [
    BrowserModuleSetup(Html), BrowserModuleSetup(Babel), BrowserModuleSetup(Css),
    BrowserModuleSetup(Sass), BrowserModuleSetup(ImageFile), BrowserModuleSetup(Font),
    BrowserModuleSetup(Audio), BrowserModuleSetup(Video)]

  /** The fixed setup sequence of `serverModules`: the browser's eight, then SSR block stripping. */
  const ServerModuleCalls: seq<Call> := [
    ServerModuleSetup(Html), ServerModuleSetup(Babel), ServerModuleSetup(Css),
    ServerModuleSetup(Sass), ServerModuleSetup(ImageFile), ServerModuleSetup(Font),
    ServerModuleSetup(Audio), ServerModuleSetup(Video), ServerModuleSetup(SsrStripBlock)]

  /** The style-extraction file pattern both targets use. */
  const CssFilename: string := "css/oreonyx.[name].[contenthash].css"

  /** The props ask for an html page placed according to `dir`. */
  predicate AsksForHtml(props: Option<PluginProps>, dir: string) {
    props.Some? && props.value.ext == Str("html") && props.value.dir == Str(dir)
  }

  /** The file the HTML-emission plugin writes, for the entry's source directory
      `srcDir` and the caller's props. */
  function HtmlFilename(srcDir: string, props: Option<PluginProps>): (r: string)
    ensures AsksForHtml(props, "self") ==> r == srcDir + "/index.html"
    ensures AsksForHtml(props, "dist") ==> r == "public/index.html"
    ensures !AsksForHtml(props, "self") && !AsksForHtml(props, "dist") ==> r == srcDir + "/main.croxo.php"
  {
    var fallback := srcDir + "/main.croxo.php";
    match props
    case None => fallback
    case Some(p) =>
      if p.ext == Str("html") && p.dir == Str("self") then srcDir + "/index.html"
      else if p.ext == Str("html") && p.dir == Str("dist") then "public/index.html"
      else fallback
  }

  /** The emitted page is an `.html` file exactly when the props ask for html in
      the entry's directory or in the distribution directory; otherwise it is the
      PHP template. */
  lemma HtmlFilenameIsHtml(srcDir: string, props: Option<PluginProps>)
    ensures EndsWith(HtmlFilename(srcDir, props), ".html") <==> AsksForHtml(props, "self") || AsksForHtml(props, "dist")
    ensures !EndsWith(HtmlFilename(srcDir, props), ".html") ==> EndsWith(HtmlFilename(srcDir, props), "/main.croxo.php")
  {
    var r := HtmlFilename(srcDir, props);
    if AsksForHtml(props, "self") {
      assert r[|r| - 5..] == ".html";
    } else if AsksForHtml(props, "dist") {
      assert r[|r| - 5..] == ".html";
    } else {
      assert r[|r| - 1] == 'p';
      assert r[|r| - 15..] == "/main.croxo.php";
    }
  }
}
