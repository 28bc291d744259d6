/** The values a configuration document is made of, and small helpers on them. */
module Values {

  datatype Option<+T> = None | Some(value: T) {
    function GetOr(default: T): T {
      match this
      case Some(v) => v
      case None => default
    }
  }

  /** Success, or a thrown error carrying its message. */
  datatype Outcome = Pass | Fail(message: string)

  /** Objects built by collaborators whose internals are not part of this model.
      The document holds a reference to them, so they are tokens here. */
  datatype Token =
    | BrowserModuleList    // BrowserModules.module
    | ServerModuleList     // ServerModules.module
    | BrowserPluginList    // BrowserPlugins.plugins
    | ServerPluginList     // ServerPlugins.plugins
    | OptimizationPolicy   // Optimization.optimization
    | NodeExternalsRule    // the result of Extra.nodeExternals()

  /** A JavaScript value as far as the configuration document needs one. */
  datatype Value =
    | Undefined
    | Null
    | Bool(b: bool)
    | Num(n: int)
    | Str(s: string)
    | Arr(items: seq<Value>)
    | Obj(fields: map<string, Value>)
    | Opaque(token: Token)

  predicate EndsWith(s: string, suffix: string) {
    |suffix| <= |s| && s[|s| - |suffix|..] == suffix
  }
}
