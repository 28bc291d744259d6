/** The `output` section the two output builders write. */
module Output {
  import opened Values
  import opened Paths
  import opened Document

  /** The two deployment targets with an output builder. */
  datatype Platform = Web | Node

  /** The value `target` must hold for the platform's output builder to succeed. */
  function TargetName(p: Platform): string {
    match p
    case Web => "web"
    case Node => "node"
  }

  /** The message thrown when `target` does not match. */
  function TargetError(p: Platform): string {
    match p
    case Web => "Target must be web :_("
    case Node => "Target must be node :_("
  }

  /** The directory, relative to the project, the bundle is written to. */
  function OutputDir(p: Platform): string {
    match p
    case Web => "public/assets"
    case Node => "runtime/ssr"
  }

  /** The bundle file name: one hashed file per entry for the browser,
      a single fixed file for the server runtime. */
  function BundleFilename(p: Platform, hash: string): string {
    match p
    case Web => "js/oreonyx.[name].[" + hash + "].js"
    case Node => "server.js"
  }

  /** The path and file name of an `output` section agree with the platform,
      and the output directory is cleaned before writing. */
  predicate DescribesOutput(p: Platform, v: Value, file: PathResolver, hash: string) {
    && v.Obj?
    && "path" in v.fields && v.fields["path"] == Str(file.resolvePath(OutputDir(p)))
    && "filename" in v.fields && v.fields["filename"] == Str(BundleFilename(p, hash))
    && "clean" in v.fields && v.fields["clean"] == Bool(true)
  }

  /** The literal output record: public path, absolute directory, file name, clean. */
  function OutputDescriptor(p: Platform, publicPath: string, file: PathResolver, hash: string): (v: Value)
    ensures DescribesOutput(p, v, file, hash)
    ensures v.fields.Keys == {"publicPath", "path", "filename", "clean"}
    ensures v.fields["publicPath"] == Str(publicPath)
  {
    Obj(map[
      "publicPath" := Str(publicPath),
      "path" := Str(file.resolvePath(OutputDir(p))),
      "filename" := Str(BundleFilename(p, hash)),
      "clean" := Bool(true)])
  }

  /** The two platforms' outputs can never be mistaken for each other: their
      file names differ whatever the hash placeholder is. */
  lemma OutputsDistinguishPlatforms(v: Value, file: PathResolver, hash: string)
    ensures !(DescribesOutput(Web, v, file, hash) && DescribesOutput(Node, v, file, hash))
  {
  }

  /** A document's `output` section was written by the builder of the platform
      its `target` names. */
  predicate OutputFitsTarget(doc: Doc, file: PathResolver, hash: string)
    requires "output" in doc
  {
    || (Get(doc, "target") == Str(TargetName(Web)) && DescribesOutput(Web, doc["output"], file, hash))
    || (Get(doc, "target") == Str(TargetName(Node)) && DescribesOutput(Node, doc["output"], file, hash))
  }
}
