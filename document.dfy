/** The configuration document: one map from section name to value. */
module Document {
  import opened Values

  type Doc = map<string, Value>

  /** A JavaScript property read: a missing section reads as undefined. */
  function Get(doc: Doc, key: string): Value
  {
    if key in doc then doc[key] else Undefined
  }

  /** The write-once-if-absent discipline (`hasOwnProperty` guard): the first write
      of a section wins and every later one leaves the whole document as it was. */
  function WriteOnce(doc: Doc, key: string, v: Value): (r: Doc)
    ensures r.Keys == doc.Keys + {key}
    ensures key in doc ==> r == doc
    ensures key !in doc ==> r[key] == v
    ensures forall k :: k in doc && k != key ==> r[k] == doc[k]
  {
    if key in doc then doc else doc[key := v]
  }

  /** The source-map style chosen from the document's mode: "eval" exactly for a
      development build, "none" for any other mode and for a mode never set. */
  function DevtoolFor(doc: Doc): (r: string)
    ensures r == "eval" <==> "mode" in doc && doc["mode"] == Str("development")
    ensures r == "eval" || r == "none"
  {
    if Get(doc, "mode") == Str("development") then "eval" else "none"
  }
}
