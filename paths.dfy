/** The path helpers the builder consumes, and the entry section derived with them. */
module Paths {
  import opened Values

  /** The argument of `entry`: one path string, or a list of paths. */
  datatype EntryArg = Single(path: string) | Many(paths: seq<string>)

  /** The File collaborator. Its file-system behaviour is not part of this model:
      each helper is an arbitrary total function. `extractSrcDir` receives the
      remembered entry argument, which is undefined (None) before any `entry` call. */
  datatype PathResolver = PathResolver(
    basename: string -> string,
    relativePath: string -> string,
    resolvePath: string -> string,
    extractSrcDir: Option<EntryArg> -> string)

  /** The entry map after the loop has visited `paths` in order: each path is
      written under its basename, so a later path overwrites an earlier one. */
  function EntryMap(file: PathResolver, paths: seq<string>): map<string, Value>
  {
    if |paths| == 0 then map[]
    else
      var last := paths[|paths| - 1];
      EntryMap(file, paths[..|paths| - 1])[file.basename(last) := Str(file.relativePath(last))]
  }

  /** The `entry` section for an argument: a string verbatim, a list as an entry map. */
  function EntryValue(file: PathResolver, arg: EntryArg): Value
  {
    match arg
    case Single(p) => Str(p)
    case Many(ps) => Obj(EntryMap(file, ps))
  }

  /** The keys of the entry map are exactly the basenames of the listed paths. */
  lemma {:induction false} EntryMapKeys(file: PathResolver, paths: seq<string>)
    ensures EntryMap(file, paths).Keys == set i | 0 <= i < |paths| :: file.basename(paths[i])
  {
    if |paths| > 0 {
      var n := |paths| - 1;
      var front := paths[..n];
      EntryMapKeys(file, front);
      var s := set i | 0 <= i < |paths| :: file.basename(paths[i]);
      var sFront := set i | 0 <= i < n :: file.basename(front[i]);
      forall k | k in s ensures k in sFront + {file.basename(paths[n])} {
        var i :| 0 <= i < |paths| && k == file.basename(paths[i]);
        if i < n { assert front[i] == paths[i]; }
      }
      forall k | k in sFront + {file.basename(paths[n])} ensures k in s {
        if k in sFront {
          var i :| 0 <= i < n && k == file.basename(front[i]);
          assert front[i] == paths[i];
        }
      }
    }
  }

  /** Last write wins: a key maps to the relative path of the last listed path
      carrying that basename. */
  lemma {:induction false} EntryMapLastWins(file: PathResolver, paths: seq<string>, i: nat)
    requires i < |paths|
    requires forall j :: i < j < |paths| ==> file.basename(paths[j]) != file.basename(paths[i])
    ensures file.basename(paths[i]) in EntryMap(file, paths)
    ensures EntryMap(file, paths)[file.basename(paths[i])] == Str(file.relativePath(paths[i]))
  {
    var n := |paths| - 1;
    if i < n {
      var front := paths[..n];
      assert front[i] == paths[i];
      forall j | i < j < |front| ensures file.basename(front[j]) != file.basename(front[i]) {
        assert front[j] == paths[j];
      }
      EntryMapLastWins(file, front, i);
    }
  }
}
