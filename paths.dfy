/** Work-directory handling shared by the adapters: the leading-slash trim that
    Init applies, the absolute/relative path mapping, and the String rendering. */
module Paths {

  /** strings.TrimLeft(s, "/"): remove every leading '/'. */
  function TrimLeftSlashes(s: string): (r: string)
    ensures |r| <= |s| && r == s[|s| - |r|..]
    ensures forall i :: 0 <= i < |s| - |r| ==> s[i] == '/'
    ensures r == [] || r[0] != '/'
  {
    if |s| > 0 && s[0] == '/' then TrimLeftSlashes(s[1..]) else s
  }

  /** The trim is determined by its contract: the result is the one suffix that
      starts with no '/' and is preceded only by '/'. */
  lemma {:induction false} TrimLeftSlashesUnique(s: string, r: string)
    requires |r| <= |s| && r == s[|s| - |r|..]
    requires forall i :: 0 <= i < |s| - |r| ==> s[i] == '/'
    requires r == [] || r[0] != '/'
    ensures TrimLeftSlashes(s) == r
  {
    if |s| > |r| {
      assert s[0] == '/';
      assert s[1..][|s| - 1 - |r|..] == r;
      TrimLeftSlashesUnique(s[1..], r);
    }
  }

  /** Trimming twice is trimming once. */
  lemma TrimLeftSlashesIdempotent(s: string)
    ensures TrimLeftSlashes(TrimLeftSlashes(s)) == TrimLeftSlashes(s)
  {
  }

  /** getAbsPath: the backend key of a path under the work directory. */
  function AbsPath(workDir: string, path: string): (key: string)
    ensures |key| == |workDir| + |path| && key[..|workDir|] == workDir && key[|workDir|..] == path
  {
    workDir + path
  }

  /** getRelPath: strings.TrimPrefix(key, workDir). */
  function RelPath(workDir: string, key: string): (path: string)
    ensures workDir <= key ==> workDir + path == key
    ensures !(workDir <= key) ==> path == key
  {
    if workDir <= key then key[|workDir|..] else key
  }

  /** The two mappings are inverse for every path under the work directory. */
  lemma RelOfAbs(workDir: string, path: string)
    ensures RelPath(workDir, AbsPath(workDir, path)) == path
  {
    assert workDir <= workDir + path;
  }

  lemma AbsOfRel(workDir: string, key: string)
    requires workDir <= key
    ensures AbsPath(workDir, RelPath(workDir, key)) == key
  {
  }

  /** With the zero work directory both mappings are the identity. */
  lemma EmptyWorkDir(p: string)
    ensures AbsPath("", p) == p && RelPath("", p) == p
  {
  }

  /** How String shows the work directory: rooted by a '/'. */
  function Rooted(workDir: string): (r: string)
    ensures |r| == |workDir| + 1 && r[0] == '/' && r[1..] == workDir
  {
    "/" + workDir
  }

  /** The String form of an adapter: "Storager <service> {Name: <name>, WorkDir: /<workDir>}". */
  function Describe(service: string, name: string, workDir: string): (s: string)
    ensures |s| >= 9 + |service| + |workDir| + 2
    ensures s[..9 + |service|] == "Storager " + service
    ensures |s| >= 17 + |service| + |name| && s[9 + |service|..17 + |service| + |name|] == " {Name: " + name
    ensures s[|s| - |workDir| - 2..] == Rooted(workDir) + "}"
  {
    "Storager " + service + " {Name: " + name + ", WorkDir: " + Rooted(workDir) + "}"
  }

  /** After Init trims the option, String shows the work directory rooted by
      exactly one '/'. */
  lemma RootedTrimmedOnce(option: string)
    ensures var r := Rooted(TrimLeftSlashes(option));
            r[0] == '/' && (|r| == 1 || r[1] != '/')
  {
  }
}
