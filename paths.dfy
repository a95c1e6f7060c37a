/** The options of a deployment and the two paths on the target that depend on them:
    the staging directory (which doubles as the deployment lock) and the staged script. */
module Paths {

  /** Ruby's `nil` or a value. */
  datatype Option<T> = None | Some(value: T)

  /** The `opts` hash handed to `Target#deploy`: `:tmpdir`, `:force` and `:keep_tmp_dir`.
      A missing `:tmpdir` is `None`; a missing flag is `false`. */
  datatype DeployOptions = DeployOptions(tmpdir: Option<string>, force: bool, keepTmpDir: bool)

  const DefaultTmpDir: string := "/tmp/shaddox"
  const ScriptName: string := "/shadow_script.rb"

  /** `opts[:tmpdir] || '/tmp/shaddox'`. Every Ruby string is truthy, so an empty
      `:tmpdir` is kept; only a missing one falls back to the default. The directory
      goes into the command lines unquoted, so an empty one leaves `mkdir` without an
      operand (which fails) and one with blanks becomes several shell words; the fake
      target reads every staging directory as one literal path. */
  function TmpDir(opts: DeployOptions): string
  {
    match opts.tmpdir
    case Some(dir) => dir
    case None => DefaultTmpDir
  }

  /** `"#{tmpdir}/shadow_script.rb"`. */
  function ScriptPath(tmpdir: string): string
  {
    tmpdir + ScriptName
  }

  /** `dir` with one trailing `/`: the prefix shared by every path inside it. A
      directory already ending in `/` (the root `/` above all) is its own prefix. */
  function AsPrefix(dir: string): string
  {
    if |dir| > 0 && dir[|dir| - 1] == '/' then dir else dir + "/"
  }

  /** `path` names something strictly inside the directory `dir`. */
  predicate IsUnder(dir: string, path: string)
  {
    var prefix := AsPrefix(dir);
    |prefix| <= |path| && path != dir && path[..|prefix|] == prefix
  }

  /** What `rm -r dir` takes away: `dir` itself and everything inside it. */
  predicate Within(dir: string, path: string)
  {
    path == dir || IsUnder(dir, path)
  }

  /** Every absolute path other than `/` lies inside `/`, and only those do. */
  lemma RootHoldsAbsolutePaths(path: string)
    ensures IsUnder("/", path) <==> |path| > 1 && path[0] == '/'
  {
    if |path| > 1 && path[0] == '/' {
      assert path[..1] == "/";
    }
  }

  /** Without a `:tmpdir` option the deployment stages in `/tmp/shaddox` and runs
      `/tmp/shaddox/shadow_script.rb`; with one, it stages in exactly that directory. */
  lemma DefaultStaging(opts: DeployOptions)
    ensures opts.tmpdir == None ==> TmpDir(opts) == "/tmp/shaddox"
    ensures opts.tmpdir == None ==> ScriptPath(TmpDir(opts)) == "/tmp/shaddox/shadow_script.rb"
    ensures opts.tmpdir.Some? ==> TmpDir(opts) == opts.tmpdir.value
  {
  }

  /** The staged script lies inside the staging directory and is not the directory
      itself, so removing the directory removes the script. */
  lemma ScriptInsideTmpDir(tmpdir: string)
    ensures IsUnder(tmpdir, ScriptPath(tmpdir))
    ensures ScriptPath(tmpdir) != tmpdir
    ensures !Within(ScriptPath(tmpdir), tmpdir)
  {
    var path := ScriptPath(tmpdir);
    assert path[..|tmpdir|] == tmpdir;
    if AsPrefix(tmpdir) != tmpdir {
      assert path[..|tmpdir| + 1] == tmpdir + "/" by {
        assert path[|tmpdir|] == '/';
      }
    }
  }

  /** Distinct staging directories stage their scripts at distinct paths. */
  lemma ScriptPathInjective(a: string, b: string)
    requires ScriptPath(a) == ScriptPath(b)
    ensures a == b
  {
    assert |a| == |b|;
    assert a == ScriptPath(a)[..|a|];
    assert b == ScriptPath(b)[..|b|];
  }
}
