/** A fake target machine: what each command issued by a deployment observes and
    changes. A command succeeds exactly when its exit status would be 0. */
module FakeTarget {
  import opened Paths
  import opened Commands

  /** The part of the target that the deployment's commands change: the paths at
      which a directory or a file was recorded, and whether the gem is installed.
      Parent directories are not recorded; they exist because something is below them. */
  datatype Machine = Machine(dirs: set<string>, files: map<string, string>, shaddoxInstalled: bool)

  /** Facts about the target that no deployment command changes, and the scripted
      outcomes of the commands whose result depends on the world outside the model. */
  datatype Behaviour = Behaviour(
    rubyPresent: bool,      // `type ruby` succeeds
    gemPresent: bool,       // `type gem` succeeds
    updateWorks: bool,      // `gem update shaddox` exits with status 0
    updateKeeps: bool,      // the gem is still installed after `gem update shaddox`
    installExits: bool,     // `gem install shaddox` exits with status 0
    installInstalls: bool,  // `gem install shaddox` leaves the gem installed
    removeWorks: bool,      // `rm -r` of an existing path succeeds
    writeWorks: bool,       // `write_file` creates the file
    writeRaises: bool,      // a failed `write_file` raises (as `File.open` does)
                            // rather than returning false (as `echo … >` does)
    writeTruncates: bool,   // a failed `write_file` still leaves an empty file at the
                            // path, which both `File.open(…, 'w')` and `>` create first
    scriptWorks: bool)      // the file at the script path exits with status 0 when run

  /** The boolean `exec` returns and the machine afterwards. */
  datatype Reply = Reply(ok: bool, after: Machine)

  /** How `write_file` ends: it returns a value, or it raises. */
  datatype WriteResult = Returned(ok: bool) | Raised

  /** How `write_file` ended and the machine afterwards. */
  datatype WriteReply = WriteReply(result: WriteResult, after: Machine)

  /** A directory or a file is recorded at exactly `path`. */
  predicate Holds(m: Machine, path: string)
  {
    path in m.dirs || path in m.files
  }

  /** Something exists at `path`, what `test -e` and `mkdir` look at: an entry is
      recorded at `path` or below it. */
  predicate Present(m: Machine, path: string)
  {
    (exists d :: d in m.dirs && Within(path, d)) || (exists f :: f in m.files && Within(path, f))
  }

  /** An entry recorded at or below `path` makes `path` exist. */
  lemma HeldIsPresent(m: Machine, path: string, q: string)
    requires Holds(m, q) && Within(path, q)
    ensures Present(m, path)
  {
  }

  /** The machine after `rm -r dir` succeeded. */
  function Removed(m: Machine, dir: string): (r: Machine)
    ensures forall d :: d in r.dirs <==> d in m.dirs && !Within(dir, d)
    ensures forall f :: f in r.files <==> f in m.files && !Within(dir, f)
    ensures forall f :: f in r.files ==> r.files[f] == m.files[f]
    ensures !Present(r, dir)
    ensures r.shaddoxInstalled == m.shaddoxInstalled
  {
    var dirs := set d | d in m.dirs && !Within(dir, d);
    var files := map f | f in m.files && !Within(dir, f) :: m.files[f];
    m.(dirs := dirs, files := files)
  }

  /** `exec(Render(c))` on the fake target. */
  function Exec(b: Behaviour, m: Machine, c: Command): Reply
  {
    match c
    case TestExists(p) => Reply(Present(m, p), m)
    case RemoveTree(p) =>
      if Present(m, p) && b.removeWorks then Reply(true, Removed(m, p)) else Reply(false, m)
    case MakeDir(p) =>
      if Present(m, p) then Reply(false, m) else Reply(true, m.(dirs := m.dirs + {p}))
    case TypeRuby => Reply(b.rubyPresent, m)
    case TypeGem => Reply(b.gemPresent, m)
    case ListShaddox => Reply(m.shaddoxInstalled, m)
    case UpdateShaddox =>
      Reply(b.updateWorks, if b.updateKeeps then m else m.(shaddoxInstalled := false))
    case InstallShaddox =>
      Reply(b.installExits, if b.installInstalls then m.(shaddoxInstalled := true) else m)
    case RunScript(p) => Reply(b.rubyPresent && p in m.files && b.scriptWorks, m)
  }

  /** A failed write raises instead of returning false. */
  predicate WriteRaises(b: Behaviour)
  {
    !b.writeWorks && b.writeRaises
  }

  /** `write_file(content, path)` on the fake target: it creates the file, or fails
      (by returning false or by raising), leaving either no file or an empty one. */
  function Write(b: Behaviour, m: Machine, content: string, path: string): WriteReply
  {
    if b.writeWorks then WriteReply(Returned(true), m.(files := m.files[path := content]))
    else
      var after := if b.writeTruncates then m.(files := m.files[path := ""]) else m;
      WriteReply(if b.writeRaises then Raised else Returned(false), after)
  }

  /** A file is at the path after `write_file`, whether or not it succeeded. */
  predicate LeavesFile(b: Behaviour)
  {
    b.writeWorks || b.writeTruncates
  }

  /** `mkdir` is the lock: it succeeds exactly when nothing is at the path yet, and
      afterwards the directory is there; when it fails nothing changes. */
  lemma MakeDirIsTestAndSet(b: Behaviour, m: Machine, dir: string)
    ensures Exec(b, m, MakeDir(dir)).ok <==> !Present(m, dir)
    ensures Present(Exec(b, m, MakeDir(dir)).after, dir)
    ensures !Exec(b, m, MakeDir(dir)).ok ==> Exec(b, m, MakeDir(dir)).after == m
  {
    var after := Exec(b, m, MakeDir(dir)).after;
    if !Present(m, dir) {
      HeldIsPresent(after, dir, dir);
    }
  }

  /** A staged script makes its staging directory exist, so `mkdir` of that
      directory fails while the script is there. */
  lemma ScriptMakesDirPresent(m: Machine, tmpdir: string)
    ensures ScriptPath(tmpdir) in m.files ==> Present(m, tmpdir)
  {
    if ScriptPath(tmpdir) in m.files {
      ScriptInsideTmpDir(tmpdir);
      HeldIsPresent(m, tmpdir, ScriptPath(tmpdir));
    }
  }

  /** A `rm -r dir` that succeeds leaves nothing at `dir` or inside it, in particular
      no staged script. */
  lemma RemoveTreeClears(b: Behaviour, m: Machine, dir: string)
    requires Exec(b, m, RemoveTree(dir)).ok
    ensures !Present(Exec(b, m, RemoveTree(dir)).after, dir)
    ensures ScriptPath(dir) !in Exec(b, m, RemoveTree(dir)).after.files
  {
    ScriptInsideTmpDir(dir);
  }
}
