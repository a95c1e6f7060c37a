/** What a deployment guarantees. The requests and the outcome of `Deployment` are
    first matched against a reference written directly in terms of the target's
    initial state (which check fails, whether the staging path is taken, whether the
    gem is installed); the ordering, locking and cleanup guarantees follow from it. */
module DeployProperties {
  import opened Paths
  import opened Commands
  import opened FakeTarget
  import opened Deploy

  /** `mkdir` of the staging directory will fail: something is at that path and the
      force pre-step, if asked for, does not take it away. */
  predicate Busy(b: Behaviour, m: Machine, opts: DeployOptions)
  {
    Present(m, TmpDir(opts)) && !(opts.force && b.removeWorks)
  }

  /** Requests of the force pre-step. */
  function ForceEvents(m: Machine, opts: DeployOptions): seq<Event>
  {
    var tmpdir := TmpDir(opts);
    if !opts.force then []
    else if Present(m, tmpdir) then [Ran(TestExists(tmpdir)), Ran(RemoveTree(tmpdir))]
    else [Ran(TestExists(tmpdir))]
  }

  /** The re-check after the update or the install finds the gem. */
  predicate Refreshed(b: Behaviour, m: Machine)
  {
    if m.shaddoxInstalled then b.updateKeeps else b.installInstalls
  }

  /** Requests made while the lock is held, before cleanup. */
  function BodyEvents(b: Behaviour, m: Machine, script: string, opts: DeployOptions): seq<Event>
  {
    var path := ScriptPath(TmpDir(opts));
    if !b.rubyPresent then [Ran(TypeRuby)]
    else if !b.gemPresent then [Ran(TypeRuby), Ran(TypeGem)]
    else
      var refresh := if m.shaddoxInstalled then UpdateShaddox else InstallShaddox;
      [Ran(TypeRuby), Ran(TypeGem), Ran(ListShaddox), Ran(refresh), Ran(ListShaddox)]
      + (if Refreshed(b, m) then
           [Wrote(path, script)] + (if WriteRaises(b) then [] else [Ran(RunScript(path))])
         else [])
  }

  /** Requests of the final cleanup. */
  function CleanupEvents(opts: DeployOptions): seq<Event>
  {
    var tmpdir := TmpDir(opts);
    if opts.keepTmpDir then [] else [Ran(TestExists(tmpdir)), Ran(RemoveTree(tmpdir))]
  }

  /** Reference: every request a deployment makes, in order. */
  function ExpectedEvents(b: Behaviour, m: Machine, script: string, opts: DeployOptions): seq<Event>
  {
    ForceEvents(m, opts) + [Ran(MakeDir(TmpDir(opts)))]
    + (if Busy(b, m, opts) then [] else BodyEvents(b, m, script, opts) + CleanupEvents(opts))
  }

  /** Reference: how a deployment ends, as a decision table over the initial state. */
  function ExpectedOutcome(b: Behaviour, m: Machine, opts: DeployOptions): Outcome
  {
    if Busy(b, m, opts) then AlreadyRunning
    else if !b.rubyPresent then MissingRuby
    else if !b.gemPresent then MissingGem
    else if !Refreshed(b, m) then NotInstalled
    else if WriteRaises(b) then WriteRaised
    else if b.scriptWorks && LeavesFile(b) then Ok
    else ExecFailed
  }

  /** Occurrences of `e` in `s`. */
  function Count(s: seq<Event>, e: Event): nat
  {
    if s == [] then 0 else (if s[0] == e then 1 else 0) + Count(s[1..], e)
  }

  lemma {:induction false} CountConcat(s: seq<Event>, t: seq<Event>, e: Event)
    ensures Count(s + t, e) == Count(s, e) + Count(t, e)
  {
    if s == [] {
      assert s + t == t;
    } else {
      assert (s + t)[1..] == s[1..] + t;
      CountConcat(s[1..], t, e);
    }
  }

  lemma {:induction false} CountAbsent(s: seq<Event>, e: Event)
    ensures Count(s, e) == 0 <==> e !in s
  {
    if s != [] {
      CountAbsent(s[1..], e);
      assert s == [s[0]] + s[1..];
    }
  }

  /** The force pre-step removes the staging path exactly when something is there and
      removal works; it changes nothing else the rest of the deployment looks at. */
  lemma ForcePreStep(b: Behaviour, m: Machine, opts: DeployOptions)
    ensures var tmpdir := TmpDir(opts);
      var pre := ForceStep(b, m, opts);
      && pre.events == ForceEvents(m, opts)
      && pre.after.shaddoxInstalled == m.shaddoxInstalled
      && (Present(pre.after, tmpdir) <==> Busy(b, m, opts))
  {
  }

  /** The `begin` block's requests and outcome in terms of the state it starts from. */
  lemma ProvisioningMatches(b: Behaviour, m: Machine, script: string, opts: DeployOptions)
    ensures var path := ScriptPath(TmpDir(opts));
      var body := Provisioning(b, m, script, path);
      && body.events == BodyEvents(b, m, script, opts)
      && body.after.dirs == m.dirs
      && body.outcome ==
           if !b.rubyPresent then MissingRuby
           else if !b.gemPresent then MissingGem
           else if !Refreshed(b, m) then NotInstalled
           else if WriteRaises(b) then WriteRaised
           else if b.scriptWorks && (LeavesFile(b) || path in m.files) then Ok
           else ExecFailed
  {
  }

  /** Cleanup of a staging directory that is there probes it and removes it. */
  lemma CleanupOfPresent(b: Behaviour, m: Machine, tmpdir: string)
    requires Present(m, tmpdir)
    ensures Cleanup(b, m, tmpdir).events == [Ran(TestExists(tmpdir)), Ran(RemoveTree(tmpdir))]
    ensures Cleanup(b, m, tmpdir).after == if b.removeWorks then Removed(m, tmpdir) else m
  {
  }

  /** Everything `Deployment` does agrees with the reference. */
  lemma DeploymentMatchesReference(b: Behaviour, m: Machine, script: string, opts: DeployOptions)
    ensures Deployment(b, m, script, opts).events == ExpectedEvents(b, m, script, opts)
    ensures Deployment(b, m, script, opts).outcome == ExpectedOutcome(b, m, opts)
  {
    var tmpdir := TmpDir(opts);
    var path := ScriptPath(tmpdir);
    ForcePreStep(b, m, opts);
    var pre := ForceStep(b, m, opts);
    var lock := Exec(b, pre.after, MakeDir(tmpdir));
    if lock.ok {
      ProvisioningMatches(b, lock.after, script, opts);
      var body := Provisioning(b, lock.after, script, path);
      if !opts.keepTmpDir {
        HeldIsPresent(body.after, tmpdir, tmpdir);
        CleanupOfPresent(b, body.after, tmpdir);
      }
      ScriptMakesDirPresent(pre.after, tmpdir);
      assert path !in lock.after.files;
    }
  }

  /** The target after a deployment: untouched when the lock was taken; otherwise the
      staging directory is still there with `keep_tmp_dir`, and gone (script and all)
      without it, unless the removal itself fails. */
  lemma DeploymentFinalState(b: Behaviour, m: Machine, script: string, opts: DeployOptions)
    ensures var t := Deployment(b, m, script, opts); var tmpdir := TmpDir(opts);
      && (Busy(b, m, opts) ==> t.after == m)
      && (!Busy(b, m, opts) && opts.keepTmpDir ==> tmpdir in t.after.dirs)
      && (!Busy(b, m, opts) && !opts.keepTmpDir ==> (Present(t.after, tmpdir) <==> !b.removeWorks))
      && (!Busy(b, m, opts) && !opts.keepTmpDir && b.removeWorks ==> ScriptPath(tmpdir) !in t.after.files)
  {
    var tmpdir := TmpDir(opts);
    var path := ScriptPath(tmpdir);
    ForcePreStep(b, m, opts);
    var pre := ForceStep(b, m, opts);
    var lock := Exec(b, pre.after, MakeDir(tmpdir));
    if !lock.ok {
      if opts.force && Present(m, tmpdir) {
        CleanupOfPresent(b, m, tmpdir);
      }
    } else {
      ProvisioningMatches(b, lock.after, script, opts);
      var body := Provisioning(b, lock.after, script, path);
      if !opts.keepTmpDir {
        HeldIsPresent(body.after, tmpdir, tmpdir);
        CleanupOfPresent(b, body.after, tmpdir);
        if b.removeWorks {
          RemoveTreeClears(b, body.after, tmpdir);
        }
      }
    }
  }

  /** Lock: the deployment fails with the "already running" error exactly when
      `mkdir` fails, and then it issues nothing after `mkdir` (no provisioning, no
      write, no run, no cleanup of a directory it does not own) and leaves the target
      as it found it. */
  lemma LockRespected(b: Behaviour, m: Machine, script: string, opts: DeployOptions)
    ensures var t := Deployment(b, m, script, opts);
      && (t.outcome == AlreadyRunning <==> Busy(b, m, opts))
      && (t.outcome == AlreadyRunning ==>
            t.events == ForceEvents(m, opts) + [Ran(MakeDir(TmpDir(opts)))] && t.after == m)
  {
    DeploymentMatchesReference(b, m, script, opts);
    DeploymentFinalState(b, m, script, opts);
  }

  /** Mutual exclusion: without `force`, a deployment onto a target whose staging
      directory exists only attempts `mkdir`, fails, and changes nothing. */
  lemma BusyTargetUntouched(b: Behaviour, m: Machine, script: string, opts: DeployOptions)
    requires !opts.force && Present(m, TmpDir(opts))
    ensures Deployment(b, m, script, opts) == Segment(AlreadyRunning, m, [Ran(MakeDir(TmpDir(opts)))])
  {
    LockRespected(b, m, script, opts);
  }

  /** A deployment is its force pre-step followed by a deployment without `force` on
      the target as the pre-step left it. */
  lemma SplitForceStep(b: Behaviour, m: Machine, script: string, opts: DeployOptions)
    ensures var pre := ForceStep(b, m, opts);
      var rest := Deployment(b, pre.after, script, opts.(force := false));
      Deployment(b, m, script, opts) == Segment(rest.outcome, rest.after, pre.events + rest.events)
  {
    var tmpdir := TmpDir(opts);
    var plain := opts.(force := false);
    assert TmpDir(plain) == tmpdir;
    var pre := ForceStep(b, m, opts);
    assert ForceStep(b, pre.after, plain) == Effect(pre.after, []);
    var lock := Exec(b, pre.after, MakeDir(tmpdir));
    var mk := [Ran(MakeDir(tmpdir))];
    assert [] + mk == mk;
    if lock.ok {
      var held := Guarded(b, lock.after, script, tmpdir, opts.keepTmpDir);
      AppendAssoc(pre.events, mk, held.events);
    }
  }

  /** Force: `rm -r` is issued only after `test -e` found something, its result is
      not looked at, and the deployment then continues exactly as one without `force`
      on the target as the pre-step left it. */
  lemma ForceThenPlainDeployment(b: Behaviour, m: Machine, script: string, opts: DeployOptions)
    requires opts.force
    ensures var tmpdir := TmpDir(opts);
      var t := Deployment(b, m, script, opts);
      var plain := opts.(force := false);
      && (Present(m, tmpdir) ==>
            var rest := Deployment(b, if b.removeWorks then Removed(m, tmpdir) else m, script, plain);
            t == Segment(rest.outcome, rest.after, [Ran(TestExists(tmpdir)), Ran(RemoveTree(tmpdir))] + rest.events))
      && (Present(m, tmpdir) && b.removeWorks ==> t.outcome != AlreadyRunning)
      && (!Present(m, tmpdir) ==>
            var rest := Deployment(b, m, script, plain);
            t == Segment(rest.outcome, rest.after, [Ran(TestExists(tmpdir))] + rest.events))
  {
    var tmpdir := TmpDir(opts);
    SplitForceStep(b, m, script, opts);
    if Present(m, tmpdir) {
      CleanupOfPresent(b, m, tmpdir);
      LockRespected(b, m, script, opts);
    }
  }

  /** Dependency checks: Ruby is checked before gem; when either is missing the
      deployment fails with the matching error right after the check, and the only
      thing still done is the cleanup. */
  lemma FatalChecksStop(b: Behaviour, m: Machine, script: string, opts: DeployOptions)
    requires !Busy(b, m, opts)
    ensures var t := Deployment(b, m, script, opts);
      var locking := ForceEvents(m, opts) + [Ran(MakeDir(TmpDir(opts)))];
      && (!b.rubyPresent ==>
            t.outcome == MissingRuby && t.events == locking + [Ran(TypeRuby)] + CleanupEvents(opts))
      && (b.rubyPresent && !b.gemPresent ==>
            t.outcome == MissingGem && t.events == locking + [Ran(TypeRuby), Ran(TypeGem)] + CleanupEvents(opts))
  {
    DeploymentMatchesReference(b, m, script, opts);
  }

  /** The reference's requests while the lock is held, once Ruby and gem are there. */
  lemma BodyRefresh(b: Behaviour, m: Machine, script: string, opts: DeployOptions)
    requires b.rubyPresent && b.gemPresent
    ensures var body := BodyEvents(b, m, script, opts);
      var path := ScriptPath(TmpDir(opts));
      var refresh := if m.shaddoxInstalled then UpdateShaddox else InstallShaddox;
      && (m.shaddoxInstalled ==> Ran(UpdateShaddox) in body && Ran(InstallShaddox) !in body)
      && (!m.shaddoxInstalled ==> Ran(InstallShaddox) in body && Ran(UpdateShaddox) !in body)
      && (Refreshed(b, m) ==> Wrote(path, script) in body)
      && (!Refreshed(b, m) ==>
            body == [Ran(TypeRuby), Ran(TypeGem), Ran(ListShaddox), Ran(refresh), Ran(ListShaddox)])
  {
    var path := ScriptPath(TmpDir(opts));
    var refresh := if m.shaddoxInstalled then UpdateShaddox else InstallShaddox;
    var stage := [Wrote(path, script)] + (if WriteRaises(b) then [] else [Ran(RunScript(path))]);
    var checks := [Ran(TypeRuby), Ran(TypeGem), Ran(ListShaddox), Ran(refresh), Ran(ListShaddox)];
    assert BodyEvents(b, m, script, opts) == checks + (if Refreshed(b, m) then stage else []);
    assert Ran(refresh) == checks[3] && Wrote(path, script) == stage[0];
  }

  /** Install versus update: an installed gem is updated and never installed, a
      missing one is installed and never updated; after either, presence is checked
      again, and only that re-check decides whether the deployment goes on to write
      the script: it stops as not installed exactly when the re-check fails. */
  lemma UpdateOrInstall(b: Behaviour, m: Machine, script: string, opts: DeployOptions)
    requires !Busy(b, m, opts) && b.rubyPresent && b.gemPresent
    ensures var t := Deployment(b, m, script, opts);
      var path := ScriptPath(TmpDir(opts));
      var refresh := if m.shaddoxInstalled then UpdateShaddox else InstallShaddox;
      && (m.shaddoxInstalled ==> Ran(UpdateShaddox) in t.events && Ran(InstallShaddox) !in t.events)
      && (!m.shaddoxInstalled ==> Ran(InstallShaddox) in t.events && Ran(UpdateShaddox) !in t.events)
      && (Refreshed(b, m) ==> Wrote(path, script) in t.events)
      && (t.outcome == NotInstalled <==> !Refreshed(b, m))
      && (t.outcome == NotInstalled ==>
            t.events == ForceEvents(m, opts) + [Ran(MakeDir(TmpDir(opts)))]
              + [Ran(TypeRuby), Ran(TypeGem), Ran(ListShaddox), Ran(refresh), Ran(ListShaddox)]
              + CleanupEvents(opts))
  {
    DeploymentMatchesReference(b, m, script, opts);
    BodyRefresh(b, m, script, opts);
    var pre, body, post := ForceEvents(m, opts), BodyEvents(b, m, script, opts), CleanupEvents(opts);
    AppendAssoc(pre + [Ran(MakeDir(TmpDir(opts)))], body, post);
    assert Ran(InstallShaddox) !in post && Ran(InstallShaddox) !in pre;
    assert Ran(UpdateShaddox) !in post && Ran(UpdateShaddox) !in pre;
  }

  /** A failed `gem update` only warns: whether the update works changes neither the
      requests a deployment makes nor its outcome. */
  lemma UpdateResultIgnored(b: Behaviour, m: Machine, script: string, opts: DeployOptions)
    ensures Deployment(b.(updateWorks := false), m, script, opts).events == Deployment(b.(updateWorks := true), m, script, opts).events
    ensures Deployment(b.(updateWorks := false), m, script, opts).outcome == Deployment(b.(updateWorks := true), m, script, opts).outcome
  {
    DeploymentMatchesReference(b.(updateWorks := false), m, script, opts);
    DeploymentMatchesReference(b.(updateWorks := true), m, script, opts);
  }

  /** The exit status of `gem install` is not looked at either: only the re-check
      after it counts, so whether the install exits with status 0 changes neither the
      requests a deployment makes nor its outcome. */
  lemma InstallResultIgnored(b: Behaviour, m: Machine, script: string, opts: DeployOptions)
    ensures Deployment(b.(installExits := false), m, script, opts).events == Deployment(b.(installExits := true), m, script, opts).events
    ensures Deployment(b.(installExits := false), m, script, opts).outcome == Deployment(b.(installExits := true), m, script, opts).outcome
  {
    DeploymentMatchesReference(b.(installExits := false), m, script, opts);
    DeploymentMatchesReference(b.(installExits := true), m, script, opts);
  }

  /** Write and run: once the gem is there, the script is written and then run, in that
      order and whatever `write_file` returned, and the run decides success. A failed
      write that returns false may still have left an empty file, which the run then
      runs; only when it left nothing does the run fail for want of a file. A write
      that raises skips the run, and its exception is what the deployment raises,
      after cleanup. */
  lemma WriteThenRun(b: Behaviour, m: Machine, script: string, opts: DeployOptions)
    requires !Busy(b, m, opts) && b.rubyPresent && b.gemPresent
    requires Refreshed(b, m)
    ensures var t := Deployment(b, m, script, opts);
      var path := ScriptPath(TmpDir(opts));
      var refresh := if m.shaddoxInstalled then UpdateShaddox else InstallShaddox;
      && t.events == ForceEvents(m, opts) + [Ran(MakeDir(TmpDir(opts)))]
           + [Ran(TypeRuby), Ran(TypeGem), Ran(ListShaddox), Ran(refresh), Ran(ListShaddox)]
           + [Wrote(path, script)] + (if WriteRaises(b) then [] else [Ran(RunScript(path))])
           + CleanupEvents(opts)
      && (t.outcome == Ok <==> b.scriptWorks && LeavesFile(b) && !WriteRaises(b))
      && (t.outcome == WriteRaised <==> WriteRaises(b))
      && (t.outcome != Ok && t.outcome != WriteRaised ==> t.outcome == ExecFailed)
      && (!LeavesFile(b) && !b.writeRaises ==> t.outcome == ExecFailed)
      && (!b.writeWorks && b.writeTruncates && !b.writeRaises && b.scriptWorks ==> t.outcome == Ok)
  {
    DeploymentMatchesReference(b, m, script, opts);
  }

  /** The request names no path but the staging directory `tmpdir` and its script. */
  predicate OwnPaths(e: Event, tmpdir: string)
  {
    match e
    case Wrote(p, _) => p == ScriptPath(tmpdir)
    case Ran(c) =>
      match c
      case TestExists(p) => p == tmpdir
      case RemoveTree(p) => p == tmpdir
      case MakeDir(p) => p == tmpdir
      case RunScript(p) => p == ScriptPath(tmpdir)
      case _ => true
  }

  predicate AllOwnPaths(s: seq<Event>, tmpdir: string)
  {
    forall e :: e in s ==> OwnPaths(e, tmpdir)
  }

  /** The reference's requests name only the deployment's own paths. */
  lemma ReferenceOwnPaths(b: Behaviour, m: Machine, script: string, opts: DeployOptions)
    ensures AllOwnPaths(ExpectedEvents(b, m, script, opts), TmpDir(opts))
  {
    var tmpdir := TmpDir(opts);
    var pre, body, post := ForceEvents(m, opts), BodyEvents(b, m, script, opts), CleanupEvents(opts);
    assert AllOwnPaths(pre, tmpdir);
    assert AllOwnPaths(body, tmpdir);
    assert AllOwnPaths(post, tmpdir);
    assert AllOwnPaths(pre + [Ran(MakeDir(tmpdir))], tmpdir);
    assert AllOwnPaths(body + post, tmpdir);
  }

  /** Every path a deployment names is its own staging directory or its own script.
      So a deployment staged elsewhere never writes or runs this one's script. */
  lemma OwnPathsOnly(b: Behaviour, m: Machine, script: string, opts: DeployOptions, other: string)
    requires other != TmpDir(opts)
    ensures var t := Deployment(b, m, script, opts);
      && (forall e :: e in t.events ==> OwnPaths(e, TmpDir(opts)))
      && (forall c :: Wrote(ScriptPath(other), c) !in t.events)
      && Ran(RunScript(ScriptPath(other))) !in t.events
  {
    var tmpdir := TmpDir(opts);
    DeploymentMatchesReference(b, m, script, opts);
    ReferenceOwnPaths(b, m, script, opts);
    assert ScriptPath(other) != ScriptPath(tmpdir) by {
      if ScriptPath(other) == ScriptPath(tmpdir) {
        ScriptPathInjective(other, tmpdir);
        assert false;
      }
    }
    forall c
      ensures !OwnPaths(Wrote(ScriptPath(other), c), tmpdir)
    {
    }
    assert !OwnPaths(Ran(RunScript(ScriptPath(other))), tmpdir);
  }

  /** Counting over the requests after `mkdir`: a body that never touches the
      staging directory, followed by the cleanup requests. */
  lemma CountCleanup(body: seq<Event>, tmpdir: string, keep: bool)
    requires Ran(RemoveTree(tmpdir)) !in body && Ran(TestExists(tmpdir)) !in body
    ensures var post := if keep then [] else [Ran(TestExists(tmpdir)), Ran(RemoveTree(tmpdir))];
      && Count(body + post, Ran(RemoveTree(tmpdir))) == (if keep then 0 else 1)
      && Count(body + post, Ran(TestExists(tmpdir))) == (if keep then 0 else 1)
  {
    var post := if keep then [] else [Ran(TestExists(tmpdir)), Ran(RemoveTree(tmpdir))];
    CountConcat(body, post, Ran(RemoveTree(tmpdir)));
    CountConcat(body, post, Ran(TestExists(tmpdir)));
    CountAbsent(body, Ran(RemoveTree(tmpdir)));
    CountAbsent(body, Ran(TestExists(tmpdir)));
    if !keep {
      var last := [Ran(RemoveTree(tmpdir))];
      assert post[1..] == last && last[1..] == [];
      assert Count(last, Ran(RemoveTree(tmpdir))) == 1 && Count(last, Ran(TestExists(tmpdir))) == 0;
      assert Count(post, Ran(RemoveTree(tmpdir))) == 1 && Count(post, Ran(TestExists(tmpdir))) == 1;
    }
  }

  /** Cleanup once the lock is held: after its `mkdir`, on every path, the deployment
      runs the cleanup exactly once (its `rm -r` last of all) unless `keep_tmp_dir`
      is set, and never otherwise. */
  lemma CleanupOnEveryPath(b: Behaviour, m: Machine, script: string, opts: DeployOptions)
    requires !Busy(b, m, opts)
    ensures var t := Deployment(b, m, script, opts);
      var tmpdir := TmpDir(opts);
      var k := |ForceEvents(m, opts)|;
      && k < |t.events| && t.events[k] == Ran(MakeDir(tmpdir))
      && Count(t.events[k + 1..], Ran(RemoveTree(tmpdir))) == (if opts.keepTmpDir then 0 else 1)
      && Count(t.events[k + 1..], Ran(TestExists(tmpdir))) == (if opts.keepTmpDir then 0 else 1)
      && (!opts.keepTmpDir ==> t.events[|t.events| - 1] == Ran(RemoveTree(tmpdir)))
  {
    DeploymentMatchesReference(b, m, script, opts);
    ReferenceCleanup(b, m, script, opts);
  }

  /** The cleanup counts of `CleanupOnEveryPath`, over the reference. */
  lemma ReferenceCleanup(b: Behaviour, m: Machine, script: string, opts: DeployOptions)
    requires !Busy(b, m, opts)
    ensures var events := ExpectedEvents(b, m, script, opts);
      var tmpdir := TmpDir(opts);
      var k := |ForceEvents(m, opts)|;
      && k < |events| && events[k] == Ran(MakeDir(tmpdir))
      && Count(events[k + 1..], Ran(RemoveTree(tmpdir))) == (if opts.keepTmpDir then 0 else 1)
      && Count(events[k + 1..], Ran(TestExists(tmpdir))) == (if opts.keepTmpDir then 0 else 1)
      && (!opts.keepTmpDir ==> events[|events| - 1] == Ran(RemoveTree(tmpdir)))
  {
    var events := ExpectedEvents(b, m, script, opts);
    var tmpdir := TmpDir(opts);
    var pre := ForceEvents(m, opts);
    var body := BodyEvents(b, m, script, opts);
    var post := CleanupEvents(opts);
    assert events == pre + [Ran(MakeDir(tmpdir))] + (body + post);
    assert events[|pre| + 1..] == body + post;
    CountCleanup(body, tmpdir, opts.keepTmpDir);
  }

  /** The error raised in the `begin` block is re-raised unchanged: cleanup, done or
      skipped, never changes the outcome. */
  lemma CleanupKeepsOutcome(b: Behaviour, m: Machine, script: string, opts: DeployOptions)
    ensures Deployment(b, m, script, opts.(keepTmpDir := true)).outcome
         == Deployment(b, m, script, opts.(keepTmpDir := false)).outcome
  {
    DeploymentMatchesReference(b, m, script, opts.(keepTmpDir := true));
    DeploymentMatchesReference(b, m, script, opts.(keepTmpDir := false));
  }

  /** The staging directory is a lock across deployments: one that holds the lock and
      leaves the directory behind (with `keep_tmp_dir`, or because removal fails)
      makes the next deployment to the same directory without `force` fail as
      already running; one that cleans up lets the next one take the lock. */
  lemma LockAcrossDeployments(b: Behaviour, m: Machine, script: string, opts: DeployOptions,
                              nextScript: string, next: DeployOptions)
    requires !Busy(b, m, opts)
    requires TmpDir(next) == TmpDir(opts)
    ensures var first := Deployment(b, m, script, opts);
      var second := Deployment(b, first.after, nextScript, next);
      && ((opts.keepTmpDir || !b.removeWorks) && !next.force ==> second.outcome == AlreadyRunning)
      && (!opts.keepTmpDir && b.removeWorks ==> second.outcome != AlreadyRunning)
  {
    var first := Deployment(b, m, script, opts);
    DeploymentFinalState(b, m, script, opts);
    LockRespected(b, first.after, nextScript, next);
  }
}
