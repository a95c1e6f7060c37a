/** `Target#deploy`: lock the staging directory, provision the target, stage and run
    the script, and clean up. Each step is given twice: as a function that says what
    the step does to a fake target (and which requests it makes), and as the method
    that does it through an actor, proved to agree with the function. Ruby's
    `raise` becomes an early return with the error as the outcome; the `rescue` that
    cleans up before re-raising becomes the single cleanup call after the body. */
module Deploy {
  import opened Paths
  import opened Commands
  import opened FakeTarget
  import opened Actors

  /** How a deployment ends: success, or the exception it raises. */
  datatype Outcome =
    | Ok
    | AlreadyRunning   // `mkdir tmpdir` failed
    | MissingRuby      // `type ruby` failed
    | MissingGem       // `type gem` failed
    | NotInstalled     // shaddox still missing after install or update
    | ExecFailed       // `ruby <script>` failed
    | WriteRaised      // `write_file` raised; its exception is re-raised

  /** The failures that `deploy` reports by raising a `TargetError` of its own. */
  predicate IsTargetError(o: Outcome)
  {
    o != Ok && o != WriteRaised
  }

  /** The message of the `TargetError` raised for each such failure. The longer
      messages are written as two literals joined by `+` (the text is unchanged): the
      verifier reads single letters of short literals only, which `MessageShapes`
      needs. */
  function Message(o: Outcome): string
    requires IsTargetError(o)
  {
    match o
    case AlreadyRunning => "Shaddox is already running " + "on this machine. Try again later."
    case MissingRuby => "Ruby is required to use shaddox. " + "Please install it manually."
    case MissingGem => "Gem is required to use shaddox. " + "Please install it manually."
    case NotInstalled => "Shaddox could not be automatically installed. " + "Please install manually with 'gem install shaddox'."
    case ExecFailed => "Shadow script was not executed successfully."
  }

  /** What a step did: the machine afterwards and the requests it made, in order. */
  datatype Effect = Effect(after: Machine, events: seq<Event>)

  /** What a step that can fail did, and how it ended. */
  datatype Segment = Segment(outcome: Outcome, after: Machine, events: seq<Event>)

  /** The `rm_tmpdir` lambda: remove the staging directory if something is there. */
  function Cleanup(b: Behaviour, m: Machine, tmpdir: string): Effect
  {
    var probe := Exec(b, m, TestExists(tmpdir));
    if probe.ok then
      Effect(Exec(b, probe.after, RemoveTree(tmpdir)).after, [Ran(TestExists(tmpdir)), Ran(RemoveTree(tmpdir))])
    else
      Effect(probe.after, [Ran(TestExists(tmpdir))])
  }

  /** The optional pre-step: with `force`, run the cleanup lambda before locking. */
  function ForceStep(b: Behaviour, m: Machine, opts: DeployOptions): Effect
  {
    if opts.force then Cleanup(b, m, TmpDir(opts)) else Effect(m, [])
  }

  /** The body of the `begin` block up to the script run: the dependency checks,
      install or update of the gem, the re-check, writing and running the script.
      A `write_file` that raises ends the block there. */
  function Provisioning(b: Behaviour, m: Machine, script: string, path: string): Segment
  {
    var ruby := Exec(b, m, TypeRuby);
    if !ruby.ok then Segment(MissingRuby, ruby.after, [Ran(TypeRuby)]) else
    var gem := Exec(b, ruby.after, TypeGem);
    if !gem.ok then Segment(MissingGem, gem.after, [Ran(TypeRuby), Ran(TypeGem)]) else
    var listed := Exec(b, gem.after, ListShaddox);
    var refresh := if listed.ok then UpdateShaddox else InstallShaddox;
    var refreshed := Exec(b, listed.after, refresh);  // its result only decides a warning
    var present := Exec(b, refreshed.after, ListShaddox);
    var checks := [Ran(TypeRuby), Ran(TypeGem), Ran(ListShaddox), Ran(refresh), Ran(ListShaddox)];
    if !present.ok then Segment(NotInstalled, present.after, checks) else
    var written := Write(b, present.after, script, path);  // what it returns is not looked at
    var wrote := checks + [Wrote(path, script)];
    if written.result.Raised? then Segment(WriteRaised, written.after, wrote) else
    var ran := Exec(b, written.after, RunScript(path));
    Segment(if ran.ok then Ok else ExecFailed, ran.after, wrote + [Ran(RunScript(path))])
  }

  /** The `begin`/`rescue` block: provisioning, then, however it ended, the cleanup
      unless `keep_tmp_dir`; the outcome is the block's own. */
  function Guarded(b: Behaviour, m: Machine, script: string, tmpdir: string, keep: bool): Segment
  {
    var body := Provisioning(b, m, script, ScriptPath(tmpdir));
    var post := if keep then Effect(body.after, []) else Cleanup(b, body.after, tmpdir);
    Segment(body.outcome, post.after, body.events + post.events)
  }

  /** A whole deployment of `script` on a target in state `m`. */
  function Deployment(b: Behaviour, m: Machine, script: string, opts: DeployOptions): Segment
  {
    var tmpdir := TmpDir(opts);
    var pre := ForceStep(b, m, opts);
    var lock := Exec(b, pre.after, MakeDir(tmpdir));
    var locking := pre.events + [Ran(MakeDir(tmpdir))];
    if !lock.ok then Segment(AlreadyRunning, lock.after, locking) else
    var held := Guarded(b, lock.after, script, tmpdir, opts.keepTmpDir);
    Segment(held.outcome, held.after, locking + held.events)
  }

  /** Runs the `rm_tmpdir` lambda through the actor. */
  method RemoveTmpDir(actor: Actor, tmpdir: string)
    modifies actor
    ensures actor.machine == Cleanup(actor.behaviour, old(actor.machine), tmpdir).after
    ensures actor.log == old(actor.log) + Cleanup(actor.behaviour, old(actor.machine), tmpdir).events
  {
    var present := actor.Exec(TestExists(tmpdir));
    if present {
      var _ := actor.Exec(RemoveTree(tmpdir));
    }
  }

  /** The `begin` block without its cleanup; every `raise` is an early return. */
  method Provision(actor: Actor, script: string, path: string) returns (outcome: Outcome)
    modifies actor
    ensures outcome == Provisioning(actor.behaviour, old(actor.machine), script, path).outcome
    ensures actor.machine == Provisioning(actor.behaviour, old(actor.machine), script, path).after
    ensures actor.log == old(actor.log) + Provisioning(actor.behaviour, old(actor.machine), script, path).events
  {
    ghost var log0 := actor.log;
    var rubyInstalled := actor.Exec(TypeRuby);
    if !rubyInstalled { return MissingRuby; }
    var gemInstalled := actor.Exec(TypeGem);
    if !gemInstalled { return MissingGem; }
    var shaddoxInstalled := actor.Exec(ListShaddox);
    ghost var refresh := if shaddoxInstalled then UpdateShaddox else InstallShaddox;
    if shaddoxInstalled {
      var updated := actor.Exec(UpdateShaddox);  // a failed update is only a warning
    } else {
      var _ := actor.Exec(InstallShaddox);
    }
    shaddoxInstalled := actor.Exec(ListShaddox);
    ghost var checks := [Ran(TypeRuby), Ran(TypeGem), Ran(ListShaddox), Ran(refresh), Ran(ListShaddox)];
    assert actor.log == log0 + checks;
    if !shaddoxInstalled { return NotInstalled; }
    var written := actor.WriteFile(script, path);
    ghost var wrote := checks + [Wrote(path, script)];
    AppendAssoc(log0, checks, [Wrote(path, script)]);
    if written.Raised? { return WriteRaised; }
    var ran := actor.Exec(RunScript(path));
    AppendAssoc(log0, wrote, [Ran(RunScript(path))]);
    if !ran { return ExecFailed; }
    return Ok;
  }

  /** The `begin`/`rescue` block run through the actor. */
  method RunGuarded(actor: Actor, script: string, tmpdir: string, keep: bool) returns (outcome: Outcome)
    modifies actor
    ensures outcome == Guarded(actor.behaviour, old(actor.machine), script, tmpdir, keep).outcome
    ensures actor.machine == Guarded(actor.behaviour, old(actor.machine), script, tmpdir, keep).after
    ensures actor.log == old(actor.log) + Guarded(actor.behaviour, old(actor.machine), script, tmpdir, keep).events
  {
    ghost var log0 := actor.log;
    outcome := Provision(actor, script, ScriptPath(tmpdir));
    ghost var body := Provisioning(actor.behaviour, old(actor.machine), script, ScriptPath(tmpdir));
    if !keep {
      RemoveTmpDir(actor, tmpdir);
    }
    ghost var post := if keep then Effect(body.after, []) else Cleanup(actor.behaviour, body.after, tmpdir);
    AppendAssoc(log0, body.events, post.events);
  }

  /** `Target#deploy(shadow_script, opts)`, with the actor passed in. */
  method Deploy(actor: Actor, script: string, opts: DeployOptions) returns (outcome: Outcome)
    modifies actor
    ensures outcome == Deployment(actor.behaviour, old(actor.machine), script, opts).outcome
    ensures actor.machine == Deployment(actor.behaviour, old(actor.machine), script, opts).after
    ensures actor.log == old(actor.log) + Deployment(actor.behaviour, old(actor.machine), script, opts).events
  {
    ghost var log0 := actor.log;
    var tmpdir := TmpDir(opts);
    if opts.force {
      RemoveTmpDir(actor, tmpdir);
    }
    ghost var pre := ForceStep(actor.behaviour, old(actor.machine), opts);
    assert actor.log == log0 + pre.events;
    var unlocked := actor.Exec(MakeDir(tmpdir));
    if !unlocked { return AlreadyRunning; }
    ghost var locked := actor.machine;
    outcome := RunGuarded(actor, script, tmpdir, opts.keepTmpDir);
    ghost var held := Guarded(actor.behaviour, locked, script, tmpdir, opts.keepTmpDir);
    AppendAssoc(log0, pre.events + [Ran(MakeDir(tmpdir))], held.events);
    AppendAssoc(log0, pre.events, [Ran(MakeDir(tmpdir))]);
  }

  /** The five messages are distinct, so the message alone tells which check failed. */
  lemma MessagesDistinct(a: Outcome, b: Outcome)
    requires IsTargetError(a) && IsTargetError(b) && a != b
    ensures Message(a) != Message(b)
  {
    MessageShapes();
    if |Message(a)| == |Message(b)| {
      assert {a, b} == {AlreadyRunning, MissingRuby};
      assert Message(a)[0] != Message(b)[0];
    }
  }

  /** The lengths of the messages, and the first letters of the two that are equally
      long: between them they tell all five messages apart. */
  lemma MessageShapes()
    ensures |Message(AlreadyRunning)| == 60 && Message(AlreadyRunning)[0] == 'S'
    ensures |Message(MissingRuby)| == 60 && Message(MissingRuby)[0] == 'R'
    ensures |Message(MissingGem)| == 59
    ensures |Message(NotInstalled)| == 97
    ensures |Message(ExecFailed)| == 44
  {
  }

  lemma AppendAssoc<T>(a: seq<T>, b: seq<T>, c: seq<T>)
    ensures a + b + c == a + (b + c)
  {
  }
}
