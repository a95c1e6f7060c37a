# Shaddox deployment procedure, modelled in Dafny

Shaddox pushes a single Ruby "shadow script" to a target machine (the local host or
an SSH server), installs or updates the `shaddox` gem there, runs the script, and
removes its staging directory. `Target#deploy` does this through an *actor*, an
object with two capabilities, `exec(command)` (true when the command exits with
status 0) and `write_file(content, path)`. The staging directory (default
`/tmp/shaddox`) doubles as a lock. `mkdir` of it fails when another deployment
holds it or a failed run left it behind.

The model has these parts:

- `Paths` covers the options hash (`:tmpdir`, `:force`, `:keep_tmp_dir`), the
  staging directory and the staged script path `tmpdir + "/shadow_script.rb"`.
- `Commands` holds the commands `deploy` issues, the exact command line of each
  (`Render`), and the log events (`Ran`, `Wrote`). `RenderInjective` shows that
  equal command lines mean equal commands. That is why the log can record `Command`
  values instead of strings and lose nothing.
- `FakeTarget` is a fake target machine:
  - its mutable part (`Machine`) is the paths at which directories and files are
    recorded, the files' contents, and whether the gem is installed;
  - a path exists (`Present`, what `test -e` and `mkdir` look at) when an entry is
    recorded at it or below it, so a recorded file makes its directories exist;
  - its fixed part (`Behaviour`) is whether Ruby and gem are present, plus the
    scripted outcomes of update, install, removal, write and the script run. The
    exit status of `gem update` or `gem install` and whether the gem is installed
    afterwards are separate flags. A failed write either returns false (the SSH
    actor's `echo … >`) or raises (the local actor's `File.open`), and it either
    leaves nothing or an empty file, which `>` and `File.open(…, 'w')` create
    before writing;
  - `Exec` and `Write` say what each request observes and changes.
- `Actors.Actor` is the actor as a class. Its fields are the target state and the
  request log. Its `Exec` and `WriteFile` methods update both.
- `Deploy` holds the deployment in two forms:
  - functions (`Cleanup`, `ForceStep`, `Provisioning`, `Guarded`, `Deployment`) say what each
    step does to the fake target and which requests it makes;
  - methods (`RemoveTmpDir`, `Provision`, `RunGuarded`, `Deploy`) do the same steps through an
    actor and are proved equal to those functions.

  Ruby's `raise` becomes an early return carrying the error as an `Outcome`. The
  five `TargetError`s are outcomes with their messages (`Message`). An exception
  raised by `write_file` is the outcome `WriteRaised`. The `begin`/`rescue` that
  cleans up and re-raises becomes one cleanup call after the body, made on every
  path once the lock is held.
- `DeployProperties` gives a reference for the request sequence and for the outcome,
  written directly over the initial target state (`ExpectedEvents`,
  `ExpectedOutcome`). It proves `Deployment` matches that reference. From this it
  proves the lock, force, dependency-check, install/update, write/run and cleanup
  guarantees.

Notes on the code, which the model follows:

- The staged script is always `shadow_script.rb`, with no other extension.
- What `write_file` returns is not checked. With the SSH actor, a failed write
  returns false and the deployment goes on to run whatever is at the script path.
  The staging directory was empty when `mkdir` created it, so that is either
  nothing, and the `ruby` run fails, or the empty file the failed write left, and
  the run can succeed: the deployment then ends normally although the script never
  ran. With the local actor, a failed write raises. The `rescue` cleans up and
  re-raises, and the script is not run.
- The exit statuses of `gem update` and `gem install` do not affect the outcome
  (a failed update only prints a warning); after either, only the re-check with
  `gem list` decides whether the deployment goes on.
- A failed `rm -r` in the force pre-step or in the cleanup is ignored, not reported.

## Model

| member | source | states |
|---|---|---|
| `Paths.TmpDir` | lib/shaddox/target.rb:8 | the staging directory: the `:tmpdir` option when given (even an empty one, since every Ruby string is truthy), else `/tmp/shaddox`; its properties are in `DefaultStaging` |
| `Paths.ScriptPath` | lib/shaddox/target.rb:9 | the staged script path `tmpdir + "/shadow_script.rb"`; its properties are in `ScriptInsideTmpDir` and `ScriptPathInjective` |
| `Paths.DefaultStaging` | lib/shaddox/target.rb:8-9 | with no `:tmpdir` the staging dir is `/tmp/shaddox` and the script `/tmp/shaddox/shadow_script.rb`; a given `:tmpdir` is used as is |
| `Paths.RootHoldsAbsolutePaths` | lib/shaddox/target.rb:14-16 | inside the root `/` is exactly every absolute path other than `/` itself, so `test -e /` and `rm -r /` see all of them |
| `Paths.ScriptInsideTmpDir` | lib/shaddox/target.rb:9 | the staged script lies strictly inside the staging directory, so `rm -r tmpdir` takes it away |
| `Paths.ScriptPathInjective` | lib/shaddox/target.rb:9 | different staging directories give different script paths; `OwnPathsOnly` uses it |
| `Commands.Render` | lib/shaddox/target.rb:14-54 | the exact command line of each request `deploy` makes; `RenderInjective` is proved about it |
| `Commands.RenderInjective` | lib/shaddox/target.rb:14-54 | the command lines `deploy` passes to `exec` are unambiguous: equal command lines mean equal commands, so a log of `Command` values loses nothing |
| `FakeTarget.Present` | lib/shaddox/target.rb:14 | what `test -e` reports: something is recorded at the path or below it (below `/` is every path starting with `/`) |
| `FakeTarget.Removed` | lib/shaddox/target.rb:16 | after `rm -r dir` exactly the directories and exactly the files not at or under `dir` remain, each file with its contents; nothing exists at `dir` any more; the gem state is kept |
| `FakeTarget.Exec` | lib/shaddox/target.rb:70-72 | what each command observes and changes on the fake target; `gem update` and `gem install` each have an exit status and an effect on the gem of their own; its properties are in `MakeDirIsTestAndSet`, `RemoveTreeClears` and the `DeployProperties` lemmas |
| `FakeTarget.Write` | lib/shaddox/target.rb:73-75 | `write_file` creates the file, or fails by returning false (as the SSH actor's `echo`, line 147) or by raising (as the local actor's `File.open`, line 87), leaving no file or an empty one |
| `FakeTarget.MakeDirIsTestAndSet` | lib/shaddox/target.rb:24-27 | `mkdir` succeeds exactly when nothing is at the path; the directory is there afterwards; a failed `mkdir` changes nothing |
| `FakeTarget.ScriptMakesDirPresent` | lib/shaddox/target.rb:9-24 | a staged script makes its staging directory exist, so while it is there `mkdir tmpdir` fails |
| `FakeTarget.RemoveTreeClears` | lib/shaddox/target.rb:13-18 | a successful `rm -r tmpdir` leaves neither the directory nor the staged script |
| `Actors.Actor.Exec` | lib/shaddox/target.rb:70-72 | `exec` returns the target's success answer, applies the command's effect and appends the command to the log |
| `Actors.Actor.WriteFile` | lib/shaddox/target.rb:73-75 | `write_file` returns what it returned or that it raised, applies the write and appends it to the log |
| `Deploy.Message` | lib/shaddox/target.rb:27-54 | the messages of the five `TargetError`s raised on lines 27, 32, 34, 45 and 54, word for word |
| `Deploy.MessagesDistinct` | lib/shaddox/target.rb:27-54 | the five messages differ, so the message alone tells which check failed |
| `Deploy.Cleanup` | lib/shaddox/target.rb:13-18 | the `rm_tmpdir` lambda on the fake target; `RemoveTmpDir` is proved equal to it and `CleanupOfPresent` is proved about it |
| `Deploy.ForceStep` | lib/shaddox/target.rb:20 | the optional force pre-step; `ForcePreStep` and `SplitForceStep` are proved about it |
| `Deploy.Provisioning` | lib/shaddox/target.rb:31-54 | the `begin` block up to the script run, each `raise` an early return; `Provision` is proved equal to it, `ProvisioningMatches` relates it to the reference |
| `Deploy.Guarded` | lib/shaddox/target.rb:29-61 | the `begin`/`rescue` block: the body, then the cleanup unless `keep_tmp_dir`, with the body's outcome; `RunGuarded` is proved equal to it |
| `Deploy.Deployment` | lib/shaddox/target.rb:7-63 | the whole deployment on the fake target; `Deploy` is proved equal to it, `DeploymentMatchesReference` relates it to the reference |
| `Deploy.RemoveTmpDir` | lib/shaddox/target.rb:13-18 | the cleanup lambda issues `test -e tmpdir`, then issues `rm -r tmpdir` only if the test succeeded |
| `Deploy.Provision` | lib/shaddox/target.rb:29-54 | the `begin` block's outcome, target state and request log, with each `raise` (and a raising `write_file`) as an early return |
| `Deploy.RunGuarded` | lib/shaddox/target.rb:29-61 | the `begin`/`rescue` block: provisioning, then the cleanup unless `keep_tmp_dir`, with the block's own outcome; agrees with `Guarded` |
| `Deploy.Deploy` | lib/shaddox/target.rb:7-63 | the deployment's outcome, final target state and appended requests are those of `Deployment` |
| `DeployProperties.ForcePreStep` | lib/shaddox/target.rb:13-20 | the force pre-step issues `rm -r` only when `test -e` finds something. Afterwards the path is taken exactly when `mkdir` will fail. The gem state is untouched |
| `DeployProperties.ProvisioningMatches` | lib/shaddox/target.rb:31-54 | the `begin` block's requests and outcome as a decision list: Ruby, then gem, then install or update, then the re-check, then the write (which may raise) and the run; and it creates no directory |
| `DeployProperties.CleanupOfPresent` | lib/shaddox/target.rb:13-18 | cleanup of a staging path that exists issues exactly `test -e` then `rm -r` and removes it when removal works; a failed removal leaves the fake target as it was |
| `DeployProperties.DeploymentMatchesReference` | lib/shaddox/target.rb:7-63 | every request and the outcome of a deployment equal the reference, which is written over the initial target state |
| `DeployProperties.DeploymentFinalState` | lib/shaddox/target.rb:56-60 | lock refused: the fake target is unchanged (a partly failing forced `rm -r` is not modelled). Lock held: the staging dir still exists with `keep_tmp_dir`; without it, it is gone (script included) exactly when removal works |
| `DeployProperties.LockRespected` | lib/shaddox/target.rb:23-27 | the outcome is "already running" exactly when `mkdir` fails. Then `mkdir` is the last request: no provisioning, no write, no run, no cleanup. The fake target is unchanged (a partly failing forced `rm -r` is not modelled) |
| `DeployProperties.BusyTargetUntouched` | lib/shaddox/target.rb:24-27 | without `force`, on a target whose staging path exists, the deployment issues only `mkdir`. It fails as already running and changes nothing |
| `DeployProperties.SplitForceStep` | lib/shaddox/target.rb:20-24 | a deployment is its force pre-step followed by a deployment without `force` on the target that the pre-step left |
| `DeployProperties.ForceThenPlainDeployment` | lib/shaddox/target.rb:13-24 | with `force`, `rm -r` follows `test -e` only when something is there, its result is ignored, and the deployment then proceeds as a plain one; when removal works the lock is obtained |
| `DeployProperties.FatalChecksStop` | lib/shaddox/target.rb:31-34 | Ruby is checked before gem. A missing one gives the matching error right after its check, and the only later requests are the cleanup's |
| `DeployProperties.UpdateOrInstall` | lib/shaddox/target.rb:35-46 | an installed gem is updated and never installed; a missing one is installed and never updated; when the re-check finds the gem the script is written; "could not be installed" happens exactly when the re-check fails (after an update as after an install), and then no write or run happens |
| `DeployProperties.UpdateResultIgnored` | lib/shaddox/target.rb:38-39 | a failed update only warns: the deployment makes the same requests and ends with the same outcome as with a successful update |
| `DeployProperties.InstallResultIgnored` | lib/shaddox/target.rb:41-46 | the exit status of `gem install` is not looked at: the deployment makes the same requests and ends with the same outcome whichever status it has |
| `DeployProperties.WriteThenRun` | lib/shaddox/target.rb:49-54 | after the gem checks, the script is written, then run, whatever `write_file` returned. Success holds exactly when the write does not raise, a file is left at the path and its run succeeds: a failed write that leaves an empty file can still end in success; one that leaves nothing leads to the execution error; a write that raises skips the run and its exception is what the deployment raises |
| `DeployProperties.OwnPathsOnly` | lib/shaddox/target.rb:9-54 | every request names only the deployment's own staging dir or its own script, so a deployment staged elsewhere never writes or runs this one's script |
| `DeployProperties.CleanupOnEveryPath` | lib/shaddox/target.rb:56-60 | after a successful `mkdir`, on every path (a raising write included), exactly one `test -e` and one `rm -r` of the staging dir are issued unless `keep_tmp_dir` is set (none when it is); `rm -r` is the last request |
| `DeployProperties.CleanupKeepsOutcome` | lib/shaddox/target.rb:56-60 | the error is re-raised unchanged: the outcome is the same with and without `keep_tmp_dir` |
| `DeployProperties.LockAcrossDeployments` | lib/shaddox/target.rb:24-27 | a deployment that leaves its staging dir behind makes the next one without `force` fail as already running. One that cleans up lets the next one take the lock |

## Left out

- `SSHActor` (lib/shaddox/target.rb:113-149) is left out: the Net::SSH session, the channel callbacks, the `@ssh.loop` event loop, output streaming and the sudo-password relay through `gets` are network I/O and asynchronous callbacks. The parts kept are "success means exit status 0", which is what a fake target's boolean answer stands for, and that a failed `write_file` returns false.
- `LocalActor` (lib/shaddox/target.rb:82-89) is left out: `system` and `File.open` are process and file I/O. The part kept is that a failed `write_file` raises (`writeRaises`). The fake target takes the place of both actors, so behavioural parity between them is not stated.
- `Server#write_file` shell-escapes the content with `Shellwords` (a foreign library) and echoes it through the remote shell. The remote shell's command-line length limit, which bounds the script size, is not modelled; a write simply creates the file or fails, as the scripted outcome says.
- `Actor#initialize` runs the deploy block with `instance_eval`, and `Net::SSH.start` closes the session when the block ends. Here the actor is passed to `Deploy` explicitly. Closing the session is not modelled.
- `Target#new_actor`, the `Server` constructor and the `SettingContainer` mixin are left out (lib/shaddox/target.rb:4-6, 93-109). They create the actor and hold connection settings.
- The `info` and `warn` console output are left out, including the warning for a failed update.
- The content of the user's script and its effects on the target are left out. A run succeeds exactly when Ruby is present, a file is at the script path and the scripted outcome says so.
- Exceptions raised by `exec` itself (transport errors) are left out; every `exec` returns a boolean here. Of the exceptions the `begin` block can meet, only the one a failing `write_file` raises is modelled. So the cleanup runs exactly once. In the source, an exception out of the cleanup on line 56 would be rescued and the cleanup run a second time on line 59.
- Parent directories are not recorded in the fake file system. A path exists exactly when something is recorded at it or below it, and every directory above a recorded entry, `/` included, counts as an existing directory. So `mkdir` never fails for a missing or non-directory parent, and `write_file` fails only by its scripted outcome. Removing the last entry below a directory also makes that directory absent, and on a machine with nothing recorded not even `/` exists. `rm`'s refusal to remove `/` is not modelled.
- `FakeTarget.Exec`: one flag decides whether every `rm -r` works, the force pre-step's and the cleanup's alike, because the fake does not model what makes a removal fail (permissions, busy files). A deployment whose pre-step removed stale state therefore also removes its own directory. A failed `rm -r` is taken to remove nothing, while a real one removes what it can, the stale `shadow_script.rb` included. So the unchanged target that `CleanupOfPresent`, `DeploymentFinalState` and `LockRespected` state after a failed removal or a refused lock holds of the fake; on a real target with `force` set and a staging directory that is only partly removable, the deployment still fails as already running, but the target has changed.
- `FakeTarget.Write`: a failed write that leaves a file leaves it empty; a file holding part of the script is not distinguished, since what the script does is left out.
- The staging directory is taken to be one non-empty, normalised path that is a single shell word. The source puts `tmpdir` into the command lines unquoted. An empty `:tmpdir` leaves `mkdir` without an operand, so it fails, and a `:tmpdir` with blanks or shell characters becomes several words. Two spellings of one directory (`/tmp/shaddox` and `/tmp/shaddox/`) count as different staging directories, so the mutual exclusion of `BusyTargetUntouched` and `LockAcrossDeployments` is stated for one spelling.
- Concurrent deployments are not interleaved step by step. Mutual exclusion is shown for a deployment that starts on a target whose staging directory is already taken (`BusyTargetUntouched`, `LockAcrossDeployments`).
