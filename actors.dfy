/** The actor a deployment talks to: the `exec` / `write_file` capability of
    `Shaddox::Actor`, here bound to a fake target and recording every request. */
module Actors {
  import opened Commands
  import FakeTarget

  class Actor {
    /** How the target answers; fixed for the lifetime of the session. */
    const behaviour: FakeTarget.Behaviour
    /** The target's current state. */
    var machine: FakeTarget.Machine
    /** Every request made of this actor so far, oldest first. */
    var log: seq<Event>

    constructor (behaviour: FakeTarget.Behaviour, machine: FakeTarget.Machine)
      ensures this.behaviour == behaviour && this.machine == machine && log == []
    {
      this.behaviour := behaviour;
      this.machine := machine;
      log := [];
    }

    /** `exec(command)`: run the command on the target and report whether it succeeded. */
    method Exec(c: Command) returns (ok: bool)
      modifies this
      ensures ok == FakeTarget.Exec(behaviour, old(machine), c).ok
      ensures machine == FakeTarget.Exec(behaviour, old(machine), c).after
      ensures log == old(log) + [Ran(c)]
    {
      var reply := FakeTarget.Exec(behaviour, machine, c);
      ok, machine := reply.ok, reply.after;
      log := log + [Ran(c)];
    }

    /** `write_file(content, dest_path)`: what it returned, or that it raised. */
    method WriteFile(content: string, path: string) returns (result: FakeTarget.WriteResult)
      modifies this
      ensures result == FakeTarget.Write(behaviour, old(machine), content, path).result
      ensures machine == FakeTarget.Write(behaviour, old(machine), content, path).after
      ensures log == old(log) + [Wrote(path, content)]
    {
      var reply := FakeTarget.Write(behaviour, machine, content, path);
      result, machine := reply.result, reply.after;
      log := log + [Wrote(path, content)];
    }
  }
}
