/**
 The objects behind the two supervisors, as their Go methods update them, run in step with the
 state machines: every assignment to a field is the step of the machine that makes it.
 */
module TapObject {
  import opened Values
  import opened TapSupervisor

  /** `n` steps of one Invoke with nobody else moving. */
  function CallerSteps(s: State, id: nat, choice: bool, n: nat): Option<State> {
    if n == 0 then Some(s) else
      var before := CallerSteps(s, id, choice, n - 1);
      if before == None || id !in before.value.calls then None else StepCaller(before.value, id, choice)
  }

  lemma OneStep(s: State, id: nat, choice: bool, n: nat)
    requires n > 0 && CallerSteps(s, id, choice, n - 1).Some? && id in CallerSteps(s, id, choice, n - 1).value.calls
    ensures CallerSteps(s, id, choice, n) == StepCaller(CallerSteps(s, id, choice, n - 1).value, id, choice)
  {
  }

  /** A call that has launched, announced and handed over a new child. */
  function Launched(s: State, id: nat): State {
    var g := |s.gens|;
    At(s, id, WriteUnlock(true)).(gens := s.gens + [InWait], cmd := Some(g), stdin := Some(g), alive := true)
  }

  /** A call that has stored the fields of a new child, and has not spawned its waiter. */
  function Stored(s: State, id: nat): State {
    var g := |s.gens|;
    At(s, id, SpawnWaiter(g)).(gens := s.gens + [Unspawned], cmd := Some(g), stdin := Some(g), alive := true)
  }

  lemma SectionStores(s: State, id: nat)
    requires id in s.calls && s.calls[id].Recheck? && !s.alive
    ensures CallerSteps(s, id, true, 5) == Some(Stored(s, id))
  {
    hide CallerSteps;
    FirstStep(s, id, true);
    var s1 := StepCaller(s, id, true).value;
    OneStep(s, id, true, 2);
    var s2 := StepCaller(s1, id, true).value;
    OneStep(s, id, true, 3);
    var s3 := StepCaller(s2, id, true).value;
    OneStep(s, id, true, 4);
    var s4 := StepCaller(s3, id, true).value;
    OneStep(s, id, true, 5);
    assert StepCaller(s4, id, true).value.calls == Stored(s, id).calls;
  }

  lemma SectionRuns(s: State, id: nat)
    requires id in s.calls && s.calls[id].Recheck? && !s.alive
    ensures CallerSteps(s, id, true, 6) == Some(Launched(s, id))
  {
    hide CallerSteps;
    SectionStores(s, id);
    OneStep(s, id, true, 6);
    var s6 := StepCaller(Stored(s, id), id, true).value;
    assert s6.calls == Launched(s, id).calls && s6.gens == Launched(s, id).gens;
  }

  lemma FirstStep(s: State, id: nat, choice: bool)
    requires id in s.calls
    ensures CallerSteps(s, id, choice, 1) == StepCaller(s, id, choice)
  {
    assert CallerSteps(s, id, choice, 0) == Some(s);
  }

  lemma SectionFails(s: State, id: nat)
    requires id in s.calls && s.calls[id].Recheck? && !s.alive
    ensures CallerSteps(s, id, false, 2) == Some(At(s, id, WriteUnlock(false)))
  {
    FirstStep(s, id, false);
    OneStep(s, id, false, 2);
    assert At(At(s, id, Launch), id, WriteUnlock(false)).calls == At(s, id, WriteUnlock(false)).calls;
  }

  class TapMiddleware {
    var alive: bool
    var cmd: Option<nat>
    var stdin: Option<nat>

    constructor ()
      ensures forall flags :: Shows(Init(flags))
    {
      alive, cmd, stdin := false, None, None;
    }

    ghost predicate Shows(s: State)
      reads this
    {
      alive == s.alive && cmd == s.cmd && stdin == s.stdin
    }

    /**
     The critical section of `start`, entered by call `id` with the writer lock held; `launched`
     says whether the pipe and the process could be made, `child` is the number of the process.
     */
    method StartLocked(launched: bool, child: nat, ghost s: State, ghost id: nat) returns (ok: bool, ghost s': State)
      requires Shows(s) && id in s.calls && s.calls[id].Recheck? && child == |s.gens|
      modifies this
      ensures Shows(s')
      ensures ok <==> old(alive) || launched
      ensures if old(alive) then s' == At(s, id, WriteUnlock(true)) && CallerSteps(s, id, launched, 1) == Some(s')
              else if launched then s' == Launched(s, id) && CallerSteps(s, id, launched, 6) == Some(s')
              else s' == At(s, id, WriteUnlock(false)) && CallerSteps(s, id, launched, 2) == Some(s')
    {
      if alive {
        FirstStep(s, id, launched);
        return true, At(s, id, WriteUnlock(true));
      }
      if !launched {
        SectionFails(s, id);
        return false, At(s, id, WriteUnlock(false));
      }
      cmd := Some(child);
      stdin := Some(child);
      alive := true;
      SectionRuns(s, id);
      return true, Launched(s, id);
    }

    /** The store a waiter makes under the writer lock. */
    method StoreDead(ghost s: State, ghost child: nat) returns (ghost s': State)
      requires Shows(s) && child < |s.gens| && s.gens[child].Storing?
      modifies this`alive
      ensures !alive && Shows(s') && StepWaiter(s, child) == Some(s')
    {
      alive := false;
      s' := StepWaiter(s, child).value;
    }
  }
}

module ServiceObject {
  import opened Values
  import opened ServiceSupervisor
  import opened ServiceSerial

  class Service {
    var alive: bool
    var cmd: Option<nat>
    var stdin: Option<nat>
    var errorChannel: seq<nat>
    var outputChannel: seq<Line>

    constructor ()
      ensures Shows(INIT)
    {
      alive, cmd, stdin, errorChannel, outputChannel := false, None, None, [], [];
    }

    ghost predicate Shows(s: State)
      reads this
    {
      alive == s.alive && cmd == s.cmd && stdin == s.stdin && errorChannel == s.errors && outputChannel == s.outputs
    }

    /** `start`, undisturbed: nothing to do if alive, otherwise a new child, if it can be launched. */
    method Start(launched: bool, child: nat, ghost s: State, ghost id: nat) returns (ok: bool, ghost s': State)
      requires Shows(s) && id in s.calls && s.calls[id].pc.CheckAlive? && child == |s.children|
      modifies this`alive, this`cmd, this`stdin
      ensures Shows(s')
      ensures ok <==> old(alive) || launched
      ensures if old(alive) then s' == At(s, id, WriteInput)
              else if launched then s' == Restarted(s, id) && Exec(s, Steps(id, 7)) == Some(s')
              else s' == At(s, id, Done(StartFailed))
    {
      if alive {
        return true, At(s, id, WriteInput);
      }
      if !launched {
        return false, At(s, id, Done(StartFailed));
      }
      cmd := Some(child);
      stdin := Some(child);
      alive := true;
      RestartIsNeverBlocked(s, id);
      return true, Restarted(s, id);
    }

    /** `kill`, undisturbed: the flag first, then the process of `cmd`; `failed` if that cannot be killed. */
    method Kill(failed: bool, ghost s: State, ghost id: nat) returns (ghost s': State)
      requires Shows(s) && id in s.calls && s.calls[id].pc.ClearAlive?
      requires s.cmd.Some? && s.cmd.value < |s.children|
      modifies this`alive
      ensures !alive && Shows(s') && id in s'.calls
      ensures s'.calls[id].pc == Done(Interrupted(s.calls[id].pc.cause, !failed))
      ensures var cleared := StepKill(s, id, Succeeds).value;
              StepKill(cleared, id, if failed then Fails else Succeeds) == Some(s')
    {
      alive := false;
      s' := StepKill(s, id, Succeeds).value;
      s' := StepKill(s', id, if failed then Fails else Succeeds).value;
    }

    /** The branch of the `select` that takes a line. */
    method TakeReply(ghost s: State, ghost id: nat) returns (line: Line, ghost s': State)
      requires Shows(s) && id in s.calls && s.calls[id].pc.Selecting? && outputChannel != []
      modifies this`outputChannel
      ensures line == old(outputChannel)[0] && outputChannel == old(outputChannel)[1..]
      ensures Shows(s') && StepInvoke(s, id, TakeOutput) == Some(s') && s'.calls[id].pc == Done(Replied(line))
    {
      line := outputChannel[0];
      outputChannel := outputChannel[1..];
      s' := StepInvoke(s, id, TakeOutput).value;
    }
  }
}
