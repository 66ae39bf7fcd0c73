/**
 What an Invoke of the tap middleware returns and why, and that it returns: a configured tap
 fails only if a launch failed, an unconfigured one always and without doing anything.
 */
module TapAnswers {
  import opened Values
  import opened TapSupervisor

  // ---- why a call returns what it returns -----------------------------------------------

  /** What can happen to a call that decides what it returns. */
  datatype Deed = LaunchFails | FnSucceeds | FnFails

  predicate Meets(pc: Pc, choice: bool, deed: Deed) {
    match deed
    case LaunchFails => pc.Launch? && !choice
    case FnSucceeds => pc.CallFn? && choice
    case FnFails => pc.CallFn? && !choice
  }

  predicate Does(s: State, a: Action, id: nat, deed: Deed) {
    a.CallerStep? && a.id == id && id in s.calls && Meets(s.calls[id], a.choice, deed)
  }

  /** It happened to the call in this run. */
  predicate Did(flags: Flags, acts: seq<Action>, id: nat, deed: Deed) {
    acts != [] &&
      var front := acts[..|acts| - 1];
      || Did(flags, front, id, deed)
      || (Run(flags, front).Some? && Does(Run(flags, front).value, acts[|acts| - 1], id, deed))
  }

  /** What the call returns, or is about to return, says that it happened. */
  predicate Tells(pc: Pc, deed: Deed) {
    match deed
    case LaunchFails => (pc.WriteUnlock? && !pc.started) || (pc.Done? && !pc.reached)
    case FnSucceeds => HasResult(pc) && pc.ok
    case FnFails => HasResult(pc) && !pc.ok
  }

  predicate HasResult(pc: Pc) {
    pc.TapOut? || pc.TapErr? || pc.ReadUnlock? || (pc.Done? && pc.reached)
  }

  lemma GetAliveTells(s: State, id: nat, choice: bool, deed: Deed)
    requires id in s.calls && InGetAlive(s.calls[id]) && StepGetAlive(s, id).Some?
    ensures var s' := StepGetAlive(s, id).value;
            && id in s'.calls && s'.calls == s.calls[id := s'.calls[id]]
            && (Tells(s'.calls[id], deed) <==> Tells(s.calls[id], deed) || Meets(s.calls[id], choice, deed))
  {
  }

  lemma StartTells(s: State, id: nat, choice: bool, deed: Deed)
    requires id in s.calls && InStart(s.calls[id]) && StepStart(s, id, choice).Some?
    ensures var s' := StepStart(s, id, choice).value;
            && id in s'.calls && s'.calls == s.calls[id := s'.calls[id]]
            && (Tells(s'.calls[id], deed) <==> Tells(s.calls[id], deed) || Meets(s.calls[id], choice, deed))
  {
  }

  lemma InvokeTells(s: State, id: nat, choice: bool, deed: Deed)
    requires id in s.calls && !InGetAlive(s.calls[id]) && !InStart(s.calls[id]) && StepInvoke(s, id, choice).Some?
    ensures var s' := StepInvoke(s, id, choice).value;
            && id in s'.calls && s'.calls == s.calls[id := s'.calls[id]]
            && (Tells(s'.calls[id], deed) <==> Tells(s.calls[id], deed) || Meets(s.calls[id], choice, deed))
  {
    hide WroteIf;
  }

  lemma CallerTells(s: State, t: nat, choice: bool, deed: Deed)
    requires t in s.calls && StepCaller(s, t, choice).Some?
    ensures var s' := StepCaller(s, t, choice).value;
            && t in s'.calls && s'.calls == s.calls[t := s'.calls[t]]
            && (Tells(s'.calls[t], deed) <==> Tells(s.calls[t], deed) || Meets(s.calls[t], choice, deed))
  {
    hide StepGetAlive, StepStart, StepInvoke, Tells, Meets;
    if InGetAlive(s.calls[t]) {
      GetAliveTells(s, t, choice, deed);
    } else if InStart(s.calls[t]) {
      StartTells(s, t, choice, deed);
    } else {
      InvokeTells(s, t, choice, deed);
    }
  }

  lemma StepTells(s: State, a: Action, id: nat, deed: Deed)
    requires s.flags.configured && Step(s, a).Some?
    ensures s.calls.Keys <= Step(s, a).value.calls.Keys
    ensures id in Step(s, a).value.calls ==>
              (Tells(Step(s, a).value.calls[id], deed) <==>
               (id in s.calls && Tells(s.calls[id], deed)) || Does(s, a, id, deed))
  {
    hide StepCaller;
    match a
    case Begin(_) =>
    case CallerStep(t, choice) => CallerTells(s, t, choice, deed);
    case WaiterStep(g) => WaiterTellsNothing(s, g);
  }

  lemma WaiterTellsNothing(s: State, g: nat)
    requires g < |s.gens| && StepWaiter(s, g).Some?
    ensures StepWaiter(s, g).value.calls == s.calls && StepWaiter(s, g).value.log == s.log
  {
  }

  lemma {:induction false} NothingBeforeBegin(flags: Flags, acts: seq<Action>, id: nat, deed: Deed)
    requires flags.configured && Run(flags, acts).Some? && id !in Run(flags, acts).value.calls
    ensures !Did(flags, acts, id, deed)
  {
    if acts != [] {
      var front := acts[..|acts| - 1];
      ReachableInv(flags, front);
      StepTells(Run(flags, front).value, acts[|acts| - 1], id, deed);
      hide Step, Inv;
      NothingBeforeBegin(flags, front, id, deed);
    }
  }

  /**
   Main result, any run with any number of callers: a call of a configured tap fails before the fn
   if and only if it met a failed launch, and otherwise returns the fn's own result.
   */
  lemma {:induction false} AnswerIff(flags: Flags, acts: seq<Action>, id: nat, deed: Deed)
    requires flags.configured && Run(flags, acts).Some? && id in Run(flags, acts).value.calls
    ensures Tells(Run(flags, acts).value.calls[id], deed) <==> Did(flags, acts, id, deed)
  {
    var front, a := acts[..|acts| - 1], acts[|acts| - 1];
    var s := Run(flags, front).value;
    ReachableInv(flags, front);
    StepTells(s, a, id, deed);
    hide Step, Tells, Does, Inv;
    if id in s.calls {
      AnswerIff(flags, front, id, deed);
    } else {
      NothingBeforeBegin(flags, front, id, deed);
    }
  }

  /** In particular a returned call reached the fn exactly if no launch of its own failed. */
  lemma {:induction false} ReachedIff(flags: Flags, acts: seq<Action>, id: nat)
    requires flags.configured && Run(flags, acts).Some? && id in Run(flags, acts).value.calls
    requires Run(flags, acts).value.calls[id].Done?
    ensures var pc := Run(flags, acts).value.calls[id];
            && (pc.reached <==> !Did(flags, acts, id, LaunchFails))
            && (pc.reached && pc.ok <==> Did(flags, acts, id, FnSucceeds))
            && (pc.reached && !pc.ok <==> Did(flags, acts, id, FnFails))
  {
    AnswerIff(flags, acts, id, LaunchFails);
    AnswerIff(flags, acts, id, FnSucceeds);
    AnswerIff(flags, acts, id, FnFails);
  }

  // ---- an unconfigured tap ---------------------------------------------------------------

  /** Every call has failed, and nothing else has happened. */
  ghost predicate Refuses(s: State) {
    && (forall id :: id in s.calls ==> s.calls[id] == Done(false, false, None))
    && s.gens == [] && s.log == [] && !s.alive && s.cmd == None && s.stdin == None
  }

  lemma StepKeepsRefusing(s: State, a: Action)
    requires Refuses(s) && !s.flags.configured && Step(s, a).Some?
    ensures Refuses(Step(s, a).value)
  {
  }

  /** Main result: an unconfigured tap fails every Invoke at once, without a child, a line or a call. */
  lemma {:induction false} UnconfiguredRefuses(flags: Flags, acts: seq<Action>)
    requires !flags.configured && Run(flags, acts).Some?
    ensures Refuses(Run(flags, acts).value)
  {
    if acts != [] {
      var front := acts[..|acts| - 1];
      UnconfiguredRefuses(flags, front);
      ReachableInv(flags, front);
      hide Step, Inv, Refuses;
      StepKeepsRefusing(Run(flags, front).value, acts[|acts| - 1]);
    }
  }

  // ---- calls get through ------------------------------------------------------------------

  /** The rest of a run, from a given state. */
  function Continue(s: State, acts: seq<Action>): Option<State>
    decreases |acts|
  {
    if acts == [] then Some(s) else
      var next := Step(s, acts[0]);
      if next == None then None else Continue(next.value, acts[1..])
  }

  /** Nobody but this call holds the lock. */
  predicate HasLockToItself(s: State, id: nat) {
    (s.writer == None || s.writer == Some(Caller(id))) && s.readers <= {id}
  }

  /** The steps a call has left at most if nobody interferes; one that saw `alive` skips `start`. */
  function StepsLeft(s: State, pc: Pc): nat {
    match pc
    case CheckLock => 17
    case CheckRead => 16
    case CheckUnlock(seen) => if seen then 7 else 15
    case WantWrite => 14
    case Recheck => if s.alive then 8 else 13
    case Launch => 12
    case StoreCmd(_) => 11
    case StoreStdin(_) => 10
    case StoreAlive(_) => 9
    case SpawnWaiter(_) => 8
    case WriteUnlock(_) => 7
    case WantRead => 6
    case TapIn => 5
    case CallFn => 4
    case TapOut(_) => 3
    case TapErr(_) => 2
    case ReadUnlock(_) => 1
    case Done(_, _, _) => 0
  }

  lemma OneStepCloser(s: State, id: nat)
    requires LockInv(s) && ChildInv(s) && id in s.calls && HasLockToItself(s, id) && !s.calls[id].Done?
    ensures var next := StepCaller(s, id, true);
            && next.Some? && id in next.value.calls && HasLockToItself(next.value, id)
            && StepsLeft(next.value, next.value.calls[id]) < StepsLeft(s, s.calls[id])
  {
    hide StepGetAlive, StepStart, StepInvoke, StepsLeft, HasLockToItself, LockInv, ChildInv;
    if InGetAlive(s.calls[id]) {
      GetAliveCloser(s, id);
    } else if InStart(s.calls[id]) {
      StartCloser(s, id);
    } else {
      InvokeCloser(s, id);
    }
  }

  lemma GetAliveCloser(s: State, id: nat)
    requires LockInv(s) && id in s.calls && HasLockToItself(s, id) && InGetAlive(s.calls[id])
    ensures var next := StepGetAlive(s, id);
            && next.Some? && id in next.value.calls && HasLockToItself(next.value, id)
            && StepsLeft(next.value, next.value.calls[id]) < StepsLeft(s, s.calls[id])
  {
  }

  lemma StartCloser(s: State, id: nat)
    requires LockInv(s) && ChildInv(s) && id in s.calls && HasLockToItself(s, id) && InStart(s.calls[id])
    ensures var next := StepStart(s, id, true);
            && next.Some? && id in next.value.calls && HasLockToItself(next.value, id)
            && StepsLeft(next.value, next.value.calls[id]) < StepsLeft(s, s.calls[id])
  {
  }

  lemma InvokeCloser(s: State, id: nat)
    requires LockInv(s) && id in s.calls && HasLockToItself(s, id)
    requires !InGetAlive(s.calls[id]) && !InStart(s.calls[id]) && !s.calls[id].Done?
    ensures var next := StepInvoke(s, id, true);
            && next.Some? && id in next.value.calls && HasLockToItself(next.value, id)
            && StepsLeft(next.value, next.value.calls[id]) < StepsLeft(s, s.calls[id])
  {
    hide WroteIf;
  }

  /** `n` steps of one call that all go well. */
  function Steps(id: nat, n: nat): seq<Action> {
    if n == 0 then [] else [CallerStep(id, true)] + Steps(id, n - 1)
  }

  /** A call left alone runs to its end. */
  lemma {:induction false} LeftAloneFinishes(s: State, id: nat) returns (n: nat)
    requires Inv(s) && id in s.calls && HasLockToItself(s, id)
    ensures n <= StepsLeft(s, s.calls[id])
    ensures var end := Continue(s, Steps(id, n));
            end.Some? && id in end.value.calls && end.value.calls[id].Done?
    decreases StepsLeft(s, s.calls[id])
  {
    if s.calls[id].Done? {
      n := 0;
    } else {
      var s' := StepCaller(s, id, true).value;
      OneStepCloser(s, id);
      CallerKeepsInv(s, id, true);
      hide Inv, StepCaller, StepsLeft, HasLockToItself;
      n := LeftAloneFinishes(s', id);
      n := n + 1;
      assert Steps(id, n)[1..] == Steps(id, n - 1);
    }
  }

  /**
   Main result: in no reachable state is an unfinished call stuck together with everybody else: it,
   or somebody who holds the lock, can take a step.
   */
  lemma {:induction false} NoDeadlock(flags: Flags, acts: seq<Action>, id: nat) returns (a: Action)
    requires Run(flags, acts).Some? && id in Run(flags, acts).value.calls
    requires !Run(flags, acts).value.calls[id].Done?
    ensures !a.Begin? && Step(Run(flags, acts).value, a).Some?
  {
    var s := Run(flags, acts).value;
    ReachableInv(flags, acts);
    hide Run, HistoryInv, WroteIf;
    if s.writer.Some? && s.writer.value.Waiter? {
      a := WaiterStep(s.writer.value.gen);
    } else if s.writer.Some? {
      a := CallerStep(s.writer.value.id, true);
    } else if s.readers != {} {
      var t :| t in s.readers;
      a := CallerStep(t, true);
    } else {
      a := CallerStep(id, true);
    }
  }

  /** Where a waiter goes next. */
  function NextPc(w: WaiterPc): WaiterPc {
    match w
    case InWait => WantStore
    case WantStore => Storing
    case Storing => WaiterUnlock
    case WaiterUnlock => Finished
    case _ => w
  }

  /** A waiter that has been spawned goes on to its end, and waits for nothing but the lock for its store. */
  lemma WaiterGoesOn(s: State, g: nat)
    requires g < |s.gens|
    ensures StepWaiter(s, g).Some? <==>
            && !s.gens[g].Unspawned? && !s.gens[g].Finished?
            && (s.gens[g].WantStore? ==> s.writer == None && s.readers == {})
    ensures StepWaiter(s, g).Some? ==> StepWaiter(s, g).value.gens == s.gens[g := NextPc(s.gens[g])]
  {
  }

  /** From the first state on: a call of a configured tap gets through to the fn. */
  lemma {:induction false} FirstCallGetsThrough(flags: Flags, id: nat) returns (acts: seq<Action>)
    requires flags.configured
    ensures Run(flags, acts).Some? && id in Run(flags, acts).value.calls
    ensures var pc := Run(flags, acts).value.calls[id]; pc.Done? && pc.reached && pc.ok
  {
    var s := Step(Init(flags), Begin(id)).value;
    assert [Begin(id)][..0] == [] && Run(flags, []) == Some(Init(flags));
    assert Run(flags, [Begin(id)]) == Some(s);
    ReachableInv(flags, [Begin(id)]);
    var n := LeftAloneFinishes(s, id);
    acts := [Begin(id)] + Steps(id, n);
    hide Step, Inv;
    RunContinues(flags, [Begin(id)], Steps(id, n));
    AllWell(flags, [Begin(id)], id, n);
    AnswerIff(flags, acts, id, LaunchFails);
    AnswerIff(flags, acts, id, FnFails);
  }

  lemma RunExtends(flags: Flags, acts: seq<Action>, a: Action)
    requires Run(flags, acts).Some?
    ensures Run(flags, acts + [a]) == Step(Run(flags, acts).value, a)
    ensures forall id, deed :: Did(flags, acts + [a], id, deed) <==>
              Did(flags, acts, id, deed) || Does(Run(flags, acts).value, a, id, deed)
  {
    hide Step, Does;
    assert (acts + [a])[..|acts|] == acts;
  }

  lemma {:induction false} RunContinues(flags: Flags, acts: seq<Action>, more: seq<Action>)
    requires Run(flags, acts).Some? && Continue(Run(flags, acts).value, more).Some?
    ensures Run(flags, acts + more) == Continue(Run(flags, acts).value, more)
    decreases |more|
  {
    if more == [] {
      assert acts + more == acts;
    } else {
      hide Step, Run, Did;
      assert acts + more == (acts + [more[0]]) + more[1..];
      RunExtends(flags, acts, more[0]);
      RunContinues(flags, acts + [more[0]], more[1..]);
    }
  }

  /** Steps that all go well meet no failure. */
  lemma {:induction false} AllWell(flags: Flags, acts: seq<Action>, id: nat, n: nat)
    requires Run(flags, acts).Some? && Continue(Run(flags, acts).value, Steps(id, n)).Some?
    requires !Did(flags, acts, id, LaunchFails) && !Did(flags, acts, id, FnFails)
    ensures !Did(flags, acts + Steps(id, n), id, LaunchFails) && !Did(flags, acts + Steps(id, n), id, FnFails)
    decreases n
  {
    if n == 0 {
      assert acts + [] == acts;
    } else {
      hide Step, Run, Did;
      var a := CallerStep(id, true);
      assert Steps(id, n)[1..] == Steps(id, n - 1);
      assert acts + Steps(id, n) == (acts + [a]) + Steps(id, n - 1);
      RunExtends(flags, acts, a);
      AllWell(flags, acts + [a], id, n - 1);
    }
  }
}
