/**
 How many children a service keeps alive: one, exactly as long as no launch overtakes a reap.
 Until a first kill serial callers never do that, and the service is as strict as the tap
 middleware; after one, a late waiter can clear the flag of a newer child, and a stale line can
 reach a later caller. Two concrete runs show both.
 */
module ServiceChildren {
  import opened Values
  import opened ServiceSupervisor
  import opened ServiceSerial

  /** The waiter has not stored false yet. */
  predicate Pending(w: WaiterPc) {
    w.Unspawned? || w.InWait? || w.WantStore?
  }

  /** Started and not reaped. */
  predicate Unreaped(w: WaiterPc) {
    w.Unspawned? || w.InWait?
  }

  // ---- restarts after reaping: any callers -------------------------------------------

  predicate IsLaunch(s: State, a: Action) {
    a.CallerStep? && a.id in s.calls && s.calls[a.id].pc.Launch? && a.choice.Succeeds?
  }

  predicate LaunchesOrderly(s: State, a: Action) {
    IsLaunch(s, a) ==> forall g :: 0 <= g < |s.children| ==> !Pending(s.children[g].waiter)
  }

  predicate LaunchesReaped(s: State, a: Action) {
    IsLaunch(s, a) ==> forall g :: 0 <= g < |s.children| ==> !Unreaped(s.children[g].waiter)
  }

  /** Every child has been reaped before the next one is launched. */
  predicate ReapedBeforeLaunch(acts: seq<Action>) {
    acts != [] ==>
      var front := acts[..|acts| - 1];
      ReapedBeforeLaunch(front) && (Run(front).Some? ==> LaunchesReaped(Run(front).value, acts[|acts| - 1]))
  }

  predicate OneUnreaped(s: State) {
    forall g, h :: 0 <= g < |s.children| && 0 <= h < |s.children|
                   && Unreaped(s.children[g].waiter) && Unreaped(s.children[h].waiter)
                   ==> g == h
  }

  /** At no time of the run are two children unreaped. */
  predicate AlwaysOneChild(acts: seq<Action>) {
    && (acts != [] ==> AlwaysOneChild(acts[..|acts| - 1]))
    && (Run(acts).Some? ==> OneUnreaped(Run(acts).value))
  }

  /** Every waiter has stored false before the next child is launched. */
  predicate Orderly(acts: seq<Action>) {
    acts != [] ==>
      var front := acts[..|acts| - 1];
      Orderly(front) && (Run(front).Some? ==> LaunchesOrderly(Run(front).value, acts[|acts| - 1]))
  }

  ghost predicate OnePending(s: State) {
    forall g, h :: 0 <= g < |s.children| && 0 <= h < |s.children|
                   && Pending(s.children[g].waiter) && Pending(s.children[h].waiter)
                   ==> g == h
  }

  lemma StartMovesWaiters(s: State, id: nat, choice: Choice)
    requires id in s.calls && InStart(s.calls[id].pc) && Owns(s.children, id, s.calls[id].pc)
    requires StepStart(s, id, choice).Some?
    ensures var s' := StepStart(s, id, choice).value;
            && (forall g :: 0 <= g < |s.children| && g < |s'.children| ==>
                  || s'.children[g].waiter == s.children[g].waiter
                  || (s'.children[g].waiter.InWait? && s.children[g].waiter.Unspawned?))
            && (IsLaunch(s, CallerStep(id, choice)) ==> s'.children == s.children + [NewChild(id)])
            && |s'.children| == |s.children| + (if IsLaunch(s, CallerStep(id, choice)) then 1 else 0)
  {
  }

  /** Writing, selecting and killing leave the waiters alone. */
  lemma OthersKeepWaiters(s: State, id: nat, choice: Choice)
    requires id in s.calls && !InStart(s.calls[id].pc)
    requires Step(s, CallerStep(id, choice)).Some?
    ensures var s' := Step(s, CallerStep(id, choice)).value;
            && |s'.children| == |s.children| && s'.cmd == s.cmd
            && (forall g :: 0 <= g < |s.children| ==> s'.children[g].waiter == s.children[g].waiter)
            && id in s'.calls && !InStart(s'.calls[id].pc)
            && s'.calls == s.calls[id := s'.calls[id]]
            && (!IsKill(s, CallerStep(id, choice)) ==> s'.alive == s.alive)
  {
  }

  lemma ChildMovesWaiters(s: State, a: Action)
    requires !a.Begin? && !a.CallerStep? && a.gen < |s.children| && StepChild(s, a).Some?
    ensures var s' := StepChild(s, a).value;
            && |s'.children| == |s.children|
            && (forall g :: 0 <= g < |s.children| && Pending(s'.children[g].waiter) ==> Pending(s.children[g].waiter))
            && (forall g :: 0 <= g < |s.children| && Unreaped(s'.children[g].waiter) ==> Unreaped(s.children[g].waiter))
  {
  }

  /** From one state to the next, pending and unreaped children only come from a launch. */
  lemma ChildrenOnlyFromLaunch(s: State, a: Action, g: nat)
    requires Step(s, a).Some? && Inv(s) && g < |Step(s, a).value.children|
    ensures var w := Step(s, a).value.children[g].waiter;
            && (g < |s.children| && Pending(w) ==> Pending(s.children[g].waiter))
            && (g < |s.children| && Unreaped(w) ==> Unreaped(s.children[g].waiter))
    ensures g >= |s.children| ==> g == |s.children| && IsLaunch(s, a)
  {
    hide LineInv, ErrorInv, OnGen, Count, StepStart, StepInvoke, StepKill, StepChild;
    match a
    case Begin(_, _) =>
    case CallerStep(id, choice) =>
      if InStart(s.calls[id].pc) {
        assert Owns(s.children, id, s.calls[id].pc);
        StartMovesWaiters(s, id, choice);
      } else {
        OthersKeepWaiters(s, id, choice);
      }
    case _ => ChildMovesWaiters(s, a);
  }

  lemma LaunchAddsChild(s: State, a: Action)
    requires Step(s, a).Some? && Inv(s) && IsLaunch(s, a)
    ensures Step(s, a).value.children == s.children + [NewChild(a.id)]
  {
    assert Owns(s.children, a.id, s.calls[a.id].pc);
    StartMovesWaiters(s, a.id, a.choice);
  }

  /**
   Main result, any number of concurrent callers, kills and restarts: a run never has two
   unreaped children if and only if every launch finds all earlier children reaped.
   */
  lemma {:induction false} OneChildIff(acts: seq<Action>)
    requires Run(acts).Some?
    ensures AlwaysOneChild(acts) <==> ReapedBeforeLaunch(acts)
  {
    if acts != [] {
      var front, a := acts[..|acts| - 1], acts[|acts| - 1];
      OneChildIff(front);
      ReachableInv(front);
      var s, s' := Run(front).value, Run(acts).value;
      hide Step, Inv, InStart;
      if IsLaunch(s, a) {
        LaunchAddsChild(s, a);
        assert Unreaped(s'.children[|s.children|].waiter);
        assert forall g :: 0 <= g < |s.children| ==> s'.children[g] == s.children[g];
      } else {
        forall g | 0 <= g < |s'.children| && Unreaped(s'.children[g].waiter)
          ensures g < |s.children| && Unreaped(s.children[g].waiter)
        {
          ChildrenOnlyFromLaunch(s, a, g);
        }
      }
    }
  }

  /** If every waiter stores false before the next launch, at most one has not, whatever the callers do. */
  lemma {:induction false} OrderlyKeepsOneChild(acts: seq<Action>)
    requires Orderly(acts) && Run(acts).Some?
    ensures OnePending(Run(acts).value)
  {
    if acts != [] {
      var front, a := acts[..|acts| - 1], acts[|acts| - 1];
      OrderlyKeepsOneChild(front);
      ReachableInv(front);
      var s, s' := Run(front).value, Run(acts).value;
      hide Step, Inv;
      forall g, h | 0 <= g < |s'.children| && 0 <= h < |s'.children|
                    && Pending(s'.children[g].waiter) && Pending(s'.children[h].waiter)
        ensures g == h
      {
        ChildrenOnlyFromLaunch(s, a, g);
        ChildrenOnlyFromLaunch(s, a, h);
      }
    }
  }

  // ---- no kill: serial callers ---------------------------------------------------------

  predicate Announces(s: State, id: nat, g: nat) {
    && id in s.calls
    && (s.calls[id].pc == StoreCmd(g) || s.calls[id].pc == StoreStdin(g) || s.calls[id].pc == StoreAlive(g))
  }

  ghost predicate Explained(s: State, g: nat) {
    (s.alive && s.cmd == Some(g)) || exists id :: Announces(s, id, g)
  }

  ghost predicate CalmInv(s: State) {
    && (forall g :: 0 <= g < |s.children| && Pending(s.children[g].waiter) ==> Explained(s, g))
    && (s.alive ==> s.cmd.Some? && s.cmd.value < |s.children| && Pending(s.children[s.cmd.value].waiter))
  }

  lemma StartKeepsCalm(s: State, id: nat, choice: Choice)
    requires CalmInv(s) && SerialInv(s)
    requires id in s.calls && InStart(s.calls[id].pc) && Owns(s.children, id, s.calls[id].pc)
    requires StepStart(s, id, choice).Some?
    ensures CalmInv(StepStart(s, id, choice).value)
  {
    var s', pc := StepStart(s, id, choice).value, s.calls[id].pc;
    StartMovesWaiters(s, id, choice);
    assert Active(s, id) && PcInv(s, s.calls[id]);
    forall g | 0 <= g < |s'.children| && Pending(s'.children[g].waiter)
      ensures Explained(s', g)
    {
      if g < |s.children| {
        assert Explained(s, g);
        if t :| Announces(s, t, g) {
          assert Active(s, t);
          assert Announces(s', id, g) || (s'.alive && s'.cmd == Some(g));
        }
      } else {
        assert Announces(s', id, g);
      }
    }
  }

  lemma OthersKeepCalm(s: State, id: nat, choice: Choice)
    requires CalmInv(s) && id in s.calls && !InStart(s.calls[id].pc)
    requires Step(s, CallerStep(id, choice)).Some? && !IsKill(s, CallerStep(id, choice))
    ensures CalmInv(Step(s, CallerStep(id, choice)).value)
  {
    var s' := Step(s, CallerStep(id, choice)).value;
    OthersKeepWaiters(s, id, choice);
    hide Step;
    assert forall t, g :: Announces(s, t, g) ==> Announces(s', t, g);
    assert forall g :: 0 <= g < |s.children| && Pending(s.children[g].waiter) ==> Explained(s, g) && Explained(s', g);
  }

  lemma CallerKeepsCalm(s: State, id: nat, choice: Choice)
    requires CalmInv(s) && SerialInv(s) && Inv(s)
    requires Step(s, CallerStep(id, choice)).Some? && !IsKill(s, CallerStep(id, choice))
    ensures CalmInv(Step(s, CallerStep(id, choice)).value)
  {
    assert Owns(s.children, id, s.calls[id].pc);
    hide LineInv, ErrorInv, CallInv, OnGen, Count, CalmInv, SerialInv, Owns;
    if InStart(s.calls[id].pc) {
      StartKeepsCalm(s, id, choice);
    } else {
      OthersKeepCalm(s, id, choice);
    }
  }

  lemma BeginKeepsCalm(s: State, id: nat, input: string)
    requires CalmInv(s) && Step(s, Begin(id, input)).Some?
    ensures CalmInv(Step(s, Begin(id, input)).value)
  {
    var s' := Step(s, Begin(id, input)).value;
    assert forall t, g :: Announces(s, t, g) ==> Announces(s', t, g);
    assert forall g :: 0 <= g < |s.children| && Pending(s.children[g].waiter) ==> Explained(s, g) && Explained(s', g);
  }

  lemma ChildKeepsCalm(s: State, a: Action)
    requires CalmInv(s) && Inv(s)
    requires !a.Begin? && !a.CallerStep? && a.gen < |s.children| && StepChild(s, a).Some?
    ensures CalmInv(StepChild(s, a).value)
  {
    hide LineInv, ErrorInv, OnGen, Count;
    var s' := StepChild(s, a).value;
    assert forall t, g :: Announces(s, t, g) <==> Announces(s', t, g);
    forall g | 0 <= g < |s'.children| && Pending(s'.children[g].waiter)
      ensures Explained(s', g)
    {
      assert Explained(s, g);
      if a.WaiterStep? && s.children[a.gen].waiter.WantStore? {
        assert Explained(s, a.gen);
        if t :| Announces(s, t, a.gen) {
          assert Owns(s.children, t, s.calls[t].pc);
        }
      }
    }
  }

  lemma {:induction false} CalmReachable(acts: seq<Action>)
    requires Serial(acts) && !AnyKill(acts) && Run(acts).Some?
    ensures CalmInv(Run(acts).value)
  {
    if acts != [] {
      var front, a := acts[..|acts| - 1], acts[|acts| - 1];
      CalmReachable(front);
      ReachableInv(front);
      SerialReachable(front);
      var s := Run(front).value;
      hide Inv, SerialInv;
      match a
      case Begin(id, input) => BeginKeepsCalm(s, id, input);
      case CallerStep(id, choice) => CallerKeepsCalm(s, id, choice);
      case _ => ChildKeepsCalm(s, a);
    }
  }

  /**
   Main result: until a first kill, serial callers see what the tap middleware guarantees: at
   most one child is unreaped, and `alive` holds exactly while its waiter has not stored false,
   unless a call is between launching that child and announcing it. Two unreaped children
   therefore need an earlier kill.
   */
  lemma {:induction false} NoKillOneChild(acts: seq<Action>, g: nat, h: nat)
    requires Serial(acts) && Run(acts).Some?
    requires var s := Run(acts).value;
             g < |s.children| && h < |s.children| && Pending(s.children[g].waiter) && Pending(s.children[h].waiter)
    ensures g == h || AnyKill(acts)
    ensures !AnyKill(acts) ==>
              var s := Run(acts).value; (s.alive && s.cmd == Some(g)) || exists id :: Announces(s, id, g)
  {
    if !AnyKill(acts) {
      CalmReachable(acts);
      SerialReachable(acts);
      var s := Run(acts).value;
      assert Explained(s, g) && Explained(s, h);
      if t :| Announces(s, t, g) {
        assert Active(s, t);
      }
      if t :| Announces(s, t, h) {
        assert Active(s, t);
      }
    }
  }

  // ---- what a kill can lead to ------------------------------------------------------------

  /** A call that finds the service down, starts a child and writes its input. */
  function ColdStart(id: nat, input: string): seq<Action> {
    [Begin(id, input)] + Steps(id, 7) + [CallerStep(id, Succeeds)]
  }

  function Waiting(s: State, id: nat, input: string): State {
    var g := |s.children|;
    s.(alive := true, cmd := Some(g), stdin := Some(g),
       children := s.children + [NewChild(id).(scanner := Scanning, waiter := InWait, inputs := [input])],
       calls := s.calls[id := Call(input, Selecting, Some(Slot(g, 0)))])
  }

  lemma ColdStartRuns(s: State, id: nat, input: string)
    requires id !in s.calls && AllDone(s) && !s.alive
    ensures Exec(s, ColdStart(id, input)) == Some(Waiting(s, id, input))
  {
    var s1 := Step(s, Begin(id, input)).value;
    ExecOne(s, Begin(id, input), []);
    assert [Begin(id, input)] + [] == [Begin(id, input)];
    assert Exec(s, [Begin(id, input)]) == Some(s1);
    RestartIsNeverBlocked(s1, id);
    ExecAppend(s, [Begin(id, input)], Steps(id, 7));
    ExecAppend(s, [Begin(id, input)] + Steps(id, 7), [CallerStep(id, Succeeds)]);
    var s8 := Restarted(s1, id);
    ExecOne(s8, CallerStep(id, Succeeds), []);
    assert [CallerStep(id, Succeeds)] + [] == [CallerStep(id, Succeeds)];
    var s9 := Step(s8, CallerStep(id, Succeeds)).value;
    assert s9.calls == Waiting(s, id, input).calls;
    assert [] + [input] == [input];
    assert s9.children == Waiting(s, id, input).children;
  }

  /** The context of a waiting call ends: it clears the flag and kills the process of `cmd`. */
  function Timeout(id: nat): seq<Action> {
    [CallerStep(id, TakeContext), CallerStep(id, Succeeds), CallerStep(id, Succeeds)]
  }

  function TimedOut(s: State, id: nat): State
    requires id in s.calls && s.cmd.Some? && s.cmd.value < |s.children|
  {
    var g := s.cmd.value;
    s.(alive := false, floor := |s.children|,
       children := s.children[g := s.children[g].(killed := true)],
       calls := s.calls[id := s.calls[id].(pc := Done(Interrupted(CtxEnded, true)))])
  }

  lemma TimeoutRuns(s: State, id: nat)
    requires id in s.calls && s.calls[id].pc.Selecting? && s.cmd.Some? && s.cmd.value < |s.children|
    ensures Exec(s, Timeout(id)) == Some(TimedOut(s, id))
  {
    var a, b := CallerStep(id, TakeContext), CallerStep(id, Succeeds);
    var s1 := Step(s, a).value;
    ExecOne(s, a, [b, b]);
    var s2 := Step(s1, b).value;
    ExecOne(s1, b, [b]);
    var s3 := Step(s2, b).value;
    ExecOne(s2, b, []);
    assert [a] + [b, b] == Timeout(id) && [b] + [b] == [b, b] && [b] + [] == [b];
    assert s3.calls == TimedOut(s, id).calls;
  }

  /** Call 0 writes and times out. */
  function KilledOnce(): State {
    TimedOut(Waiting(INIT, 0, "a"), 0)
  }

  lemma KilledOnceRuns()
    ensures Exec(INIT, ColdStart(0, "a") + Timeout(0)) == Some(KilledOnce())
    ensures AllDone(KilledOnce()) && !KilledOnce().alive && 1 !in KilledOnce().calls
  {
    ColdStartRuns(INIT, 0, "a");
    TimeoutRuns(Waiting(INIT, 0, "a"), 0);
    ExecAppend(INIT, ColdStart(0, "a"), Timeout(0));
  }

  /** Then call 1 starts a new generation and writes to it. */
  function SecondCall(): seq<Action> {
    ColdStart(0, "a") + Timeout(0) + ColdStart(1, "b")
  }

  /** Generation 0 is killed but not reaped, generation 1 runs, call 1 waits. */
  ghost predicate TwoGenerations(s: State) {
    && |s.children| == 2 && s.alive && s.cmd == Some(1)
    && s.children[0] == NewChild(0).(scanner := Scanning, waiter := InWait, inputs := ["a"], killed := true)
    && s.children[1] == NewChild(1).(scanner := Scanning, waiter := InWait, inputs := ["b"])
    && 1 in s.calls && s.calls[1] == Call("b", Selecting, Some(Slot(1, 0)))
    && s.outputs == []
  }

  lemma SecondCallRuns()
    ensures Exec(INIT, SecondCall()).Some? && TwoGenerations(Exec(INIT, SecondCall()).value)
    ensures Serial(SecondCall()) && Run(SecondCall()) == Exec(INIT, SecondCall())
  {
    hide Exec, Run, Serial, ColdStart, Timeout, KilledOnce, Waiting, TwoGenerations;
    KilledOnceRuns();
    ColdStartRuns(KilledOnce(), 1, "b");
    ExecAppend(INIT, ColdStart(0, "a") + Timeout(0), ColdStart(1, "b"));
    ExecIsSerialRun(SecondCall());
    SecondCallWaits();
  }

  lemma SecondCallWaits()
    ensures TwoGenerations(Waiting(KilledOnce(), 1, "b"))
  {
  }

  /** What happens from the state a run has reached happens in a longer run. */
  lemma ThenRuns(acts: seq<Action>, s: State, more: seq<Action>)
    requires Exec(INIT, acts) == Some(s) && Exec(s, more).Some?
    ensures Serial(acts + more) && Run(acts + more) == Exec(s, more)
  {
    ExecAppend(INIT, acts, more);
    ExecIsSerialRun(acts + more);
  }

  const LATE_EXIT := [ChildExits(0, true), WaiterStep(0), WaiterStep(0)]

  lemma LateExitRuns(s: State)
    requires TwoGenerations(s)
    ensures Exec(s, LATE_EXIT).Some?
    ensures var s' := Exec(s, LATE_EXIT).value;
            !s'.alive && s'.cmd == Some(1) && |s'.children| == 2 && s'.children[1] == s.children[1]
  {
    var s1 := Step(s, ChildExits(0, true)).value;
    ExecOne(s, ChildExits(0, true), [WaiterStep(0), WaiterStep(0)]);
    var s2 := Step(s1, WaiterStep(0)).value;
    ExecOne(s1, WaiterStep(0), [WaiterStep(0)]);
    ExecOne(s2, WaiterStep(0), []);
    assert [ChildExits(0, true)] + [WaiterStep(0), WaiterStep(0)] == LATE_EXIT;
    assert [WaiterStep(0)] + [WaiterStep(0)] == [WaiterStep(0), WaiterStep(0)];
    assert [WaiterStep(0)] + [] == [WaiterStep(0)];
  }

  /**
   Not always one child: after a timeout the next call starts generation 1 while generation 0
   is still unreaped. When the waiter of 0 then stores false, generation 1 looks dead although
   it runs and nobody has killed it, so the next call would start yet another child.
   */
  lemma LateWaiterClearsNewerChild()
    ensures Serial(SecondCall()) && Run(SecondCall()).Some?
    ensures var s := Run(SecondCall()).value;
            && s.alive && |s.children| == 2 && Unreaped(s.children[0].waiter) && Unreaped(s.children[1].waiter)
    ensures Serial(SecondCall() + LATE_EXIT) && Run(SecondCall() + LATE_EXIT).Some?
    ensures var s := Run(SecondCall() + LATE_EXIT).value;
            && !s.alive && s.cmd == Some(1) && |s.children| == 2
            && s.children[1].exit.None? && !s.children[1].killed && Unreaped(s.children[1].waiter)
  {
    hide Exec, Run, Serial;
    SecondCallRuns();
    LateExitRuns(Run(SecondCall()).value);
    ThenRuns(SecondCall(), Run(SecondCall()).value, LATE_EXIT);
  }

  const LATE_LINE := [ChildWrites(0, "late"), Scan(0), ScannerSends(0), CallerStep(1, TakeOutput)]

  lemma LateLineRuns(s: State)
    requires TwoGenerations(s)
    ensures Exec(s, LATE_LINE).Some?
    ensures var s' := Exec(s, LATE_LINE).value;
            1 in s'.calls && s'.calls[1] == Call("b", Done(Replied(Line(0, "late"))), Some(Slot(1, 0)))
  {
    var a, b, c, d := ChildWrites(0, "late"), Scan(0), ScannerSends(0), CallerStep(1, TakeOutput);
    var s1 := Step(s, a).value;
    ExecOne(s, a, [b, c, d]);
    var s2 := Step(s1, b).value;
    ExecOne(s1, b, [c, d]);
    var s3 := Step(s2, c).value;
    ExecOne(s2, c, [d]);
    ExecOne(s3, d, []);
    assert [a] + [b, c, d] == LATE_LINE && [b] + [c, d] == [b, c, d] && [c] + [d] == [c, d] && [d] + [] == [d];
  }

  /** Not always the right reply: a line of the killed generation 0 is returned as the reply to call 1. */
  lemma StaleLineReachesLaterCall()
    ensures Serial(SecondCall() + LATE_LINE) && Run(SecondCall() + LATE_LINE).Some?
    ensures var s := Run(SecondCall() + LATE_LINE).value;
            1 in s.calls && s.calls[1] == Call("b", Done(Replied(Line(0, "late"))), Some(Slot(1, 0)))
  {
    hide Exec, Run, Serial;
    SecondCallRuns();
    LateLineRuns(Run(SecondCall()).value);
    ThenRuns(SecondCall(), Run(SecondCall()).value, LATE_LINE);
  }
}
