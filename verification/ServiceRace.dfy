/**
 The data race on `alive`: `start` stores to it without the lock, and a late waiter may be about
 to store to it at the same time. When serial callers are free of it, and how they run into it.
 The tap middleware, which stores under the lock, is proved free of races in TapSupervisor.
 */
module ServiceRace {
  import opened Values
  import opened ServiceSupervisor
  import opened ServiceSerial
  import opened ServiceChildren
  import opened ServiceOverlap

  /** Call `id` and the waiter of generation `h` are both about to store to `alive`. */
  predicate Races(s: State, id: nat, h: nat) {
    && id in s.calls && s.calls[id].pc.StoreAlive?
    && h < |s.children| && s.children[h].waiter.WantStore?
  }

  /** The waiter runs and has not stored false. */
  predicate Outstanding(w: WaiterPc) {
    w.InWait? || w.WantStore?
  }

  // ---- where a race comes from ---------------------------------------------------------

  /**
   With serial callers the waiter of a race belongs to a generation that a kill has given up, or
   whose flag an older waiter had cleared.
   */
  lemma {:induction false} RaceHasCause(acts: seq<Action>, id: nat, h: nat)
    requires Serial(acts) && Run(acts).Some? && Races(Run(acts).value, id, h)
    ensures h < Run(acts).value.floor || h in Overtaken(acts)
  {
    var s := Run(acts).value;
    InChargeIff(acts, h);
    SerialReachable(acts);
    ReachableInv(acts);
    OwnsOf(s, id);
    hide Run, Overtaken, Serial, Inv;
    assert Active(s, id) && PcInv(s, s.calls[id]);
    OnlyStarterAnnounces(s, id);
  }

  /** Until a first kill serial callers are free of the race. */
  lemma {:induction false} NoKillNoRace(acts: seq<Action>, id: nat, h: nat)
    requires Serial(acts) && Run(acts).Some? && !AnyKill(acts)
    ensures !Races(Run(acts).value, id, h)
  {
    var s := Run(acts).value;
    if Races(s, id, h) {
      ReachableInv(acts);
      OwnsOf(s, id);
      NoKillOneChild(acts, s.calls[id].pc.g, h);
    }
  }

  // ---- which launches can run into one ---------------------------------------------------

  ghost predicate NoneOutstanding(s: State) {
    forall h :: 0 <= h < |s.children| ==> !Outstanding(s.children[h].waiter)
  }

  /** The call is on its way to the store, and no waiter can come up to it; or it is past the store. */
  ghost predicate Clear(s: State, id: nat) {
    && id in s.calls && !s.calls[id].pc.CheckAlive?
    && (BeforeStore(s.calls[id].pc) ==> NoneOutstanding(s))
  }

  predicate BeforeStore(pc: Pc) {
    pc.Launch? || pc.StoreCmd? || pc.StoreStdin? || pc.StoreAlive?
  }

  predicate PastStore(pc: Pc) {
    !pc.CheckAlive? && !BeforeStore(pc)
  }

  lemma StepKeepsClear(s: State, a: Action, id: nat)
    requires Clear(s, id) && SerialInv(s) && Step(s, a).Some?
    ensures Clear(Step(s, a).value, id)
  {
    match a
    case Begin(_, _) =>
    case CallerStep(t, choice) =>
      StepNeedsActive(s, t, choice);
      if t == id && BeforeStore(s.calls[id].pc) {
        OwnStepKeepsClear(s, id, choice);
      } else if t == id {
        PastStoreStaysPast(s, id, choice);
      } else {
        OtherCallStays(s, t, choice, id);
      }
    case _ => ChildKeepsClear(s, a, id);
  }

  lemma OwnStepKeepsClear(s: State, id: nat, choice: Choice)
    requires Clear(s, id) && BeforeStore(s.calls[id].pc) && StepStart(s, id, choice).Some?
    ensures Clear(StepStart(s, id, choice).value, id)
  {
  }

  lemma PastStoreStaysPast(s: State, id: nat, choice: Choice)
    requires id in s.calls && PastStore(s.calls[id].pc) && Step(s, CallerStep(id, choice)).Some?
    ensures var s' := Step(s, CallerStep(id, choice)).value;
            id in s'.calls && PastStore(s'.calls[id].pc)
  {
    if InStart(s.calls[id].pc) {
      SpawningStaysPast(s, id, choice);
    } else if InKill(s.calls[id].pc) {
      KillingStaysPast(s, id, choice);
    } else {
      InvokingStaysPast(s, id, choice);
    }
  }

  lemma SpawningStaysPast(s: State, id: nat, choice: Choice)
    requires id in s.calls && PastStore(s.calls[id].pc) && InStart(s.calls[id].pc) && StepStart(s, id, choice).Some?
    ensures id in StepStart(s, id, choice).value.calls && PastStore(StepStart(s, id, choice).value.calls[id].pc)
  {
  }

  lemma KillingStaysPast(s: State, id: nat, choice: Choice)
    requires id in s.calls && InKill(s.calls[id].pc) && StepKill(s, id, choice).Some?
    ensures id in StepKill(s, id, choice).value.calls && PastStore(StepKill(s, id, choice).value.calls[id].pc)
  {
  }

  lemma InvokingStaysPast(s: State, id: nat, choice: Choice)
    requires id in s.calls && !InStart(s.calls[id].pc) && !InKill(s.calls[id].pc) && StepInvoke(s, id, choice).Some?
    ensures id in StepInvoke(s, id, choice).value.calls && PastStore(StepInvoke(s, id, choice).value.calls[id].pc)
  {
  }

  /** While another call moves, this one has returned. */
  lemma OtherCallStays(s: State, t: nat, choice: Choice, id: nat)
    requires SerialInv(s) && Active(s, t) && id in s.calls && t != id && Step(s, CallerStep(t, choice)).Some?
    ensures s.calls[id].pc.Done?
    ensures var s' := Step(s, CallerStep(t, choice)).value; id in s'.calls && s'.calls[id].pc.Done?
  {
    assert !Active(s, id);
    hide SerialInv;
  }

  lemma ChildKeepsClear(s: State, a: Action, id: nat)
    requires Clear(s, id) && !a.Begin? && !a.CallerStep? && a.gen < |s.children| && StepChild(s, a).Some?
    ensures Clear(StepChild(s, a).value, id)
  {
    var s' := StepChild(s, a).value;
    if BeforeStore(s.calls[id].pc) {
      assert !Outstanding(s.children[a.gen].waiter);
      assert !Outstanding(s'.children[a.gen].waiter);
      assert forall g :: 0 <= g < |s'.children| && g != a.gen ==> s'.children[g] == s.children[g];
    }
  }

  /** A run that goes on with `more` and is then in a race of call `id`. */
  ghost predicate RunsInto(s: State, more: seq<Action>, id: nat, h: nat) {
    Exec(s, more).Some? && Races(Exec(s, more).value, id, h)
  }

  lemma {:induction false} ClearNeverRaces(s: State, more: seq<Action>, id: nat, h: nat)
    requires Clear(s, id) && SerialInv(s)
    ensures !RunsInto(s, more, id, h)
    decreases |more|
  {
    if more != [] && Exec(s, more).Some? {
      StepsKeepClear(s, more[0], id);
      hide Clear, SerialInv, Step, AllDone, Races;
      ClearNeverRaces(Step(s, more[0]).value, more[1..], id, h);
    }
  }

  lemma StepsKeepClear(s: State, a: Action, id: nat)
    requires Clear(s, id) && SerialInv(s) && Step(s, a).Some? && (a.Begin? ==> AllDone(s))
    ensures Clear(Step(s, a).value, id) && SerialInv(Step(s, a).value)
  {
    hide Clear, SerialInv, Step;
    StepKeepsClear(s, a, id);
    StepKeepsSerial(s, a);
  }

  /** The child of an outstanding waiter exits, and the waiter comes up to its store. */
  function ComeUp(h: nat, c: Child): seq<Action> {
    if c.waiter.WantStore? then []
    else (if c.exit.None? then [ChildExits(h, true)] else []) + [WaiterStep(h)]
  }

  lemma ComesUp(s: State, id: nat, h: nat)
    requires id in s.calls && s.calls[id].pc.StoreAlive?
    requires h < |s.children| && Outstanding(s.children[h].waiter)
    ensures RunsInto(s, ComeUp(h, s.children[h]), id, h)
  {
    var c := s.children[h];
    if c.waiter.InWait? {
      if c.exit.None? {
        var s1 := Step(s, ChildExits(h, true)).value;
        ExecOne(s, ChildExits(h, true), [WaiterStep(h)]);
        ExecOnly(s1, WaiterStep(h));
      } else {
        assert [] + [WaiterStep(h)] == [WaiterStep(h)];
        ExecOnly(s, WaiterStep(h));
      }
    }
  }

  /** From the launch to the store: the old children stay as they are. */
  lemma ReachesStore(s: State, id: nat)
    requires id in s.calls && s.calls[id].pc.Launch?
    ensures Exec(s, Steps(id, 3)).Some?
    ensures var s' := Exec(s, Steps(id, 3)).value;
            && id in s'.calls && s'.calls[id].pc.StoreAlive?
            && s'.children == s.children + [NewChild(id)]
  {
    var a := CallerStep(id, Succeeds);
    StepOnce(s, id, 3);
    var s1 := Step(s, a).value;
    StepOnce(s1, id, 2);
    var s2 := Step(s1, a).value;
    StepOnce(s2, id, 1);
    var s3 := Step(s2, a).value;
    assert Exec(s3, Steps(id, 0)) == Some(s3);
  }

  /**
   Main result: a serial caller about to launch can run into the race if and only if the waiter of
   some earlier child has not stored false yet.
   */
  lemma {:induction false} RaceIff(acts: seq<Action>, id: nat)
    requires Serial(acts) && Run(acts).Some?
    requires id in Run(acts).value.calls && Run(acts).value.calls[id].pc.Launch?
    ensures (exists more, h :: RunsInto(Run(acts).value, more, id, h)) <==> !NoneOutstanding(Run(acts).value)
  {
    var s := Run(acts).value;
    SerialReachable(acts);
    hide Run, Serial, SerialInv;
    if NoneOutstanding(s) {
      forall more, h
        ensures !RunsInto(s, more, id, h)
      {
        ClearNeverRaces(s, more, id, h);
      }
    } else {
      var h :| 0 <= h < |s.children| && Outstanding(s.children[h].waiter);
      var more := RaceWith(s, id, h);
    }
  }

  lemma RaceWith(s: State, id: nat, h: nat) returns (more: seq<Action>)
    requires id in s.calls && s.calls[id].pc.Launch?
    requires h < |s.children| && Outstanding(s.children[h].waiter)
    ensures RunsInto(s, more, id, h)
  {
    hide Exec, Races;
    ReachesStore(s, id);
    var s' := Exec(s, Steps(id, 3)).value;
    ComesUp(s', id, h);
    more := Steps(id, 3) + ComeUp(h, s'.children[h]);
    ExecAppend(s, Steps(id, 3), ComeUp(h, s'.children[h]));
  }

  /** A second call finds the service down after the first one was killed, and is about to launch. */
  function SecondLaunch(): seq<Action> {
    ColdStart(0, "a") + Timeout(0) + [Begin(1, "b"), CallerStep(1, Succeeds)]
  }

  lemma SecondLaunches()
    ensures Serial(SecondLaunch()) && Run(SecondLaunch()).Some?
    ensures var s := Run(SecondLaunch()).value;
            && 1 in s.calls && s.calls[1].pc.Launch?
            && |s.children| == 1 && s.children[0].waiter.InWait?
  {
    KilledOnceRuns();
    var s := KilledOnce();
    var s1 := Step(s, Begin(1, "b")).value;
    ExecOne(s, Begin(1, "b"), [CallerStep(1, Succeeds)]);
    ExecOnly(s1, CallerStep(1, Succeeds));
    assert [Begin(1, "b")] + [CallerStep(1, Succeeds)] == [Begin(1, "b"), CallerStep(1, Succeeds)];
    hide Exec, Run, Serial;
    ThenRuns(ColdStart(0, "a") + Timeout(0), s, [Begin(1, "b"), CallerStep(1, Succeeds)]);
  }

  /** The race is real: after one timeout, serial callers can be in it. */
  lemma RaceIsReachable() returns (acts: seq<Action>)
    ensures Serial(acts) && Run(acts).Some? && Races(Run(acts).value, 1, 0)
  {
    SecondLaunches();
    var s := Run(SecondLaunch()).value;
    var more := RaceWith(s, 1, 0);
    acts := SecondLaunch() + more;
    hide Run, Serial, Races, SecondLaunch, Exec;
    RunThenExec(SecondLaunch(), s, more);
  }

  /** A serial run goes on as the steps from its last state do. */
  lemma {:induction false} RunThenExec(acts: seq<Action>, s: State, more: seq<Action>)
    requires Serial(acts) && Run(acts) == Some(s) && Exec(s, more).Some?
    ensures Serial(acts + more) && Run(acts + more) == Exec(s, more)
    decreases |more|
  {
    if more == [] {
      assert acts + more == acts;
    } else {
      hide Run, Serial, Step, AllDone;
      var a := more[0];
      assert acts + more == (acts + [a]) + more[1..];
      RunExtends(acts, a);
      RunThenExec(acts + [a], Step(s, a).value, more[1..]);
    }
  }
}
