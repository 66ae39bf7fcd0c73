/**
 Why a service that serial callers use launches a child over an unreaped one: a kill has given
 the old child up, or the waiter of a still older child has cleared the flag while it was the
 one in charge. There is no other cause.
 */
module ServiceOverlap {
  import opened Values
  import opened ServiceSupervisor
  import opened ServiceSerial
  import opened ServiceChildren

  /** The generation in charge whose flag this step clears although an older waiter takes it. */
  function Overtook(s: State, a: Action): set<nat> {
    if a.WaiterStep? && a.gen < |s.children| && s.children[a.gen].waiter.WantStore?
       && s.alive && s.cmd.Some? && a.gen < s.cmd.value
    then {s.cmd.value} else {}
  }

  /** All generations to which that happened in a run. */
  function Overtaken(acts: seq<Action>): set<nat> {
    if acts == [] then {} else
      var front := acts[..|acts| - 1];
      Overtaken(front) + (if Run(front).Some? then Overtook(Run(front).value, acts[|acts| - 1]) else {})
  }

  /** An outstanding child is in charge, or being announced, unless it was given up or overtaken. */
  ghost predicate ChargeInv(s: State, overtaken: set<nat>) {
    && (s.alive ==> s.cmd == Some(|s.children| - 1))
    && (forall g :: 0 <= g < |s.children| && Pending(s.children[g].waiter) ==>
          g < s.floor || g in overtaken || Explained(s, g))
    && (forall g :: g in overtaken ==> g < |s.children| && !Explained(s, g))
  }

  lemma StartKeepsCharge(s: State, id: nat, choice: Choice, overtaken: set<nat>)
    requires ChargeInv(s, overtaken) && SerialInv(s)
    requires id in s.calls && InStart(s.calls[id].pc) && Owns(s.children, id, s.calls[id].pc)
    requires StepStart(s, id, choice).Some?
    ensures ChargeInv(StepStart(s, id, choice).value, overtaken)
  {
    var s', pc := StepStart(s, id, choice).value, s.calls[id].pc;
    StartMovesWaiters(s, id, choice);
    assert Active(s, id) && PcInv(s, s.calls[id]);
    OnlyStarterAnnounces(s, id);
    StarterAnnounces(s, id, choice);
    hide StepStart, SerialInv, PcInv, Linked, Owns;
    forall g | 0 <= g < |s'.children| && Pending(s'.children[g].waiter)
      ensures g < s'.floor || g in overtaken || Explained(s', g)
    {
      if g == |s.children| {
        assert Announces(s', id, g);
      } else {
        assert Explained(s, g) ==> Explained(s', g);
      }
    }
    forall g | g in overtaken
      ensures !Explained(s', g)
    {
      assert !Explained(s, g);
      assert !Announces(s, id, g);
    }
  }

  /** While a call is inside `start`, only it announces a child. */
  lemma OnlyStarterAnnounces(s: State, id: nat)
    requires SerialInv(s) && Active(s, id)
    ensures forall t, g :: Announces(s, t, g) ==> t == id
  {
    assert forall t, g :: Announces(s, t, g) ==> Active(s, t);
  }

  /** What a step of `start` does to the child in charge. */
  lemma StarterAnnounces(s: State, id: nat, choice: Choice)
    requires id in s.calls && InStart(s.calls[id].pc) && PcInv(s, s.calls[id]) && (s.alive ==> Linked(s))
    requires s.alive ==> s.cmd == Some(|s.children| - 1)
    requires StepStart(s, id, choice).Some?
    requires forall t, g :: Announces(s, t, g) ==> t == id
    ensures var s' := StepStart(s, id, choice).value;
            && s'.floor == s.floor
            && (s'.alive ==> s'.cmd == Some(|s'.children| - 1))
            && (forall t, g :: Announces(s', t, g) ==> t == id && (Announces(s, id, g) || g == |s.children|))
            && (forall g: nat :: Announces(s, id, g) ==> Announces(s', id, g) || (s'.alive && s'.cmd == Some(g)))
            && (s.alive ==> s'.alive && s'.cmd == s.cmd)
            && (s'.alive && !s.alive ==> Announces(s, id, |s.children| - 1) && s'.cmd == Some(|s.children| - 1))
            && (IsLaunch(s, CallerStep(id, choice)) ==> Announces(s', id, |s.children|))
  {
    var s' := StepStart(s, id, choice).value;
    forall t, g | Announces(s', t, g)
      ensures t == id
    {
      assert t != id ==> Announces(s, t, g);
    }
  }

  lemma OthersKeepCharge(s: State, id: nat, choice: Choice, overtaken: set<nat>)
    requires ChargeInv(s, overtaken) && id in s.calls && !InStart(s.calls[id].pc)
    requires Step(s, CallerStep(id, choice)).Some? && !IsKill(s, CallerStep(id, choice))
    ensures ChargeInv(Step(s, CallerStep(id, choice)).value, overtaken)
  {
    var s' := Step(s, CallerStep(id, choice)).value;
    OthersKeepWaiters(s, id, choice);
    OthersKeepFloor(s, id, choice);
    hide Step;
    assert forall t, g :: Announces(s, t, g) <==> Announces(s', t, g);
    assert forall g :: Explained(s, g) <==> Explained(s', g);
  }

  lemma OthersKeepFloor(s: State, id: nat, choice: Choice)
    requires id in s.calls && !InStart(s.calls[id].pc)
    requires Step(s, CallerStep(id, choice)).Some? && !IsKill(s, CallerStep(id, choice))
    ensures Step(s, CallerStep(id, choice)).value.floor == s.floor
  {
  }

  /** A kill gives up every child there is. */
  lemma KillKeepsCharge(s: State, id: nat, choice: Choice, overtaken: set<nat>)
    requires ChargeInv(s, overtaken) && id in s.calls && s.calls[id].pc.ClearAlive?
    ensures ChargeInv(StepKill(s, id, choice).value, overtaken)
  {
    var s' := StepKill(s, id, choice).value;
    assert forall t, g :: Announces(s', t, g) ==> Announces(s, t, g);
  }

  lemma BeginKeepsCharge(s: State, id: nat, input: string, overtaken: set<nat>)
    requires ChargeInv(s, overtaken) && Step(s, Begin(id, input)).Some?
    ensures ChargeInv(Step(s, Begin(id, input)).value, overtaken)
  {
    var s' := Step(s, Begin(id, input)).value;
    assert forall t, g :: Announces(s, t, g) <==> Announces(s', t, g);
    assert forall g :: Explained(s, g) <==> Explained(s', g);
  }

  lemma ChildKeepsCharge(s: State, a: Action, overtaken: set<nat>)
    requires ChargeInv(s, overtaken) && SerialInv(s)
    requires !a.Begin? && !a.CallerStep? && a.gen < |s.children| && StepChild(s, a).Some?
    ensures ChargeInv(StepChild(s, a).value, overtaken + Overtook(s, a))
  {
    var s' := StepChild(s, a).value;
    ChildLeavesFields(s, a);
    ChildMovesWaiters(s, a);
    StoreClears(s, a);
    hide StepChild;
    assert forall t, g :: Announces(s, t, g) <==> Announces(s', t, g);
    forall g | 0 <= g < |s'.children| && Pending(s'.children[g].waiter)
      ensures g < s'.floor || g in overtaken + Overtook(s, a) || Explained(s', g)
    {
      assert Explained(s, g) && !Explained(s', g) ==> s.alive && s.cmd == Some(g) && !s'.alive;
    }
    forall g | g in overtaken + Overtook(s, a)
      ensures g < |s'.children| && !Explained(s', g)
    {
      if g in overtaken {
        assert !Explained(s, g);
      } else {
        AliveMeansNoneAnnounced(s);
      }
    }
  }

  /** Only a waiter's store clears the flag, and its child is then no longer outstanding. */
  lemma StoreClears(s: State, a: Action)
    requires !a.Begin? && !a.CallerStep? && a.gen < |s.children| && StepChild(s, a).Some?
    ensures var s' := StepChild(s, a).value;
            && (s.alive && !s'.alive ==> a.WaiterStep? && s.children[a.gen].waiter.WantStore?)
            && (a.WaiterStep? && s.children[a.gen].waiter.WantStore? ==>
                  !s'.alive && !Pending(s'.children[a.gen].waiter))
  {
  }

  lemma AliveMeansNoneAnnounced(s: State)
    requires SerialInv(s)
    ensures s.alive ==> forall t, g :: !Announces(s, t, g)
  {
    forall t, g | Announces(s, t, g)
      ensures !s.alive
    {
      assert Active(s, t) && PcInv(s, s.calls[t]);
    }
  }

  lemma StepKeepsCharge(s: State, a: Action, overtaken: set<nat>)
    requires ChargeInv(s, overtaken) && SerialInv(s) && Inv(s) && Step(s, a).Some?
    ensures ChargeInv(Step(s, a).value, overtaken + Overtook(s, a))
  {
    hide ChargeInv, SerialInv, LineInv, ErrorInv, OnGen, Count, StepStart, StepInvoke, StepKill, StepChild, Owns;
    assert !a.WaiterStep? ==> overtaken + Overtook(s, a) == overtaken;
    match a
    case Begin(id, input) => BeginKeepsCharge(s, id, input, overtaken);
    case CallerStep(id, choice) =>
      if InStart(s.calls[id].pc) {
        assert Owns(s.children, id, s.calls[id].pc);
        StartKeepsCharge(s, id, choice, overtaken);
      } else if IsKill(s, a) {
        KillKeepsCharge(s, id, choice, overtaken);
      } else {
        OthersKeepCharge(s, id, choice, overtaken);
      }
    case _ => ChildKeepsCharge(s, a, overtaken);
  }

  lemma {:induction false} ChargeReachable(acts: seq<Action>)
    requires Serial(acts) && Run(acts).Some?
    ensures ChargeInv(Run(acts).value, Overtaken(acts))
  {
    if acts != [] {
      var front := acts[..|acts| - 1];
      ChargeReachable(front);
      ReachableInv(front);
      SerialReachable(front);
      hide ChargeInv, Inv, SerialInv, Step, Overtook;
      StepKeepsCharge(Run(front).value, acts[|acts| - 1], Overtaken(front));
    }
  }

  /**
   Main result: an outstanding child is the one in charge, or being announced, if and only if no
   kill has given it up and no older waiter has cleared its flag.
   */
  lemma {:induction false} InChargeIff(acts: seq<Action>, g: nat)
    requires Serial(acts) && Run(acts).Some?
    requires g < |Run(acts).value.children| && Pending(Run(acts).value.children[g].waiter)
    ensures Explained(Run(acts).value, g) <==> Run(acts).value.floor <= g && g !in Overtaken(acts)
  {
    var s := Run(acts).value;
    ChargeReachable(acts);
    SerialReachable(acts);
    hide Run, Overtaken, Serial;
    if t :| Announces(s, t, g) {
      assert Active(s, t) && PcInv(s, s.calls[t]);
    }
  }

  /** Hence a launch over a child that is still unreaped has one of these two causes. */
  lemma {:induction false} OverlapHasCause(acts: seq<Action>, a: Action, g: nat)
    requires Serial(acts) && Run(acts).Some? && IsLaunch(Run(acts).value, a)
    requires g < |Run(acts).value.children| && Unreaped(Run(acts).value.children[g].waiter)
    ensures g < Run(acts).value.floor || g in Overtaken(acts)
  {
    var s := Run(acts).value;
    InChargeIff(acts, g);
    SerialReachable(acts);
    hide Run, Overtaken, Serial;
    assert Active(s, a.id) && PcInv(s, s.calls[a.id]);
    OnlyStarterAnnounces(s, a.id);
  }
}
