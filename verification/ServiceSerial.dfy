/**
 What the service promises callers that take turns: recovery after a kill, replies that match
 inputs until a first interruption, and one live child until a first kill.
 */
module ServiceSerial {
  import opened Values
  import opened ServiceSupervisor

  // ---- the invariant of serial runs ----------------------------------------------

  predicate Active(s: State, id: nat) {
    id in s.calls && !s.calls[id].pc.Done?
  }

  /** The fields name one and the same generation, younger than the last kill. */
  predicate Linked(s: State) {
    s.cmd.Some? && s.stdin == s.cmd && s.floor <= s.cmd.value < |s.children|
  }

  ghost predicate SerialInv(s: State) {
    && (forall id, id' :: Active(s, id) && Active(s, id') ==> id == id')
    && (s.alive ==> Linked(s))
    && s.floor <= |s.children|
    && (forall id :: Active(s, id) ==> PcInv(s, s.calls[id]))
  }

  predicate PcInv(s: State, c: Call) {
    && (c.pc.Launch? || c.pc.StoreCmd? || c.pc.StoreStdin? || c.pc.StoreAlive? ==> !s.alive)
    && (Announced(c.pc) ==> c.pc.g == |s.children| - 1 && s.floor <= c.pc.g)
    && (c.pc.StoreStdin? ==> s.cmd == Some(c.pc.g))
    && (c.pc.StoreAlive? || c.pc.SpawnScanner? || c.pc.SpawnWaiter? ==> s.cmd == s.stdin == Some(c.pc.g))
    && (c.pc.WriteInput? || c.pc.Selecting? || c.pc.ClearAlive? ==> Linked(s))
    && (c.pc.Selecting? || InKill(c.pc) ==>
          s.cmd.Some? && s.cmd == s.stdin && c.slot.Some? && c.slot.value.gen == s.cmd.value)
  }

  /** A step of one call: the others stay, and the fields are as its new place asks. */
  predicate Advanced(s: State, s': State, id: nat) {
    && id in s.calls && id in s'.calls && s'.calls == s.calls[id := s'.calls[id]]
    && (s'.alive ==> Linked(s'))
    && s'.floor <= |s'.children|
    && (!s'.calls[id].pc.Done? ==> PcInv(s', s'.calls[id]))
  }

  lemma AnnounceAdvances(s: State, id: nat, choice: Choice)
    requires SerialInv(s) && id in s.calls && Announced(s.calls[id].pc) && StepStart(s, id, choice).Some?
    ensures Advanced(s, StepStart(s, id, choice).value, id)
  {
    assert Active(s, id) && PcInv(s, s.calls[id]);
    hide SerialInv;
  }

  lemma StartAdvances(s: State, id: nat, choice: Choice)
    requires SerialInv(s) && id in s.calls && InStart(s.calls[id].pc) && StepStart(s, id, choice).Some?
    ensures Advanced(s, StepStart(s, id, choice).value, id)
  {
    if Announced(s.calls[id].pc) {
      AnnounceAdvances(s, id, choice);
    } else {
      assert Active(s, id);
    }
  }

  lemma KillAdvances(s: State, id: nat, choice: Choice)
    requires SerialInv(s) && id in s.calls && InKill(s.calls[id].pc) && StepKill(s, id, choice).Some?
    ensures Advanced(s, StepKill(s, id, choice).value, id)
  {
    assert !s.calls[id].pc.Done? ==> Active(s, id);
  }

  lemma InvokeAdvances(s: State, id: nat, choice: Choice)
    requires SerialInv(s) && id in s.calls && !InStart(s.calls[id].pc) && !InKill(s.calls[id].pc)
    requires StepInvoke(s, id, choice).Some?
    ensures Advanced(s, StepInvoke(s, id, choice).value, id)
  {
    assert !s.calls[id].pc.Done? ==> Active(s, id);
  }

  lemma StepNeedsActive(s: State, id: nat, choice: Choice)
    requires Step(s, CallerStep(id, choice)).Some?
    ensures Active(s, id)
  {
  }

  lemma CallerKeepsSerial(s: State, id: nat, choice: Choice)
    requires SerialInv(s) && Step(s, CallerStep(id, choice)).Some?
    ensures SerialInv(Step(s, CallerStep(id, choice)).value)
  {
    var s' := Step(s, CallerStep(id, choice)).value;
    assert Active(s, id);
    if InStart(s.calls[id].pc) {
      StartAdvances(s, id, choice);
    } else if InKill(s.calls[id].pc) {
      KillAdvances(s, id, choice);
    } else {
      InvokeAdvances(s, id, choice);
    }
    hide Step, PcInv, Linked;
    assert forall t :: Active(s', t) && t != id ==> Active(s, t);
  }

  lemma StepKeepsSerial(s: State, a: Action)
    requires SerialInv(s) && Step(s, a).Some? && (a.Begin? ==> AllDone(s))
    ensures SerialInv(Step(s, a).value)
  {
    var s' := Step(s, a).value;
    match a
    case Begin(id, _) => assert forall t :: Active(s', t) ==> t == id;
    case CallerStep(id, choice) => CallerKeepsSerial(s, id, choice);
    case _ => ChildKeepsSerial(s, a);
  }

  lemma ChildKeepsSerial(s: State, a: Action)
    requires SerialInv(s) && !a.Begin? && !a.CallerStep? && a.gen < |s.children| && StepChild(s, a).Some?
    ensures SerialInv(StepChild(s, a).value)
  {
    var s' := StepChild(s, a).value;
    ChildLeavesFields(s, a);
    hide StepChild;
    assert forall t :: Active(s', t) <==> Active(s, t);
  }

  lemma ChildLeavesFields(s: State, a: Action)
    requires !a.Begin? && !a.CallerStep? && a.gen < |s.children| && StepChild(s, a).Some?
    ensures var s' := StepChild(s, a).value;
            && s'.calls == s.calls && |s'.children| == |s.children| && (s'.alive ==> s.alive)
            && s'.cmd == s.cmd && s'.stdin == s.stdin && s'.floor == s.floor
  {
  }

  lemma {:induction false} SerialReachable(acts: seq<Action>)
    requires Serial(acts) && Run(acts).Some?
    ensures SerialInv(Run(acts).value)
  {
    if acts != [] {
      SerialReachable(acts[..|acts| - 1]);
      StepKeepsSerial(Run(acts[..|acts| - 1]).value, acts[|acts| - 1]);
    }
  }

  lemma RunExtends(acts: seq<Action>, a: Action)
    requires Run(acts).Some?
    ensures Run(acts + [a]) == Step(Run(acts).value, a)
    ensures Serial(acts + [a]) <==> Serial(acts) && (a.Begin? ==> AllDone(Run(acts).value))
  {
    assert (acts + [a])[..|acts|] == acts;
  }

  // ---- recovery ---------------------------------------------------------------------

  lemma StepRaisesFloor(s: State, a: Action)
    requires SerialInv(s) && Step(s, a).Some?
    ensures s.floor <= Step(s, a).value.floor
  {
  }

  lemma {:induction false} FloorOnlyRises(acts: seq<Action>, more: seq<Action>)
    requires Serial(acts + more) && Run(acts + more).Some?
    ensures Serial(acts) && Run(acts).Some? && Run(acts).value.floor <= Run(acts + more).value.floor
    decreases |more|
  {
    hide Step, SerialInv, AllDone;
    if more == [] {
      assert acts + more == acts;
    } else {
      var front := more[..|more| - 1];
      assert (acts + more)[..|acts + more| - 1] == acts + front;
      FloorOnlyRises(acts, front);
      SerialReachable(acts + front);
      StepRaisesFloor(Run(acts + front).value, more[|more| - 1]);
    }
  }

  /**
   Main result, serial callers: once a call has gone through `kill`, every later call that gets
   past `start` writes to a generation started after that kill, and `cmd` is that generation.
   */
  lemma {:induction false} NewGenerationAfterKill(acts: seq<Action>, kill: Action, more: seq<Action>, id: nat)
    requires Serial(acts + [kill] + more) && Run(acts + [kill] + more).Some?
    requires Run(acts).Some? && IsKill(Run(acts).value, kill)
    requires var s' := Run(acts + [kill] + more).value; id in s'.calls && s'.calls[id].pc.WriteInput?
    ensures var s, s' := Run(acts).value, Run(acts + [kill] + more).value;
            s'.stdin.Some? && s'.cmd == s'.stdin && |s.children| <= s'.stdin.value < |s'.children|
  {
    assert (acts + [kill])[..|acts|] == acts;
    FloorOnlyRises(acts + [kill], more);
    SerialReachable(acts + [kill] + more);
    assert Active(Run(acts + [kill] + more).value, id);
  }

  // ---- runs as lists of steps from a state ---------------------------------------------

  /** A serial run from a given state. */
  function Exec(s: State, acts: seq<Action>): Option<State>
    decreases |acts|
  {
    if acts == [] then Some(s)
    else if acts[0].Begin? && !AllDone(s) then None
    else
      var next := Step(s, acts[0]);
      if next.None? then None else Exec(next.value, acts[1..])
  }

  lemma ExecOne(s: State, a: Action, rest: seq<Action>)
    requires a.Begin? ==> AllDone(s)
    requires Step(s, a).Some?
    ensures Exec(s, [a] + rest) == Exec(Step(s, a).value, rest)
  {
    assert ([a] + rest)[1..] == rest;
  }

  lemma {:induction false} ExecAppend(s: State, xs: seq<Action>, ys: seq<Action>)
    requires Exec(s, xs).Some?
    ensures Exec(s, xs + ys) == Exec(Exec(s, xs).value, ys)
    decreases |xs|
  {
    if xs == [] {
      assert xs + ys == ys;
    } else {
      assert (xs + ys)[1..] == xs[1..] + ys;
      ExecAppend(Step(s, xs[0]).value, xs[1..], ys);
    }
  }

  lemma {:induction false} ExecIsSerialRun(acts: seq<Action>)
    requires Exec(INIT, acts).Some?
    ensures Serial(acts) && Run(acts) == Exec(INIT, acts)
    decreases |acts|
  {
    if acts != [] {
      hide Exec, Step, AllDone;
      var front, last := acts[..|acts| - 1], acts[|acts| - 1];
      assert acts == front + [last];
      PrefixExecutes(INIT, front, [last]);
      ExecAppend(INIT, front, [last]);
      ExecIsSerialRun(front);
      ExecOnly(Exec(INIT, front).value, last);
    }
  }

  lemma ExecOnly(s: State, a: Action)
    ensures Exec(s, [a]) == if a.Begin? && !AllDone(s) then None else Step(s, a)
  {
    assert [a][1..] == [];
  }

  lemma {:induction false} PrefixExecutes(s: State, xs: seq<Action>, ys: seq<Action>)
    requires Exec(s, xs + ys).Some?
    ensures Exec(s, xs).Some?
    decreases |xs|
  {
    if xs != [] {
      assert (xs + ys)[1..] == xs[1..] + ys;
      PrefixExecutes(Step(s, xs[0]).value, xs[1..], ys);
    }
  }

  /** `n` steps of a call that all go well. */
  function Steps(id: nat, n: nat): seq<Action> {
    if n == 0 then [] else [CallerStep(id, Succeeds)] + Steps(id, n - 1)
  }

  lemma StepOnce(s: State, id: nat, n: nat)
    requires n > 0 && Step(s, CallerStep(id, Succeeds)).Some?
    ensures Exec(s, Steps(id, n)) == Exec(Step(s, CallerStep(id, Succeeds)).value, Steps(id, n - 1))
  {
    ExecOne(s, CallerStep(id, Succeeds), Steps(id, n - 1));
  }

  /** A state in which a call has restarted the command and is about to write to it. */
  function Restarted(s: State, id: nat): State
    requires id in s.calls
  {
    var g := |s.children|;
    s.(alive := true, cmd := Some(g), stdin := Some(g),
       children := s.children + [NewChild(id).(scanner := Scanning, waiter := InWait)],
       calls := s.calls[id := s.calls[id].(pc := WriteInput)])
  }

  /**
   A command that is not alive restarts, whatever the two channels hold: the seven steps of
   `start` are possible one after the other, and leave both channels alone.
   */
  lemma RestartIsNeverBlocked(s: State, id: nat)
    requires id in s.calls && s.calls[id].pc.CheckAlive? && !s.alive
    ensures Exec(s, Steps(id, 7)) == Some(Restarted(s, id))
  {
    var a := CallerStep(id, Succeeds);
    var s1 := Step(s, a).value;
    StepOnce(s, id, 7);
    var s2 := Step(s1, a).value;
    StepOnce(s1, id, 6);
    var s3 := Step(s2, a).value;
    StepOnce(s2, id, 5);
    var s4 := Step(s3, a).value;
    StepOnce(s3, id, 4);
    var s5 := Step(s4, a).value;
    StepOnce(s4, id, 3);
    assert s5.calls == s.calls[id := s.calls[id].(pc := SpawnScanner(|s.children|))];
    RestartSpawns(s, id, s5);
  }

  lemma RestartSpawns(s: State, id: nat, s5: State)
    requires id in s.calls
    requires var g := |s.children|;
             && s5.calls == s.calls[id := s.calls[id].(pc := SpawnScanner(g))]
             && s5 == s.(alive := true, cmd := Some(g), stdin := Some(g),
                         children := s.children + [NewChild(id)], calls := s5.calls)
    ensures Exec(s5, Steps(id, 2)) == Some(Restarted(s, id))
  {
    var g := |s.children|;
    StepOnce(s5, id, 2);
    var s6 := Step(s5, CallerStep(id, Succeeds)).value;
    StepOnce(s6, id, 1);
    var s7 := Step(s6, CallerStep(id, Succeeds)).value;
    assert s7.children == Restarted(s, id).children;
    assert s7.calls == Restarted(s, id).calls;
    assert Exec(s7, Steps(id, 0)) == Some(s7);
  }
}
