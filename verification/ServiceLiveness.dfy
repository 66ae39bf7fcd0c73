/**
 When a waiting Invoke can return without its context: exactly as long as a line or an error is
 there or can still come from some generation. A child that exits without an error and without
 having answered leaves its caller waiting for good.
 */
module ServiceLiveness {
  import opened Values
  import opened ServiceSupervisor
  import opened ServiceSerial
  import opened ServiceChildren

  /** A generation can still bring a line, or the error of its child, into a channel. */
  predicate MayServe(c: Child) {
    || c.scanner.Blocked?
    || (c.scanner.Scanning? && (c.scanned < |c.wrote| || c.exit.None?))
    || c.waiter.Sending?
    || ((c.waiter.InWait? || c.waiter.WantStore?) && (c.exit.None? || c.exit.value))
  }

  predicate CanBeServed(s: State) {
    s.outputs != [] || s.errors != [] || exists g :: 0 <= g < |s.children| && MayServe(s.children[g])
  }

  /** The context of the call does not end. */
  predicate WithoutContext(more: seq<Action>, id: nat) {
    forall i :: 0 <= i < |more| ==> more[i] != CallerStep(id, TakeContext)
  }

  /** The run goes on with `more`, and the call has then left the select. */
  predicate Leaves(s: State, more: seq<Action>, id: nat) {
    Exec(s, more).Some? && id in Exec(s, more).value.calls && !Exec(s, more).value.calls[id].pc.Selecting?
  }

  // ---- nothing left: the call waits for good ------------------------------------------

  lemma StuckStays(s: State, a: Action, id: nat)
    requires SerialInv(s) && id in s.calls && s.calls[id].pc.Selecting? && !CanBeServed(s)
    requires Step(s, a).Some? && (a.Begin? ==> AllDone(s)) && a != CallerStep(id, TakeContext)
    ensures var s' := Step(s, a).value;
            id in s'.calls && s'.calls[id].pc.Selecting? && !CanBeServed(s')
  {
    assert Active(s, id);
    match a
    case Begin(_, _) =>
    case CallerStep(t, choice) => StepNeedsActive(s, t, choice);
    case _ => ChildStaysSilent(s, a);
  }

  /** A generation that can bring nothing any more never will. */
  lemma ChildStaysSilent(s: State, a: Action)
    requires !a.Begin? && !a.CallerStep? && a.gen < |s.children| && StepChild(s, a).Some? && !CanBeServed(s)
    ensures StepChild(s, a).value.calls == s.calls && !CanBeServed(StepChild(s, a).value)
  {
    var s' := StepChild(s, a).value;
    assert !MayServe(s.children[a.gen]);
    assert !MayServe(s'.children[a.gen]);
    assert forall g :: 0 <= g < |s'.children| && g != a.gen ==> s'.children[g] == s.children[g];
  }

  lemma {:induction false} StuckForever(s: State, more: seq<Action>, id: nat)
    requires SerialInv(s) && id in s.calls && s.calls[id].pc.Selecting? && !CanBeServed(s)
    requires WithoutContext(more, id)
    ensures !Leaves(s, more, id)
    decreases |more|
  {
    if more != [] && Exec(s, more).Some? {
      hide SerialInv, CanBeServed, Step, AllDone;
      assert forall i :: 0 <= i < |more[1..]| ==> more[1..][i] == more[i + 1];
      StuckStays(s, more[0], id);
      StepKeepsSerial(s, more[0]);
      StuckForever(Step(s, more[0]).value, more[1..], id);
    }
  }

  // ---- something left: a way out -------------------------------------------------------

  /** The next step on the shortest way of a generation to a channel, and how long that way is. */
  function NextStep(g: nat, c: Child): Action {
    if c.scanner.Blocked? then ScannerSends(g)
    else if c.scanner.Scanning? && c.scanned < |c.wrote| then Scan(g)
    else if c.scanner.Scanning? && c.exit.None? then ChildWrites(g, "")
    else if !c.waiter.Sending? && c.exit.None? then ChildExits(g, true)
    else WaiterStep(g)
  }

  function Distance(c: Child): nat {
    if c.scanner.Blocked? then 1
    else if c.scanner.Scanning? && c.scanned < |c.wrote| then 2
    else if c.scanner.Scanning? && c.exit.None? then 3
    else if c.waiter.Sending? then 1
    else (if c.waiter.WantStore? then 2 else 3) + (if c.exit.None? then 1 else 0)
  }

  lemma OneStepCloser(s: State, g: nat)
    requires g < |s.children| && MayServe(s.children[g]) && s.children[g].scanned <= |s.children[g].wrote|
    requires s.outputs == [] && s.errors == []
    ensures var next := StepChild(s, NextStep(g, s.children[g]));
            && next.Some? && next.value.calls == s.calls && |next.value.children| == |s.children|
            && (|| next.value.outputs != [] || next.value.errors != []
                || Closer(s.children[g], next.value.children[g]))
  {
    var c := s.children[g];
    if c.scanner.Scanning? && c.scanned < |c.wrote| {
      assert StepChild(s, Scan(g)).value.children[g].scanner.Blocked?;
    } else if c.scanner.Scanning? && c.exit.None? {
      assert StepChild(s, ChildWrites(g, "")).value.children[g].wrote == c.wrote + [""];
    } else if !c.scanner.Blocked? && !c.waiter.Sending? {
      if c.exit.None? {
        assert StepChild(s, ChildExits(g, true)).value.children[g] == c.(exit := Some(true));
      } else if c.waiter.InWait? {
        assert StepWaiter(s, g).value.children[g] == c.(waiter := WantStore);
      } else {
        assert StepWaiter(s, g).value.children[g] == c.(waiter := Sending);
      }
    }
  }

  /** The generation has come nearer to a channel. */
  predicate Closer(before: Child, after: Child) {
    MayServe(after) && after.scanned <= |after.wrote| && Distance(after) < Distance(before)
  }

  lemma {:induction false} WayOut(s: State, g: nat, id: nat) returns (more: seq<Action>)
    requires id in s.calls && s.calls[id].pc.Selecting?
    requires g < |s.children| && s.children[g].scanned <= |s.children[g].wrote|
    requires s.outputs != [] || s.errors != [] || MayServe(s.children[g])
    ensures WithoutContext(more, id) && Leaves(s, more, id)
    decreases s.outputs == [] && s.errors == [], Distance(s.children[g])
  {
    if s.outputs != [] || s.errors != [] {
      more := TakeWhatIsThere(s, id);
    } else {
      var a := NextStep(g, s.children[g]);
      OneStepCloser(s, g);
      var rest := WayOut(Step(s, a).value, g, id);
      more := [a] + rest;
      ExecOne(s, a, rest);
      hide *;
      WithoutContextOne(a, rest, id);
      LeavesLater(s, a, rest, id);
    }
  }

  lemma TakeWhatIsThere(s: State, id: nat) returns (more: seq<Action>)
    requires id in s.calls && s.calls[id].pc.Selecting? && (s.outputs != [] || s.errors != [])
    ensures WithoutContext(more, id) && Leaves(s, more, id)
  {
    more := [CallerStep(id, if s.outputs != [] then TakeOutput else TakeError)];
    ExecOnly(s, more[0]);
  }

  lemma WithoutContextOne(a: Action, rest: seq<Action>, id: nat)
    requires WithoutContext(rest, id) && a != CallerStep(id, TakeContext)
    ensures WithoutContext([a] + rest, id)
  {
  }

  lemma LeavesLater(s: State, a: Action, rest: seq<Action>, id: nat)
    requires Step(s, a).Some? && Leaves(Step(s, a).value, rest, id)
    requires Exec(s, [a] + rest) == Exec(Step(s, a).value, rest)
    ensures Leaves(s, [a] + rest, id)
  {
  }

  /**
   Main result: a call that waits in a serial run can get out of the select without its context
   if and only if there is a line or an error, or some generation can still bring one.
   */
  lemma {:induction false} CompletesIff(acts: seq<Action>, id: nat)
    requires Serial(acts) && Run(acts).Some?
    requires id in Run(acts).value.calls && Run(acts).value.calls[id].pc.Selecting?
    ensures (exists more :: WithoutContext(more, id) && Leaves(Run(acts).value, more, id))
            <==> CanBeServed(Run(acts).value)
  {
    var s := Run(acts).value;
    SerialReachable(acts);
    ReachableInv(acts);
    hide Run, Serial, SerialInv, Leaves, WithoutContext;
    if CanBeServed(s) {
      var g := Server(s, id);
      AccountsOf(s, g);
      var more := WayOut(s, g, id);
    } else {
      forall more | WithoutContext(more, id)
        ensures !Leaves(s, more, id)
      {
        StuckForever(s, more, id);
      }
    }
  }

  /** A waiting call has written to a generation; it will do if the channels hold something. */
  lemma Server(s: State, id: nat) returns (g: nat)
    requires CanBeServed(s) && SerialInv(s) && id in s.calls && s.calls[id].pc.Selecting?
    ensures g < |s.children| && (s.outputs != [] || s.errors != [] || MayServe(s.children[g]))
  {
    assert Active(s, id) && Linked(s);
    if s.outputs != [] || s.errors != [] {
      g := s.cmd.value;
    } else {
      g :| 0 <= g < |s.children| && MayServe(s.children[g]);
    }
  }

  /** The child exits without an error before it has answered. */
  const QUIET_EXIT := [ChildExits(0, false)]

  /** Not always an end: the first call waits, and without its context it will wait for good. */
  lemma QuietExitHangs()
    ensures Serial(ColdStart(0, "a") + QUIET_EXIT) && Run(ColdStart(0, "a") + QUIET_EXIT).Some?
    ensures var s := Run(ColdStart(0, "a") + QUIET_EXIT).value;
            && 0 in s.calls && s.calls[0].pc.Selecting? && !CanBeServed(s)
            && forall more :: WithoutContext(more, 0) ==> !Leaves(s, more, 0)
  {
    var s := Waiting(INIT, 0, "a");
    ColdStartRuns(INIT, 0, "a");
    ExecOnly(s, QUIET_EXIT[0]);
    hide Exec, Run, Serial, ColdStart, Leaves, WithoutContext, Waiting;
    ThenRuns(ColdStart(0, "a"), s, QUIET_EXIT);
    WaitingThenExit();
    CompletesIff(ColdStart(0, "a") + QUIET_EXIT, 0);
  }

  lemma WaitingThenExit()
    ensures var next := Step(Waiting(INIT, 0, "a"), QUIET_EXIT[0]);
            next.Some? && 0 in next.value.calls && next.value.calls[0].pc.Selecting? && !CanBeServed(next.value)
  {
  }
}
