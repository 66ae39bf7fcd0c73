/**
 A pool whose members are long-running commands. The pool's exclusivity is what the service
 relies on: every member sees its Invokes one after the other, so everything proved for serial
 callers holds for every member, under any number of concurrent callers of the pool.
 */
module PooledService {
  import opened Values
  import Pool = PoolMachine
  import Service = ServiceSupervisor
  import ServiceSerial
  import ServiceReplies
  import ServiceChildren

  /** `runs` records the steps each member has taken. */
  datatype State = State(pool: Pool.State, members: seq<Service.State>, runs: seq<seq<Service.Action>>)

  /**
   A caller takes a fn, times out or hands the fn back; in between it invokes the fn it holds.
   Children, scanners and waiters of the members move on their own.
   */
  datatype Action =
    | OfPool(p: Pool.Action)
    | Invoke(caller: nat, input: string)
    | Proceed(caller: nat, choice: Service.Choice)
    | Background(member: nat, a: Service.Action)

  function Init(n: nat): State {
    State(Pool.Init(n), seq(n, _ => Service.INIT), seq(n, _ => []))
  }

  function Step(s: State, a: Action): Option<State> {
    match a
    case OfPool(p) =>
      if p.PutBack? && !HasReturned(s, p.caller) then None else
      if p.Take? && Known(s, p.caller) then None else
      var pool := Pool.Step(s.pool, p);
      if pool.None? then None else Some(s.(pool := pool.value))
    case Invoke(t, input) =>
      if t !in s.pool.held then None else StepMember(s, s.pool.held[t], Service.Begin(t, input))
    case Proceed(t, choice) =>
      if t !in s.pool.held then None else StepMember(s, s.pool.held[t], Service.CallerStep(t, choice))
    case Background(m, b) =>
      if b.Begin? || b.CallerStep? then None else StepMember(s, m, b)
  }

  /** The Invoke of the fn a caller holds has returned. */
  predicate HasReturned(s: State, t: nat) {
    t in s.pool.held && s.pool.held[t] < |s.members|
    && t in s.members[s.pool.held[t]].calls && s.members[s.pool.held[t]].calls[t].pc.Done?
  }

  /** Callers are numbered by Invoke of the pool: a number that was used is not used again. */
  predicate Known(s: State, t: nat) {
    exists m :: 0 <= m < |s.members| && t in s.members[m].calls
  }

  function StepMember(s: State, m: nat, a: Service.Action): Option<State> {
    if m >= |s.members| || m >= |s.runs| then None else
    var next := Service.Step(s.members[m], a);
    if next.None? then None
    else Some(s.(members := s.members[m := next.value], runs := s.runs[m := s.runs[m] + [a]]))
  }

  function Run(n: nat, acts: seq<Action>): Option<State> {
    if acts == [] then Some(Init(n)) else
      var before := Run(n, acts[..|acts| - 1]);
      if before == None then None else Step(before.value, acts[|acts| - 1])
  }

  // ---- rely and guarantee --------------------------------------------------------

  /** A member runs serially, and a caller in the middle of an Invoke of it holds it. */
  ghost predicate MemberInv(s: State, m: nat)
    requires m < |s.members| && m < |s.runs|
  {
    && Service.Run(s.runs[m]) == Some(s.members[m])
    && Service.Serial(s.runs[m])
    && forall t :: ServiceSerial.Active(s.members[m], t) ==> t in s.pool.held && s.pool.held[t] == m
  }

  ghost predicate Inv(s: State) {
    && Pool.Inv(s.pool)
    && |s.members| == |s.runs| == s.pool.capacity
    && forall m :: 0 <= m < |s.members| ==> MemberInv(s, m)
  }

  /** The pool guarantees what the service relies on: whoever holds a member is alone with it. */
  lemma HolderIsAlone(s: State, t: nat)
    requires Inv(s) && t in s.pool.held && t !in s.members[s.pool.held[t]].calls
    ensures Service.AllDone(s.members[s.pool.held[t]])
  {
    var m := s.pool.held[t];
    var member := s.members[m];
    assert MemberInv(s, m);
    forall u | ServiceSerial.Active(member, u)
      ensures u == t
    {
      assert s.pool.held[u] == s.pool.held[t];
    }
    assert forall u :: u in member.calls && u != t ==> ServiceSerial.Active(member, u) || member.calls[u].pc.Done?;
  }

  lemma MemberStepKeepsInv(s: State, m: nat, a: Service.Action)
    requires Inv(s) && StepMember(s, m, a).Some?
    requires a.Begin? ==> a.id in s.pool.held && s.pool.held[a.id] == m && Service.AllDone(s.members[m])
    ensures Inv(StepMember(s, m, a).value)
  {
    var s' := StepMember(s, m, a).value;
    assert MemberInv(s, m);
    ServiceSerial.RunExtends(s.runs[m], a);
    ServiceSerial.SerialReachable(s.runs[m]);
    ActiveAfterStep(s.members[m], a);
    hide Service.Run, Service.Serial, Service.Step;
    forall k | 0 <= k < |s'.members|
      ensures MemberInv(s', k)
    {
      assert MemberInv(s, k);
    }
  }

  /** Only a Begin makes a new call active. */
  lemma ActiveAfterStep(s: Service.State, a: Service.Action)
    requires ServiceSerial.SerialInv(s) && Service.Step(s, a).Some?
    ensures forall t :: ServiceSerial.Active(Service.Step(s, a).value, t) ==>
                        ServiceSerial.Active(s, t) || (a.Begin? && a.id == t)
  {
    match a
    case Begin(_, _) =>
    case CallerStep(id, choice) =>
      ServiceSerial.StepNeedsActive(s, id, choice);
      hide ServiceSerial.SerialInv, Service.StepStart, Service.StepInvoke, Service.StepKill;
      if Service.InStart(s.calls[id].pc) {
        ServiceSerial.StartAdvances(s, id, choice);
      } else if Service.InKill(s.calls[id].pc) {
        ServiceSerial.KillAdvances(s, id, choice);
      } else {
        ServiceSerial.InvokeAdvances(s, id, choice);
      }
    case _ =>
  }

  lemma PoolStepKeepsInv(s: State, p: Pool.Action)
    requires Inv(s) && Step(s, OfPool(p)).Some?
    ensures Inv(Step(s, OfPool(p)).value)
  {
    var s' := Step(s, OfPool(p)).value;
    Pool.StepKeepsInv(s.pool, p);
    hide Pool.Inv, Service.Run, Service.Serial;
    forall m | 0 <= m < |s'.members|
      ensures MemberInv(s', m)
    {
      assert MemberInv(s, m);
    }
  }

  lemma {:induction false} ReachableInv(n: nat, acts: seq<Action>)
    requires Run(n, acts).Some?
    ensures Inv(Run(n, acts).value) && Run(n, acts).value.pool.capacity == n
  {
    if acts == [] {
      Pool.ReachableInv(n, []);
      assert forall m :: 0 <= m < n ==> MemberInv(Init(n), m);
    } else {
      var front, a := acts[..|acts| - 1], acts[|acts| - 1];
      ReachableInv(n, front);
      var s := Run(n, front).value;
      hide Inv;
      match a
      case OfPool(p) => PoolStepKeepsInv(s, p);
      case Invoke(t, input) => InvokeKeepsInv(s, t, input);
      case Proceed(t, choice) => MemberStepKeepsInv(s, s.pool.held[t], Service.CallerStep(t, choice));
      case Background(m, b) => MemberStepKeepsInv(s, m, b);
    }
  }

  lemma InvokeKeepsInv(s: State, t: nat, input: string)
    requires Inv(s) && Step(s, Invoke(t, input)).Some?
    ensures Inv(Step(s, Invoke(t, input)).value)
  {
    HolderIsAlone(s, t);
    MemberStepKeepsInv(s, s.pool.held[t], Service.Begin(t, input));
  }

  /**
   Main result: under any concurrent use of the pool, no two Invokes of one member overlap, and
   the history of each member is a serial run of the service.
   */
  lemma {:induction false} MembersRunSerially(n: nat, acts: seq<Action>, m: nat)
    requires Run(n, acts).Some? && m < n
    ensures var s := Run(n, acts).value;
            && |s.members| == |s.runs| == n
            && Service.Run(s.runs[m]) == Some(s.members[m]) && Service.Serial(s.runs[m])
            && (forall t, u ::
                  ServiceSerial.Active(s.members[m], t) && ServiceSerial.Active(s.members[m], u) ==> t == u)
  {
    ReachableInv(n, acts);
    var s := Run(n, acts).value;
    assert MemberInv(s, m);
    ServiceSerial.SerialReachable(s.runs[m]);
  }

  /**
   Nothing else stands in the way: a new caller can take a member exactly if one is idle, the holder
   of a member can invoke it once and proceed whenever the member can, and can hand it back exactly
   when the Invoke has returned.
   */
  lemma {:induction false} HolderCan(n: nat, acts: seq<Action>, t: nat, input: string, choice: Service.Choice)
    requires Run(n, acts).Some?
    ensures var s := Run(n, acts).value;
            && (t !in s.pool.held ==>
                  (Step(s, OfPool(Pool.Take(t))).Some? <==> |s.pool.held| < n && !Known(s, t)))
            && (t in s.pool.held ==>
                  && s.pool.held[t] < |s.members|
                  && var m := s.pool.held[t];
                  && var member := s.members[m];
                  && (Step(s, Invoke(t, input)).Some? <==> t !in member.calls)
                  && (Step(s, Proceed(t, choice)).Some? <==> Service.Step(member, Service.CallerStep(t, choice)).Some?)
                  && (Step(s, OfPool(Pool.PutBack(t))).Some? <==> t in member.calls && member.calls[t].pc.Done?))
  {
    ReachableInv(n, acts);
    hide Run, MemberInv, Service.StepStart, Service.StepInvoke, Service.StepKill;
    var s := Run(n, acts).value;
    if t in s.pool.held {
      assert |s.pool.held.Keys| > 0;
    }
  }

  /** What follows for the members: replies match inputs unless a line of a given-up generation was taken. */
  lemma {:induction false} PooledRepliesMatch(n: nat, acts: seq<Action>, m: nat, answer: ServiceReplies.Answerer)
    requires Run(n, acts).Some? && m < n && m < |Run(n, acts).value.members| && m < |Run(n, acts).value.runs|
    requires ServiceReplies.Polite(answer, Run(n, acts).value.runs[m])
    ensures var member, history := Run(n, acts).value.members[m], Run(n, acts).value.runs[m];
            && ((forall t :: t in member.calls && ServiceReplies.HasReply(member.calls[t]) ==>
                   ServiceReplies.RightReply(answer, member, member.calls[t]))
                <==> ServiceReplies.NoStaleTaken(history))
            && (!Service.AnyKill(history) ==> ServiceReplies.NoStaleTaken(history))
  {
    MembersRunSerially(n, acts, m);
    ServiceReplies.RepliesMatchIff(answer, Run(n, acts).value.runs[m]);
    if !Service.AnyKill(Run(n, acts).value.runs[m]) {
      ServiceReplies.NoKillNoStale(Run(n, acts).value.runs[m]);
    }
  }

  /** And each member has at most one unreaped child until a first kill. */
  lemma {:induction false} PooledOneChild(n: nat, acts: seq<Action>, m: nat, g: nat, h: nat)
    requires Run(n, acts).Some? && m < n && m < |Run(n, acts).value.members| && m < |Run(n, acts).value.runs|
    requires var member := Run(n, acts).value.members[m];
             && g < |member.children| && ServiceChildren.Pending(member.children[g].waiter)
             && h < |member.children| && ServiceChildren.Pending(member.children[h].waiter)
    ensures g == h || Service.AnyKill(Run(n, acts).value.runs[m])
  {
    MembersRunSerially(n, acts, m);
    ServiceChildren.NoKillOneChild(Run(n, acts).value.runs[m], g, h);
  }
}
