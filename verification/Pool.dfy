/** The pool object of run/fn/pool: filling the channel, and one Invoke at a time. */
module PoolObject {
  import opened Values
  import opened World
  import opened Components
  import opened Config
  import opened Loading
  import Machine = PoolMachine

  /** Fns by their numbers. */
  function Named(fns: seq<Fn>, numbers: seq<nat>): seq<Fn>
    requires forall i :: 0 <= i < |numbers| ==> numbers[i] < |fns|
  {
    seq(|numbers|, i requires 0 <= i < |numbers| => fns[numbers[i]])
  }

  lemma NamedRest(fns: seq<Fn>, numbers: seq<nat>)
    requires numbers != [] && forall i :: 0 <= i < |numbers| ==> numbers[i] < |fns|
    ensures Named(fns, numbers)[0] == fns[numbers[0]] && Named(fns, numbers)[1..] == Named(fns, numbers[1..])
  {
  }

  lemma NamedMore(fns: seq<Fn>, numbers: seq<nat>, n: nat)
    requires n < |fns| && forall i :: 0 <= i < |numbers| ==> numbers[i] < |fns|
    ensures Named(fns, numbers + [n]) == Named(fns, numbers) + [fns[n]]
  {
  }

  lemma InRange(s: Machine.State)
    requires Machine.Inv(s)
    ensures forall i :: 0 <= i < |s.idle| ==> s.idle[i] < s.capacity
    ensures forall t :: t in s.held ==> s.held[t] < s.capacity
    ensures |s.idle| <= s.capacity
  {
  }

  lemma RoomForHeld(s: Machine.State, t: nat)
    requires Machine.Inv(s) && t in s.held
    ensures |s.idle| < s.capacity
  {
    assert |s.held.Keys| > 0;
  }

  class PoolFn {
    const registry: Registry
    const lib: Library
    const pool: nat
    var capacity: nat          // of fnChan
    var fnChan: seq<Fn>

    constructor (registry: Registry, lib: Library, pool: nat)
      ensures this.registry == registry && this.lib == lib && this.pool == pool
      ensures capacity == 0 && fnChan == []
    {
      this.registry, this.lib, this.pool := registry, lib, pool;
      capacity, fnChan := 0, [];
    }

    /** The channel is made and filled; the first fn that cannot be created ends the loop. */
    method ConfigureMap(configMap: map<string, Value>) returns (err: Option<Err>)
      modifies this
      ensures |fnChan| <= capacity || fnChan == old(fnChan)
      ensures match ConfigureFn(registry, lib, PoolFactory(pool), Map(configMap))
              case Ok(f) => err == None && f == Pool(pool, fnChan) && |fnChan| == capacity > 0
              case Fail(e) => err == Some(e)
    {
      var decoded := DecodePool(lib, configMap);
      if decoded.Fail? {
        return Some(decoded.err);
      }
      var concurrency, template := decoded.value.concurrency, decoded.value.template;

      capacity, fnChan := concurrency, [];
      var i := 0;
      while i < concurrency
        invariant 0 <= i == |fnChan| <= concurrency == capacity
        invariant i > 0 ==> CreateFromTemplate(registry, lib, template).Ok?
        invariant forall j :: 0 <= j < i ==> fnChan[j] == CreateFromTemplate(registry, lib, template).value
      {
        var f := CreateFromTemplate(registry, lib, template);
        if f.Fail? {
          return Some(f.err);
        }
        fnChan := fnChan + [f.value];
        i := i + 1;
      }
      assert fnChan == seq(concurrency, _ => CreateFromTemplate(registry, lib, template).value);
      return None;
    }

    /** The channel holds the idle fns of the machine, `fns` being those it was filled with. */
    ghost predicate Shows(fns: seq<Fn>, s: Machine.State)
      reads this
    {
      Machine.Inv(s) && capacity == s.capacity == |fns| && fnChan == Named(fns, s.idle)
    }

    /** A full channel is the machine's first state. */
    lemma FullShowsInit()
      requires |fnChan| == capacity
      ensures Shows(fnChan, Machine.Init(capacity))
    {
      assert Machine.Run(capacity, []) == Some(Machine.Init(capacity));
      Machine.ReachableInv(capacity, []);
      assert Named(fnChan, Machine.Configured(capacity)) == fnChan;
    }

    /** The first half of any Invoke, `t`, whatever others are in progress: receive a fn or time out. */
    method Acquire(expired: bool, ghost fns: seq<Fn>, ghost s: Machine.State, ghost t: nat)
      returns (f: Option<Fn>, ghost s': Machine.State)
      requires Shows(fns, s) && t !in s.held
      modifies this`fnChan
      ensures Shows(fns, s')
      ensures if expired || old(fnChan) == []
              then f == None && s' == s && Machine.Step(s, Machine.TimeOut(t)) == Some(s')
              else Machine.Step(s, Machine.Take(t)) == Some(s') && t in s'.held && f == Some(fns[s'.held[t]])
    {
      if expired || fnChan == [] {
        return None, s;
      }
      s' := Machine.Step(s, Machine.Take(t)).value;
      Machine.TakeKeepsInv(s, t);
      InRange(s);
      InRange(s');
      NamedRest(fns, s.idle);
      hide Machine.Inv, Named;
      f := Some(fnChan[0]);
      fnChan := fnChan[1..];
    }

    /** The second half: there is always room for the fn that was used, so the send does not block. */
    method HandBack(f: Fn, ghost fns: seq<Fn>, ghost s: Machine.State, ghost t: nat) returns (ghost s': Machine.State)
      requires Shows(fns, s) && t in s.held && f == fns[s.held[t]]
      modifies this`fnChan
      ensures old(|fnChan|) < capacity
      ensures Shows(fns, s') && Machine.Step(s, Machine.PutBack(t)) == Some(s')
    {
      Machine.PutBackKeepsInv(s, t);
      RoomForHeld(s, t);
      s' := Machine.Step(s, Machine.PutBack(t)).value;
      InRange(s);
      InRange(s');
      NamedMore(fns, s.idle, s.held[t]);
      hide Machine.Inv, Named;
      fnChan := fnChan + [f];
    }

    /**
     One Invoke with no other in progress. `expired` says that the wait ran out before a fn was
     received; with an empty channel nothing else can happen. Afterwards the channel is as full
     as before, and the fn that was used is last in line.
     */
    method Invoke(o: Oracle, w: Trace, ctx: Ctx, input: Value, expired: bool) returns (r: Reply)
      requires fnChan != [] ==> |fnChan| <= capacity
      modifies this`fnChan
      ensures if expired || old(fnChan) == []
              then r == Failure(PoolTimeout, w) && fnChan == old(fnChan)
              else r == InvokeFn(o, w, ctx, old(fnChan)[0], input) && fnChan == old(fnChan)[1..] + [old(fnChan)[0]]
    {
      if expired || fnChan == [] {
        return Failure(PoolTimeout, w);
      }
      var f := fnChan[0];
      fnChan := fnChan[1..];
      r := InvokeFn(o, w, ctx, f, input);
      fnChan := fnChan + [f];
    }
  }
}

/**
 Any number of concurrent Invokes of a pool: each takes a fn from the channel or times out,
 uses the fn, and hands it back. Fns are numbered by their place in the filled channel.
 */
module PoolMachine {
  import opened Values

  /** `taken` records every fn handed out, in order. */
  datatype State = State(capacity: nat, idle: seq<nat>, held: map<nat, nat>, taken: seq<nat>)

  datatype Action = Take(caller: nat) | TimeOut(caller: nat) | PutBack(caller: nat)

  /** The numbers of the configured fns. */
  function Configured(n: nat): seq<nat> {
    seq(n, i => i)
  }

  function Init(n: nat): State {
    State(n, Configured(n), map[], [])
  }

  function Step(s: State, a: Action): Option<State> {
    match a
    case Take(t) =>
      if t in s.held || s.idle == [] then None
      else Some(s.(idle := s.idle[1..], held := s.held[t := s.idle[0]], taken := s.taken + [s.idle[0]]))
    case TimeOut(t) => if t in s.held then None else Some(s)
    case PutBack(t) =>                                   // a send: blocks while the channel is full
      if t in s.held && |s.idle| < s.capacity then Some(s.(idle := s.idle + [s.held[t]], held := s.held - {t}))
      else None
  }

  function Run(n: nat, acts: seq<Action>): Option<State> {
    if acts == [] then Some(Init(n)) else
      var before := Run(n, acts[..|acts| - 1]);
      if before == None then None else Step(before.value, acts[|acts| - 1])
  }

  /** Every fn is in one place: once in the channel, or with one caller. */
  ghost predicate Inv(s: State) {
    && |s.idle| + |s.held| == s.capacity
    && (forall i :: 0 <= i < |s.idle| ==> s.idle[i] < s.capacity)
    && (forall t :: t in s.held ==> s.held[t] < s.capacity && s.held[t] !in s.idle)
    && (forall i, j :: 0 <= i < j < |s.idle| ==> s.idle[i] != s.idle[j])
    && (forall t, u :: t in s.held && u in s.held && s.held[t] == s.held[u] ==> t == u)
    && multiset(s.idle) + multiset(s.held.Values) == multiset(Configured(s.capacity))
  }

  lemma ValuesGrow(m: map<nat, nat>, t: nat, v: nat)
    requires t !in m && v !in m.Values
    ensures |m[t := v]| == |m| + 1
    ensures multiset(m[t := v].Values) == multiset(m.Values) + multiset{v}
  {
    var m' := m[t := v];
    assert m'.Keys == m.Keys + {t};
    assert |m'| == |m'.Keys| && |m| == |m.Keys|;
    ValuesOfUpdate(m, t, v);
  }

  lemma ValuesOfUpdate(m: map<nat, nat>, t: nat, v: nat)
    requires t !in m
    ensures m[t := v].Values == m.Values + {v}
  {
    var m' := m[t := v];
    assert t in m' && m'[t] == v;
    assert forall u :: u in m ==> u in m' && m'[u] == m[u];
    assert forall u :: u in m' && u != t ==> u in m;
  }

  lemma ValuesShrink(m: map<nat, nat>, t: nat)
    requires t in m && forall u :: u in m && m[u] == m[t] ==> u == t
    ensures |m - {t}| == |m| - 1
    ensures multiset(m.Values) == multiset((m - {t}).Values) + multiset{m[t]}
  {
    var m' := m - {t};
    assert m == m'[t := m[t]];
    ValuesGrow(m', t, m[t]);
  }

  lemma TakeKeepsInv(s: State, t: nat)
    requires Inv(s) && t !in s.held && s.idle != []
    ensures Inv(Step(s, Take(t)).value)
  {
    TakeKeepsHeld(s, t);
    ValuesGrow(s.held, t, s.idle[0]);
    TakeKeepsIdle(s.idle, s.capacity);
    OneMoves(s.idle, multiset(s.held.Values), multiset(s.held[t := s.idle[0]].Values));
  }

  lemma TakeKeepsIdle(idle: seq<nat>, capacity: nat)
    requires idle != [] && forall i :: 0 <= i < |idle| ==> idle[i] < capacity
    requires forall i, j :: 0 <= i < j < |idle| ==> idle[i] != idle[j]
    ensures forall i :: 0 <= i < |idle[1..]| ==> idle[1..][i] < capacity
    ensures forall i, j :: 0 <= i < j < |idle[1..]| ==> idle[1..][i] != idle[1..][j]
  {
  }

  /** A number that leaves the channel is with a caller. */
  lemma OneMoves(idle: seq<nat>, held: multiset<nat>, held': multiset<nat>)
    requires idle != [] && held' == held + multiset{idle[0]}
    ensures multiset(idle[1..]) + held' == multiset(idle) + held
  {
    assert idle == [idle[0]] + idle[1..];
  }

  lemma TakeKeepsHeld(s: State, t: nat)
    requires Inv(s) && t !in s.held && s.idle != []
    ensures var v, rest, held := s.idle[0], s.idle[1..], s.held[t := s.idle[0]];
            && v !in rest && v !in s.held.Values
            && (forall u :: u in held ==> held[u] < s.capacity && held[u] !in rest)
            && (forall u, u' :: u in held && u' in held && held[u] == held[u'] ==> u == u')
  {
    var rest, held := s.idle[1..], s.held[t := s.idle[0]];
    assert forall i :: 0 <= i < |rest| ==> rest[i] == s.idle[i + 1];
    assert forall u :: u in held ==> held[u] !in rest;
  }

  lemma PutBackKeepsInv(s: State, t: nat)
    requires Inv(s) && t in s.held
    ensures Inv(s.(idle := s.idle + [s.held[t]], held := s.held - {t}))
  {
    ValuesShrink(s.held, t);
    PutBackKeepsIdle(s.idle, s.held[t], s.capacity);
    PutBackKeepsHeld(s, t);
    var v, held := s.held[t], s.held - {t};
    assert multiset(s.idle + [v]) + multiset(held.Values) == multiset(s.idle) + (multiset(held.Values) + multiset{v});
  }

  lemma PutBackKeepsIdle(idle: seq<nat>, v: nat, capacity: nat)
    requires v !in idle && v < capacity
    requires forall i :: 0 <= i < |idle| ==> idle[i] < capacity
    requires forall i, j :: 0 <= i < j < |idle| ==> idle[i] != idle[j]
    ensures forall i :: 0 <= i < |idle + [v]| ==> (idle + [v])[i] < capacity
    ensures forall i, j :: 0 <= i < j < |idle + [v]| ==> (idle + [v])[i] != (idle + [v])[j]
  {
  }

  lemma PutBackKeepsHeld(s: State, t: nat)
    requires Inv(s) && t in s.held
    ensures var held := s.held - {t};
            && (forall u :: u in held ==> held[u] < s.capacity && held[u] !in s.idle + [s.held[t]])
            && (forall u, u' :: u in held && u' in held && held[u] == held[u'] ==> u == u')
  {
  }

  lemma StepKeepsInv(s: State, a: Action)
    requires Inv(s) && Step(s, a).Some?
    ensures Inv(Step(s, a).value) && Step(s, a).value.capacity == s.capacity
  {
    hide Inv;
    match a
    case Take(t) => TakeKeepsInv(s, t);
    case TimeOut(_) =>
    case PutBack(t) => PutBackKeepsInv(s, t);
  }

  lemma {:induction false} ReachableInv(n: nat, acts: seq<Action>)
    requires Run(n, acts).Some?
    ensures Inv(Run(n, acts).value) && Run(n, acts).value.capacity == n
  {
    if acts != [] {
      ReachableInv(n, acts[..|acts| - 1]);
      StepKeepsInv(Run(n, acts[..|acts| - 1]).value, acts[|acts| - 1]);
    } else {
      assert Init(n).held == map[];
    }
  }

  /** Main result: no fn is lost, duplicated or held twice, and a caller that holds a fn can always hand it back. */
  lemma {:induction false} PoolConserves(n: nat, acts: seq<Action>)
    requires Run(n, acts).Some?
    ensures var s := Run(n, acts).value;
            && |s.idle| + |s.held| == n
            && multiset(s.idle) + multiset(s.held.Values) == multiset(Configured(n))
            && (forall t, u :: t in s.held && u in s.held && t != u ==> s.held[t] != s.held[u])
            && (forall t :: t in s.held ==> Step(s, PutBack(t)).Some?)
  {
    ReachableInv(n, acts);
    var s := Run(n, acts).value;
    forall t | t in s.held
      ensures Step(s, PutBack(t)).Some?
    {
      assert |s.held.Keys| > 0;
    }
  }

  /** A caller without a fn can take one exactly if fewer than all are out, and can time out at any time. */
  lemma {:induction false} CanTakeIff(n: nat, acts: seq<Action>, t: nat)
    requires Run(n, acts).Some? && t !in Run(n, acts).value.held
    ensures var s := Run(n, acts).value;
            && (Step(s, Take(t)).Some? <==> |s.held| < n)
            && Step(s, TimeOut(t)) == Some(s)
  {
    ReachableInv(n, acts);
  }

  // ---- rotation ----------------------------------------------------------------------

  /** No two Invokes overlap: a fn is taken only when all are back. Timeouts may come at any time. */
  predicate NonOverlapping(n: nat, acts: seq<Action>) {
    acts != [] ==>
      var front := acts[..|acts| - 1];
      && NonOverlapping(n, front)
      && (acts[|acts| - 1].Take? && Run(n, front).Some? ==> Run(n, front).value.held == map[])
  }

  /** The channel, followed by the fn in use if there is one, continues the rotation. */
  ghost predicate Rotated(n: nat, s: State) {
    && |s.held| <= 1
    && (forall t :: t in s.held ==> s.taken != [] && s.held[t] == s.taken[|s.taken| - 1])
    && |s.idle| == n - |s.held|
    && (forall i :: 0 <= i < |s.idle| ==> s.idle[i] == (|s.taken| + i) % n)
    && (forall k :: 0 <= k < |s.taken| ==> n > 0 && s.taken[k] == k % n)
  }

  lemma {:induction false} NonOverlappingRotates(n: nat, acts: seq<Action>)
    requires NonOverlapping(n, acts) && Run(n, acts).Some?
    ensures Rotated(n, Run(n, acts).value)
  {
    if acts == [] {
      RotatedFromTheStart(n);
    } else {
      var front, a := acts[..|acts| - 1], acts[|acts| - 1];
      NonOverlappingRotates(n, front);
      ReachableInv(n, front);
      var s := Run(n, front).value;
      match a
      case Take(t) => TakeRotates(n, s, t);
      case TimeOut(_) =>
      case PutBack(t) => PutBackRotates(n, s, t);
    }
  }

  lemma RotatedFromTheStart(n: nat)
    ensures Rotated(n, Init(n))
  {
    forall i | 0 <= i < n
      ensures Configured(n)[i] == (0 + i) % n
    {
      QuotientUnique(i, n, 0, i);
    }
  }

  lemma TakeRotates(n: nat, s: State, t: nat)
    requires Rotated(n, s) && s.held == map[] && s.idle != []
    ensures Rotated(n, Step(s, Take(t)).value)
  {
    var s' := Step(s, Take(t)).value;
    assert s'.held == map[t := s.idle[0]];
    forall i | 0 <= i < |s'.idle|
      ensures s'.idle[i] == (|s'.taken| + i) % n
    {
      assert s'.idle[i] == s.idle[i + 1];
    }
  }

  lemma PutBackRotates(n: nat, s: State, t: nat)
    requires Rotated(n, s) && t in s.held
    ensures Rotated(n, s.(idle := s.idle + [s.held[t]], held := s.held - {t}))
  {
    var last := |s.taken| - 1;
    assert |s.held.Keys - {t}| == 0;
    assert s.held - {t} == map[];
    OneRoundLater(last, n);
    assert s.held[t] == last % n == (|s.taken| + |s.idle|) % n;
  }

  /** Main result: Invokes that do not overlap use the fns in turn, timeouts not counting. */
  lemma KthInvokeUsesFnKModN(n: nat, acts: seq<Action>, k: nat)
    requires NonOverlapping(n, acts) && Run(n, acts).Some? && k < |Run(n, acts).value.taken|
    ensures n > 0 && Run(n, acts).value.taken[k] == k % n
  {
    NonOverlappingRotates(n, acts);
  }

  // ---- remainders ---------------------------------------------------------------------

  lemma OneRoundLater(k: nat, n: nat)
    requires n > 0
    ensures k % n == (k + n) % n
  {
    var q := k / n;
    assert k + n == (q + 1) * n + k % n;
    QuotientUnique(k + n, n, q + 1, k % n);
  }

  lemma QuotientUnique(x: nat, n: nat, q: nat, r: nat)
    requires r < n && x == q * n + r
    ensures x % n == r
  {
    var d := x / n - q;
    assert d * n == r - x % n;
    MultipleIsFar(d, n);
  }

  lemma {:induction false} MultipleIsFar(d: int, n: nat)
    requires n > 0
    ensures d > 0 ==> d * n >= n
    ensures d < 0 ==> d * n + n <= 0
    decreases if d > 0 then d else -d
  {
    if d > 1 {
      MultipleIsFar(d - 1, n);
    } else if d < -1 {
      MultipleIsFar(d + 1, n);
    }
  }
}
