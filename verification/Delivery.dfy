/**
 What acknowledging means for every source: a message is acknowledged only if the delivery that
 acknowledges it called the business fn exactly once and that call returned a nil error.
 A source logs a Receive when it gets a message and a Settle when it reports back.
 */
module Delivery {
  import opened Values
  import opened World
  import opened Components
  import opened Accounting
  import Inputs

  predicate IsAckEvent(e: Event) {
    e.query.Settle? && IsAck(e.query.how)
  }

  /** The delivery that started at `s` justifies the acknowledgement at `p`. */
  predicate Justifies(t: Trace, s: nat, p: nat)
    requires s < p < |t| && t[p].query.Settle?
  {
    && t[s].query == Receive(t[p].query.id)
    && (forall k :: s < k < p ==> !t[k].query.Receive? && !t[k].query.Settle?)
    && |BaseCalls(t[s..p])| == 1 && BaseCalls(t[s..p])[0].answer.err.None?
  }

  /** Every acknowledgement in the trace has a delivery of its own that justifies it. */
  ghost predicate Justified(t: Trace) {
    forall p {:trigger t[p]} :: 0 <= p < |t| && IsAckEvent(t[p]) ==> exists s :: 0 <= s < p && Justifies(t, s, p)
  }

  /** One delivery: the message is received and the fn invoked. */
  function Deliver(o: Oracle, w: Trace, ctx: Ctx, f: Fn, id: nat, input: Value): Reply {
    InvokeFn(o, w + [Event(Receive(id), NO_ANSWER)], ctx, f, input)
  }

  /** The fn is called with the input delivered: with what a stack of layers makes of it, if there is one. */
  lemma DeliverMakes(o: Oracle, w: Trace, ctx: Ctx, f: Fn, id: nat, input: Value)
    ensures Inputs.Makes(w, Deliver(o, w, ctx, f, id, input).world,
                         Inputs.Given(o, w + [Event(Receive(id), NO_ANSWER)], ctx, f, input))
  {
    hide InvokeFn, Inputs.Given, BaseCalls;
    Recorded(w, Event(Receive(id), NO_ANSWER));
    Inputs.FnMakes(o, w + [Event(Receive(id), NO_ANSWER)], ctx, f, input);
  }

  /** A business fn without layers is asked with the input itself, and its answer is the outcome. */
  lemma DeliverToBase(o: Oracle, w: Trace, ctx: Ctx, b: nat, id: nat, input: Value)
    ensures var r := Deliver(o, w, ctx, Base(b), id, input);
            && w <= r.world && |r.world| == |w| + 2
            && Asked(w, r.world) == [Receive(id), CallBase(b, ctx, input)]
            && r.out == Outcome(AnswerAt(r.world, |w| + 1).value, AnswerAt(r.world, |w| + 1).err)
  {
    var w1 := w + [Event(Receive(id), NO_ANSWER)];
    AskedNothing(w);
    AskedMore(w, w, Event(Receive(id), NO_ANSWER));
    AskedMore(w, w1, Event(CallBase(b, ctx, input), o(w1, CallBase(b, ctx, input))));
  }

  /** A report after a delivery is the next thing asked, and leaves what was answered before. */
  lemma ReportAsks(o: Oracle, w: Trace, w1: Trace, id: nat, how: Settlement)
    requires w <= w1
    ensures var w2 := Report(o, w1, id, how);
            && w <= w1 <= w2 && |w2| == |w1| + 1 && Asked(w, w2) == Asked(w, w1) + [Settle(id, how)]
            && (forall i :: 0 <= i < |w1| ==> AnswerAt(w2, i) == AnswerAt(w1, i))
            && Inputs.Calls(w2) == Inputs.Calls(w1)
  {
    var e := Event(Settle(id, how), o(w1, Settle(id, how)));
    AskedMore(w, w1, e);
    Recorded(w1, e);
  }

  lemma LongerKeepsJustified(t: Trace, t': Trace)
    requires Justified(t) && t <= t' && forall k :: |t| <= k < |t'| ==> !IsAckEvent(t'[k])
    ensures Justified(t')
  {
    forall p | 0 <= p < |t'| && IsAckEvent(t'[p])
      ensures exists s :: 0 <= s < p && Justifies(t', s, p)
    {
      assert t'[p] == t[p];
      var s :| 0 <= s < p && Justifies(t, s, p);
      assert t'[s..p] == t[s..p];
      assert forall k :: s < k < p ==> t'[k] == t[k];
      assert Justifies(t', s, p);
    }
  }

  /** What the trace looks like after a delivery, whatever the fn is built from. */
  lemma DeliverAccounts(o: Oracle, w: Trace, ctx: Ctx, f: Fn, id: nat, input: Value)
    ensures var r := Deliver(o, w, ctx, f, id, input);
            && w + [Event(Receive(id), NO_ANSWER)] <= r.world
            && Receives(r.world) == Receives(w) + [id]
            && Reported(r.world) == Reported(w)
            && (forall how :: Settled(r.world, how) == Settled(w, how))
            && (Justified(w) ==> Justified(r.world))
  {
    var w1 := w + [Event(Receive(id), NO_ANSWER)];
    var r := Deliver(o, w, ctx, f, id, input);
    FnAccounted(o, w1, ctx, f, input);
    Recorded(w, Event(Receive(id), NO_ANSWER));
    SilentKeepsLists(w1, r.world);
    if Justified(w) {
      LongerKeepsJustified(w, r.world);
    }
  }

  lemma {:induction false} SilentKeepsLists(w: Trace, w': Trace)
    requires w <= w' && forall k :: |w| <= k < |w'| ==> !w'[k].query.Receive? && !w'[k].query.Settle?
    ensures Receives(w') == Receives(w) && Reported(w') == Reported(w)
    ensures forall how :: Settled(w', how) == Settled(w, how)
    decreases |w'|
  {
    if w != w' {
      var front := w'[..|w'| - 1];
      assert w' == front + [w'[|w'| - 1]];
      SilentKeepsLists(w, front);
      Recorded(front, w'[|w'| - 1]);
    } else {
      assert w == w';
    }
  }

  lemma OneMoreJustified(t: Trace, e: Event, s: nat)
    requires Justified(t)
    requires IsAckEvent(e) ==> s < |t| && Justifies(t + [e], s, |t|)
    ensures Justified(t + [e])
  {
    var t' := t + [e];
    forall p | 0 <= p < |t'| && IsAckEvent(t'[p])
      ensures exists s :: 0 <= s < p && Justifies(t', s, p)
    {
      if p < |t| {
        assert t'[p] == t[p];
        var s0 :| 0 <= s0 < p && Justifies(t, s0, p);
        assert t'[s0..p] == t[s0..p];
        assert forall k :: s0 < k < p ==> t'[k] == t[k];
        assert Justifies(t', s0, p);
      }
    }
  }

  lemma NothingIsQuiet(w: Trace)
    ensures Quiet(w, w)
  {
  }

  /**
   Reporting after a delivery is justified, bookkeeping in between notwithstanding: an
   acknowledgement needs success, a refusal needs nothing.
   */
  lemma ReportIsJustified(
    o: Oracle, w: Trace, ctx: Ctx, f: Fn, id: nat, input: Value, w2: Trace, how: Settlement)
    requires Justified(w) && Quiet(Deliver(o, w, ctx, f, id, input).world, w2)
    requires Deliver(o, w, ctx, f, id, input).out.err.None? || !IsAck(how)
    ensures Justified(Report(o, w2, id, how))
  {
    var r := Deliver(o, w, ctx, f, id, input);
    var e := Event(Settle(id, how), o(w2, Settle(id, how)));
    DeliverAccounts(o, w, ctx, f, id, input);
    LongerKeepsJustified(r.world, w2);
    if r.out.err.None? {
      DeliveryIsOneCall(o, w, ctx, f, id, input, w2);
      var t := w2 + [e];
      assert t[|w|..|w2|] == w2[|w|..];
      assert t[|w|] == Event(Receive(id), NO_ANSWER);
      assert Justifies(t, |w|, |w2|);
    }
    OneMoreJustified(w2, e, |w|);
  }

  lemma DeliveryIsOneCall(o: Oracle, w: Trace, ctx: Ctx, f: Fn, id: nat, input: Value, w2: Trace)
    requires Deliver(o, w, ctx, f, id, input).out.err.None? && Quiet(Deliver(o, w, ctx, f, id, input).world, w2)
    ensures |w| < |w2| && w + [Event(Receive(id), NO_ANSWER)] <= w2
    ensures forall k :: |w| < k < |w2| ==> !w2[k].query.Receive? && !w2[k].query.Settle?
    ensures |BaseCalls(w2[|w|..])| == 1 && BaseCalls(w2[|w|..])[0].answer.err.None?
  {
    var e := Event(Receive(id), NO_ANSWER);
    FnAccounted(o, w + [e], ctx, f, input);
    QuietAfterAccounted(w + [e], Deliver(o, w, ctx, f, id, input), w2);
    Recorded(w, e);
    assert w2 == w + w2[|w|..];
    BaseCallsAppend(w, w2[|w|..]);
  }

  lemma QuietAfterAccounted(w: Trace, r: Reply, w2: Trace)
    requires Accounted(w, r) && Quiet(r.world, w2)
    ensures Accounted(w, r.(world := w2))
  {
    AccountedThenQuiet(w, r, r.(world := w2));
  }

  /** The trace after a settlement has been attempted. */
  function Report(o: Oracle, w: Trace, id: nat, how: Settlement): Trace {
    Ask(o, w, Settle(id, how))
  }

  lemma ReportAccounts(o: Oracle, w: Trace, id: nat, how: Settlement)
    ensures Receives(Report(o, w, id, how)) == Receives(w) && Reported(Report(o, w, id, how)) == Reported(w) + [id]
    ensures forall h :: Settled(Report(o, w, id, how), h) == Settled(w, h) + (if h == how then [id] else [])
  {
    Recorded(w, Event(Settle(id, how), o(w, Settle(id, how))));
  }
}
