/**
 The two receive loops of run/source/azure/servicebus, seen one message at a time; the lock
 renewal that runs beside a queue handler is in LockRenewal.
 */
module ServiceBusSource {
  import opened Values
  import opened World
  import opened Components
  import opened Delivery
  import Inputs

  datatype Message = Message(id: nat, contentType: string, data: string)

  /** What `ReceiveOne` comes up with before a handler runs. */
  datatype Received = ReceiveFailed(err: Err) | Got(message: Message)

  datatype Served = StillServing | Stopped(err: Err)

  function InputOf(m: Message): Value {
    Map(map["ContentType" := Str(m.contentType), "Data" := Str(m.data)])
  }

  /** The settlement a handler owes a message: complete it if and only if its fn returned nil. */
  function Owed(o: Oracle, w: Trace, ctx: Ctx, f: Fn, m: Message): Settlement {
    if Deliver(o, w, ctx, f, m.id, InputOf(m)).out.err.None? then Complete else Abandon
  }

  /** The trace after one message: a delivery and the settlement owed, once. */
  function Handled(o: Oracle, w: Trace, ctx: Ctx, f: Fn, m: Message): Trace {
    Report(o, Deliver(o, w, ctx, f, m.id, InputOf(m)).world, m.id, Owed(o, w, ctx, f, m))
  }

  /** Whether the settlement failed. */
  function SettleError(o: Oracle, w: Trace, ctx: Ctx, f: Fn, m: Message): Option<Err> {
    o(Deliver(o, w, ctx, f, m.id, InputOf(m)).world, Settle(m.id, Owed(o, w, ctx, f, m))).err
  }

  lemma HandledAccounts(o: Oracle, w: Trace, ctx: Ctx, f: Fn, m: Message)
    ensures var w' := Handled(o, w, ctx, f, m);
            && Receives(w') == Receives(w) + [m.id] && Reported(w') == Reported(w) + [m.id]
            && (if Deliver(o, w, ctx, f, m.id, InputOf(m)).out.err.None?
                then Settled(w', Complete) == Settled(w, Complete) + [m.id]
                     && Settled(w', Abandon) == Settled(w, Abandon)
                else Settled(w', Abandon) == Settled(w, Abandon) + [m.id]
                     && Settled(w', Complete) == Settled(w, Complete))
            && (Justified(w) ==> Justified(w'))
  {
    hide Deliver, Report, Justified, Receives, Settled, Reported;
    var r := Deliver(o, w, ctx, f, m.id, InputOf(m));
    DeliverAccounts(o, w, ctx, f, m.id, InputOf(m));
    ReportAccounts(o, r.world, m.id, Owed(o, w, ctx, f, m));
    if Justified(w) {
      ReportIsJustified(o, w, ctx, f, m.id, InputOf(m), r.world, Owed(o, w, ctx, f, m));
    }
  }

  /** The call of a business fn without layers for a message. */
  function CallFor(b: nat, ctx: Ctx, m: Message): Query {
    CallBase(b, ctx, Map(map["ContentType" := Str(m.contentType), "Data" := Str(m.data)]))
  }

  /**
   What one message asks, written out, for a business fn without layers: it is called with the
   content type and the data, and the message is completed if it returned nil and abandoned if not.
   */
  lemma HandledAsks(o: Oracle, w: Trace, ctx: Ctx, b: nat, m: Message)
    ensures var n, w' := |w|, Handled(o, w, ctx, Base(b), m);
            && w <= w' && |w'| == n + 3
            && Asked(w, w') == [Receive(m.id), CallFor(b, ctx, m),
                                Settle(m.id, if AnswerAt(w', n + 1).err.None? then Complete else Abandon)]
  {
    hide Asked, Deliver, Report;
    var r := Deliver(o, w, ctx, Base(b), m.id, InputOf(m));
    DeliverToBase(o, w, ctx, b, m.id, InputOf(m));
    ReportAsks(o, w, r.world, m.id, Owed(o, w, ctx, Base(b), m));
  }

  /** Any fn is called with what its layers make of that input. */
  lemma HandledMakes(o: Oracle, w: Trace, ctx: Ctx, f: Fn, m: Message)
    ensures var input := Map(map["ContentType" := Str(m.contentType), "Data" := Str(m.data)]);
            Inputs.Makes(w, Handled(o, w, ctx, f, m),
                         Inputs.Given(o, w + [Event(Receive(m.id), NO_ANSWER)], ctx, f, input))
  {
    hide Deliver, Report, Inputs.Given;
    var r := Deliver(o, w, ctx, f, m.id, InputOf(m));
    DeliverMakes(o, w, ctx, f, m.id, InputOf(m));
    ReportAsks(o, r.world, r.world, m.id, Owed(o, w, ctx, f, m));
  }

  /** The calls over several messages: one each, in order. */
  function CallsFor(b: nat, ctx: Ctx, rs: seq<Received>): seq<Query> {
    if rs == [] then [] else
      CallsFor(b, ctx, rs[..|rs| - 1]) + (if rs[|rs| - 1].Got? then [CallFor(b, ctx, rs[|rs| - 1].message)] else [])
  }

  lemma {:induction false} AllHandledCalls(o: Oracle, w: Trace, ctx: Ctx, b: nat, rs: seq<Received>)
    ensures Inputs.Calls(AllHandled(o, w, ctx, Base(b), rs)) == Inputs.Calls(w) + CallsFor(b, ctx, rs)
  {
    hide Handled;
    if rs != [] {
      var front, last := rs[..|rs| - 1], rs[|rs| - 1];
      AllHandledCalls(o, w, ctx, b, front);
      if last.Got? {
        HandledMakes(o, AllHandled(o, w, ctx, Base(b), front), ctx, Base(b), last.message);
      }
    }
  }

  /** A message that was completed had a delivery with exactly one business call, which returned nil. */
  lemma CompletedMeansHandled(w: Trace, id: nat, p: nat)
    requires Justified(w) && p < |w| && w[p].query == Settle(id, Complete)
    ensures exists s :: 0 <= s < p && Justifies(w, s, p)
  {
    assert IsAckEvent(w[p]);
  }

  /** The handler `serveQueue` passes to ReceiveOne: the fn gets a cancellable context. */
  method HandleQueued(message: Message, ctx: Ctx, f: Fn, o: Oracle, w: Trace) returns (err: Option<Err>, w': Trace)
    ensures w' == Handled(o, w, WithCancel(ctx), f, message)
    ensures err == SettleError(o, w, WithCancel(ctx), f, message)
  {
    hide Deliver, Report;
    var newCtx := WithCancel(ctx);
    var r := Deliver(o, w, newCtx, f, message.id, InputOf(message));
    if r.out.err.Some? {
      err, w' := o(r.world, Settle(message.id, Abandon)).err, Report(o, r.world, message.id, Abandon);
      if err.Some? {
        return;
      }
    } else {
      err, w' := o(r.world, Settle(message.id, Complete)).err, Report(o, r.world, message.id, Complete);
      if err.Some? {
        return;
      }
    }
    err := None;
  }

  /** The handler `serveDLQ` passes: errors of the settlement are logged and forgotten. */
  method HandleDeadLetter(message: Message, ctx: Ctx, f: Fn, o: Oracle, w: Trace) returns (w': Trace)
    ensures w' == Handled(o, w, ctx, f, message)
  {
    hide Deliver, Report;
    var r := Deliver(o, w, ctx, f, message.id, InputOf(message));
    if r.out.err.Some? {
      w' := Report(o, r.world, message.id, Abandon);
    } else {
      w' := Report(o, r.world, message.id, Complete);
    }
  }

  function Ids(rs: seq<Received>): seq<nat> {
    if rs == [] then [] else
      Ids(rs[..|rs| - 1]) + (if rs[|rs| - 1].Got? then [rs[|rs| - 1].message.id] else [])
  }

  /** The trace after several messages. */
  function AllHandled(o: Oracle, w: Trace, ctx: Ctx, f: Fn, rs: seq<Received>): Trace {
    if rs == [] then w else
      var before := AllHandled(o, w, ctx, f, rs[..|rs| - 1]);
      if rs[|rs| - 1].Got? then Handled(o, before, ctx, f, rs[|rs| - 1].message) else before
  }

  /** Every message received is settled once, in the order of receipt, and every completion is justified. */
  lemma {:induction false} AllHandledAccounts(o: Oracle, w: Trace, ctx: Ctx, f: Fn, rs: seq<Received>)
    ensures var w' := AllHandled(o, w, ctx, f, rs);
            && Receives(w') == Receives(w) + Ids(rs) && Reported(w') == Reported(w) + Ids(rs)
            && (Justified(w) ==> Justified(w'))
  {
    hide Handled, Justified, Receives, Reported;
    if rs != [] {
      var front, last := rs[..|rs| - 1], rs[|rs| - 1];
      AllHandledAccounts(o, w, ctx, f, front);
      if last.Got? {
        HandledAccounts(o, AllHandled(o, w, ctx, f, front), ctx, f, last.message);
      }
    }
  }

  /** Reception i brings a message, and settling it after the ones before succeeds. */
  predicate GoesOn(o: Oracle, w: Trace, ctx: Ctx, f: Fn, received: seq<Received>, i: nat)
    requires i < |received|
  {
    received[i].Got? && SettleError(o, AllHandled(o, w, ctx, f, received[..i]), ctx, f, received[i].message) == None
  }

  /**
   `serveQueue`, for as many receptions as are observed: the first failed receive or settlement ends
   it, and nothing else does.
   */
  method ServeQueue(received: seq<Received>, ctx: Ctx, f: Fn, o: Oracle, w: Trace)
    returns (served: Served, w': Trace, handled: nat)
    ensures handled <= |received| && w' == AllHandled(o, w, WithCancel(ctx), f, received[..handled])
    ensures served.StillServing? ==>
              handled == |received| && forall i :: 0 <= i < handled ==> GoesOn(o, w, WithCancel(ctx), f, received, i)
    ensures served.Stopped? ==>
              || (&& handled < |received| && received[handled] == ReceiveFailed(served.err)
                  && forall i :: 0 <= i < handled ==> GoesOn(o, w, WithCancel(ctx), f, received, i))
              || (&& handled > 0 && received[handled - 1].Got?
                  && (var before := AllHandled(o, w, WithCancel(ctx), f, received[..handled - 1]);
                      SettleError(o, before, WithCancel(ctx), f, received[handled - 1].message) == Some(served.err))
                  && forall i :: 0 <= i < handled - 1 ==> GoesOn(o, w, WithCancel(ctx), f, received, i))
  {
    hide Handled, SettleError;
    w', handled := w, 0;
    while handled < |received|
      invariant handled <= |received| && w' == AllHandled(o, w, WithCancel(ctx), f, received[..handled])
      invariant forall i :: 0 <= i < handled ==> GoesOn(o, w, WithCancel(ctx), f, received, i)
    {
      if received[handled].ReceiveFailed? {
        return Stopped(received[handled].err), w', handled;
      }
      assert received[..handled + 1][..handled] == received[..handled];
      var err, w1 := HandleQueued(received[handled].message, ctx, f, o, w');
      w', handled := w1, handled + 1;
      if err.Some? {
        return Stopped(err.value), w', handled;
      }
    }
    return StillServing, w', handled;
  }

  /** `serveDLQ`: only a failed receive ends it. */
  method ServeDLQ(received: seq<Received>, ctx: Ctx, f: Fn, o: Oracle, w: Trace)
    returns (served: Served, w': Trace, handled: nat)
    ensures handled <= |received| && w' == AllHandled(o, w, ctx, f, received[..handled])
    ensures forall i :: 0 <= i < handled ==> received[i].Got?
    ensures served.StillServing? ==> handled == |received|
    ensures served.Stopped? ==> handled < |received| && received[handled] == ReceiveFailed(served.err)
  {
    hide Handled;
    w', handled := w, 0;
    while handled < |received|
      invariant handled <= |received| && w' == AllHandled(o, w, ctx, f, received[..handled])
      invariant forall i :: 0 <= i < handled ==> received[i].Got?
    {
      if received[handled].ReceiveFailed? {
        return Stopped(received[handled].err), w', handled;
      }
      assert received[..handled + 1][..handled] == received[..handled];
      w' := HandleDeadLetter(received[handled].message, ctx, f, o, w');
      handled := handled + 1;
    }
    return StillServing, w', handled;
  }
}
