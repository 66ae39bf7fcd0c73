/**
 The sqs source (run/source/sqs): poll, invoke the fn for every message of the batch, delete
 the messages whose fn returned nil. A delete that fails ends Serve.
 */
module SqsSource {
  import opened Values
  import opened World
  import opened Components
  import opened Delivery
  import Accounting
  import Inputs

  datatype Message = Message(id: nat, body: string)

  datatype Poll = PollFailed(err: Err) | Batch(messages: seq<Message>)

  datatype Served = StillServing | Stopped(err: Err)

  function Ids(ms: seq<Message>): seq<nat> {
    seq(|ms|, i requires 0 <= i < |ms| => ms[i].id)
  }

  method CreateInput(m: Message) returns (input: Value)
    ensures input == InputOf(m)
  {
    var fields: map<string, Value> := map[];
    fields := fields["id" := Other(m.id)];
    fields := fields["body" := Str(m.body)];
    return Map(fields);
  }

  function InputOf(m: Message): Value {
    Map(map["id" := Other(m.id), "body" := Str(m.body)])
  }

  /** The messages whose deletion was confirmed. */
  function Deleted(t: Trace): set<nat> {
    if t == [] then {} else
      var e := t[|t| - 1];
      var gone := e.query.Settle? && e.query.how.Delete? && e.answer.err.None?;
      Deleted(t[..|t| - 1]) + (if gone then {e.query.id} else {})
  }

  lemma DeletedOne(t: Trace, e: Event)
    ensures Deleted(t + [e]) ==
            Deleted(t) + (if e.query.Settle? && e.query.how.Delete? && e.answer.err.None? then {e.query.id} else {})
  {
    assert (t + [e])[..|t|] == t;
  }

  lemma {:induction false} SilentKeepsDeleted(w: Trace, w': Trace)
    requires w <= w' && forall k :: |w| <= k < |w'| ==> !w'[k].query.Settle?
    ensures Deleted(w') == Deleted(w)
    decreases |w'|
  {
    if w == w' {
    } else {
      var front := w'[..|w'| - 1];
      assert w' == front + [w'[|w'| - 1]];
      SilentKeepsDeleted(w, front);
      DeletedOne(front, w'[|w'| - 1]);
    }
  }

  /** What becomes of one message: it is deleted exactly if its fn returned nil. */
  function Handle(o: Oracle, w: Trace, ctx: Ctx, f: Fn, m: Message): (Trace, Option<Err>) {
    var r := Deliver(o, w, ctx, f, m.id, InputOf(m));
    if r.out.err.Some? then (r.world, None)
    else (Report(o, r.world, m.id, Delete), o(r.world, Settle(m.id, Delete)).err)
  }

  /** The message was deleted: its fn returned nil, and so did the delete. */
  predicate Confirmed(o: Oracle, w: Trace, ctx: Ctx, f: Fn, m: Message) {
    Deliver(o, w, ctx, f, m.id, InputOf(m)).out.err.None? && Handle(o, w, ctx, f, m).1.None?
  }

  lemma HandleAccounts(o: Oracle, w: Trace, ctx: Ctx, f: Fn, m: Message)
    ensures var w' := Handle(o, w, ctx, f, m).0;
            && w <= w' && Receives(w') == Receives(w) + [m.id]
            && (Justified(w) ==> Justified(w'))
            && Deleted(w') == Deleted(w) + (if Confirmed(o, w, ctx, f, m) then {m.id} else {})
            && Deleted(w'[|w|..]) == (if Confirmed(o, w, ctx, f, m) then {m.id} else {})
    ensures var r := Deliver(o, w, ctx, f, m.id, InputOf(m));
            var (w', err) := Handle(o, w, ctx, f, m);
            && (r.out.err.Some? ==> err.None? && Reported(w') == Reported(w))
            && (r.out.err.None? ==> Settled(w', Delete) == Settled(w, Delete) + [m.id])
  {
    hide Deliver, Report, Justified, Receives, Settled, Reported, Deleted;
    HandleDeletes(o, w, ctx, f, m);
    var r := Deliver(o, w, ctx, f, m.id, InputOf(m));
    DeliverAccounts(o, w, ctx, f, m.id, InputOf(m));
    ReportAccounts(o, r.world, m.id, Delete);
    if Justified(w) && r.out.err.None? {
      NothingIsQuiet(r.world);
      ReportIsJustified(o, w, ctx, f, m.id, InputOf(m), r.world, Delete);
    }
  }

  lemma HandleDeletes(o: Oracle, w: Trace, ctx: Ctx, f: Fn, m: Message)
    ensures var w' := Handle(o, w, ctx, f, m).0;
            && w <= w'
            && Deleted(w') == Deleted(w) + (if Confirmed(o, w, ctx, f, m) then {m.id} else {})
            && Deleted(w'[|w|..]) == (if Confirmed(o, w, ctx, f, m) then {m.id} else {})
  {
    hide Deliver, InputOf, Deleted;
    var r := Deliver(o, w, ctx, f, m.id, InputOf(m));
    DeliverDeletesNothing(o, w, ctx, f, m);
    DeletedAfter(w, r.world, Event(Settle(m.id, Delete), o(r.world, Settle(m.id, Delete))));
  }

  lemma DeletedAfter(w: Trace, w1: Trace, e: Event)
    requires w <= w1
    ensures var gone := if e.query.Settle? && e.query.how.Delete? && e.answer.err.None? then {e.query.id} else {};
            && w <= w1 + [e]
            && Deleted(w1 + [e]) == Deleted(w1) + gone
            && Deleted((w1 + [e])[|w|..]) == Deleted(w1[|w|..]) + gone
  {
    hide Deleted;
    DeletedOne(w1, e);
    DeletedOne(w1[|w|..], e);
    assert (w1 + [e])[|w|..] == w1[|w|..] + [e];
  }

  lemma DeliverDeletesNothing(o: Oracle, w: Trace, ctx: Ctx, f: Fn, m: Message)
    ensures var w' := Deliver(o, w, ctx, f, m.id, InputOf(m)).world;
            w <= w' && Deleted(w') == Deleted(w) && Deleted(w'[|w|..]) == {}
  {
    hide InvokeFn, InputOf, Deleted, BaseCalls, Inits;
    var e := Event(Receive(m.id), NO_ANSWER);
    Accounting.FnAccounted(o, w + [e], ctx, f, InputOf(m));
    SilentAfterEvent(w, e, Deliver(o, w, ctx, f, m.id, InputOf(m)).world);
  }

  lemma SilentAfterEvent(w: Trace, e: Event, w': Trace)
    requires w + [e] <= w' && !e.query.Settle? && forall k :: |w| < k < |w'| ==> !w'[k].query.Settle?
    ensures w <= w' && Deleted(w') == Deleted(w) && Deleted(w'[|w|..]) == {}
  {
    EventStays(w, e, w');
    SilentDeletesNothing(w, w');
  }

  lemma EventStays(w: Trace, e: Event, w': Trace)
    requires w + [e] <= w'
    ensures w <= w' && w'[|w|] == e
  {
    assert forall k :: 0 <= k < |w| ==> w'[k] == (w + [e])[k] == w[k];
  }

  lemma SilentDeletesNothing(w: Trace, w': Trace)
    requires w <= w' && forall k :: |w| <= k < |w'| ==> !w'[k].query.Settle?
    ensures Deleted(w') == Deleted(w) && Deleted(w'[|w|..]) == {}
  {
    var suffix := w'[|w|..];
    assert Deleted([]) == {};
    hide Deleted;
    assert forall k :: 0 <= k < |suffix| ==> suffix[k] == w'[|w| + k];
    SilentKeepsDeleted(w, w');
    SilentKeepsDeleted([], suffix);
  }

  // ---- what the fn is called with ---------------------------------------------------------

  /** The call of a business fn without layers for a message. */
  function CallFor(b: nat, ctx: Ctx, m: Message): Query {
    CallBase(b, ctx, Map(map["id" := Other(m.id), "body" := Str(m.body)]))
  }

  function CallsFor(b: nat, ctx: Ctx, ms: seq<Message>): seq<Query> {
    seq(|ms|, i requires 0 <= i < |ms| => CallFor(b, ctx, ms[i]))
  }

  /** A fn without layers has been called for these messages, once each and in order. */
  predicate CalledFor(f: Fn, ctx: Ctx, w: Trace, w': Trace, ms: seq<Message>) {
    f.Base? ==> Inputs.Calls(w') == Inputs.Calls(w) + CallsFor(f.id, ctx, ms)
  }

  lemma CalledForNone(f: Fn, ctx: Ctx, w: Trace)
    ensures CalledFor(f, ctx, w, w, [])
  {
  }

  lemma CalledForMore(f: Fn, ctx: Ctx, w: Trace, w1: Trace, w2: Trace, ms: seq<Message>, more: seq<Message>)
    requires CalledFor(f, ctx, w, w1, ms) && CalledFor(f, ctx, w1, w2, more)
    ensures CalledFor(f, ctx, w, w2, ms + more)
  {
    if f.Base? {
      assert CallsFor(f.id, ctx, ms + more) == CallsFor(f.id, ctx, ms) + CallsFor(f.id, ctx, more);
    }
  }

  /** What one message asks, written out: such a fn is called with the id and the body, and a nil error deletes. */
  lemma HandleAsks(o: Oracle, w: Trace, ctx: Ctx, b: nat, m: Message)
    ensures var n, w' := |w|, Handle(o, w, ctx, Base(b), m).0;
            && w <= w' && |w'| >= n + 2
            && Asked(w, w') == [Receive(m.id), CallFor(b, ctx, m)]
                               + (if AnswerAt(w', n + 1).err.None? then [Settle(m.id, Delete)] else [])
  {
    hide Asked, Deliver, Report;
    var r := Deliver(o, w, ctx, Base(b), m.id, InputOf(m));
    DeliverToBase(o, w, ctx, b, m.id, InputOf(m));
    ReportAsks(o, w, r.world, m.id, Delete);
  }

  /** Any fn is called with what its layers make of that input. */
  lemma HandleMakes(o: Oracle, w: Trace, ctx: Ctx, f: Fn, m: Message)
    ensures var input := Map(map["id" := Other(m.id), "body" := Str(m.body)]);
            Inputs.Makes(w, Handle(o, w, ctx, f, m).0,
                         Inputs.Given(o, w + [Event(Receive(m.id), NO_ANSWER)], ctx, f, input))
    ensures CalledFor(f, ctx, w, Handle(o, w, ctx, f, m).0, [m])
  {
    hide Deliver, Report, BaseCalls;
    var r := Deliver(o, w, ctx, f, m.id, InputOf(m));
    DeliverMakes(o, w, ctx, f, m.id, InputOf(m));
    ReportAsks(o, r.world, r.world, m.id, Delete);
  }

  // ---- the queue ----------------------------------------------------------------------

  /**
   The queue beside the source: the messages sent to it, those it still holds and those it
   has deleted; `world` is the trace so far, `stopped` the error Serve has returned.
   */
  datatype Queue = Queue(
    sent: set<nat>, queued: set<nat>, deleted: set<nat>, world: Trace, stopped: Option<Err>)

  /** New messages; an id that was used is not used again. */
  function Arrive(q: Queue, ids: set<nat>): Queue {
    q.(sent := q.sent + ids, queued := q.queued + (ids - q.sent))
  }

  /** The queue follows the trace: what the trace confirms as deleted, it no longer holds. */
  function Advance(q: Queue, w': Trace): Queue
    requires |q.world| <= |w'|
  {
    var gone := Deleted(w'[|q.world|..]);
    q.(queued := q.queued - gone, deleted := q.deleted + gone, world := w')
  }

  /** One message of a batch; nothing happens once Serve has returned. */
  function AfterMessage(o: Oracle, ctx: Ctx, f: Fn, q: Queue, m: Message): Queue {
    HandleDeletes(o, q.world, ctx, f, m);
    if q.stopped.Some? then q else
    var (w', err) := Handle(o, q.world, ctx, f, m);
    Advance(q, w').(stopped := err)
  }

  function AfterBatch(o: Oracle, ctx: Ctx, f: Fn, q: Queue, ms: seq<Message>): Queue {
    if ms == [] then q else AfterMessage(o, ctx, f, AfterBatch(o, ctx, f, q, ms[..|ms| - 1]), ms[|ms| - 1])
  }

  /** What arrived since the last poll, and the poll. An arrival during a batch shows in the next poll only. */
  datatype Round = Round(arrived: set<nat>, poll: Poll)

  function AfterRound(o: Oracle, ctx: Ctx, f: Fn, q: Queue, r: Round): Queue {
    if q.stopped.Some? then q else
    match r.poll
    case PollFailed(err) => Arrive(q, r.arrived).(stopped := Some(err))
    case Batch(ms) => AfterBatch(o, ctx, f, Arrive(q, r.arrived), ms)
  }

  function AfterRounds(o: Oracle, ctx: Ctx, f: Fn, q: Queue, rounds: seq<Round>): Queue {
    if rounds == [] then q else
      AfterRound(o, ctx, f, AfterRounds(o, ctx, f, q, rounds[..|rounds| - 1]), rounds[|rounds| - 1])
  }

  /** A poll offers only messages the queue holds; it may offer one it offered before. */
  predicate OffersQueued(q: Queue, r: Round) {
    q.stopped.None? && r.poll.Batch? ==>
      forall i :: 0 <= i < |r.poll.messages| ==> r.poll.messages[i].id in Arrive(q, r.arrived).queued
  }

  predicate AlwaysOffersQueued(o: Oracle, ctx: Ctx, f: Fn, q: Queue, rounds: seq<Round>) {
    rounds != [] ==>
      var front := rounds[..|rounds| - 1];
      && AlwaysOffersQueued(o, ctx, f, q, front)
      && OffersQueued(AfterRounds(o, ctx, f, q, front), rounds[|rounds| - 1])
  }

  /** Sent messages are deleted or still queued, never both, and deleted as the trace says, with good reason. */
  ghost predicate Partitioned(q: Queue) {
    && q.sent == q.queued + q.deleted && q.queued !! q.deleted
    && q.deleted == Deleted(q.world) && Justified(q.world)
  }

  /** A message leaves exactly if it is the one handled, its fn returned nil and its delete was confirmed. */
  lemma LeavesIff(o: Oracle, ctx: Ctx, f: Fn, q: Queue, m: Message, id: nat)
    requires q.stopped.None? && id in q.queued
    ensures id !in AfterMessage(o, ctx, f, q, m).queued <==> id == m.id && Confirmed(o, q.world, ctx, f, m)
  {
    hide Confirmed, Handle, Deleted;
    HandleDeletes(o, q.world, ctx, f, m);
  }

  lemma MessageKeepsPartition(o: Oracle, ctx: Ctx, f: Fn, q: Queue, m: Message)
    requires Partitioned(q) && m.id in q.sent
    ensures Partitioned(AfterMessage(o, ctx, f, q, m)) && AfterMessage(o, ctx, f, q, m).sent == q.sent
  {
    hide Confirmed, Handle, Deleted, Justified;
    HandleAccounts(o, q.world, ctx, f, m);
  }

  lemma {:induction false} BatchKeepsPartition(o: Oracle, ctx: Ctx, f: Fn, q: Queue, ms: seq<Message>)
    requires Partitioned(q) && forall i :: 0 <= i < |ms| ==> ms[i].id in q.sent
    ensures Partitioned(AfterBatch(o, ctx, f, q, ms)) && AfterBatch(o, ctx, f, q, ms).sent == q.sent
  {
    hide Partitioned, AfterMessage;
    if ms != [] {
      BatchKeepsPartition(o, ctx, f, q, ms[..|ms| - 1]);
      MessageKeepsPartition(o, ctx, f, AfterBatch(o, ctx, f, q, ms[..|ms| - 1]), ms[|ms| - 1]);
    }
  }

  /** Main result: over any sequence of arrivals and polls the queue stays partitioned. */
  lemma {:induction false} PollsKeepPartition(o: Oracle, ctx: Ctx, f: Fn, q: Queue, rounds: seq<Round>)
    requires Partitioned(q) && AlwaysOffersQueued(o, ctx, f, q, rounds)
    ensures Partitioned(AfterRounds(o, ctx, f, q, rounds))
  {
    hide AfterBatch, Deleted, Justified;
    if rounds != [] {
      var front, r := rounds[..|rounds| - 1], rounds[|rounds| - 1];
      PollsKeepPartition(o, ctx, f, q, front);
      var q1 := AfterRounds(o, ctx, f, q, front);
      if q1.stopped.None? && r.poll.Batch? {
        BatchKeepsPartition(o, ctx, f, Arrive(q1, r.arrived), r.poll.messages);
      }
    }
  }

  /** Before the first message is sent. */
  const EMPTY := Queue({}, {}, {}, [], None)

  /** A confirmed deletion whose delivery called the business fn exactly once and got nil. */
  ghost predicate HandledAndDeleted(w: Trace, id: nat) {
    exists s, p :: 0 <= s < p < |w| && w[p].query == Settle(id, Delete) && w[p].answer.err.None? && Justifies(w, s, p)
  }

  /**
   Main result for one message over a whole run: a message that was sent is no longer queued if
   and only if some delivery of it called the business fn exactly once, got nil, and was followed
   by a confirmed delete.
   */
  lemma MessageLeavesIff(o: Oracle, ctx: Ctx, f: Fn, rounds: seq<Round>, id: nat)
    requires AlwaysOffersQueued(o, ctx, f, EMPTY, rounds)
    requires id in AfterRounds(o, ctx, f, EMPTY, rounds).sent
    ensures var q := AfterRounds(o, ctx, f, EMPTY, rounds);
            id !in q.queued <==> HandledAndDeleted(q.world, id)
  {
    assert Partitioned(EMPTY);
    PollsKeepPartition(o, ctx, f, EMPTY, rounds);
    var q := AfterRounds(o, ctx, f, EMPTY, rounds);
    hide AfterRounds, AlwaysOffersQueued;
    if id in q.deleted {
      var s, p := DeletedMeansHandled(q.world, id);
    }
    if HandledAndDeleted(q.world, id) {
      var s, p :| 0 <= s < p < |q.world| && q.world[p].query == Settle(id, Delete)
                  && q.world[p].answer.err.None? && Justifies(q.world, s, p);
      DeleteShows(q.world, p, id);
    }
  }

  lemma {:induction false} DeleteShows(w: Trace, p: nat, id: nat)
    requires p < |w| && w[p].query == Settle(id, Delete) && w[p].answer.err.None?
    ensures id in Deleted(w)
  {
    if p < |w| - 1 {
      DeleteShows(w[..|w| - 1], p, id);
    }
  }

  // ---- the loops -----------------------------------------------------------------------

  /** The loop body for one message. */
  method HandleMessage(message: Message, ctx: Ctx, f: Fn, o: Oracle, w: Trace) returns (err: Option<Err>, w': Trace)
    ensures (w', err) == Handle(o, w, ctx, f, message)
    ensures err.Some? ==> w' != [] && w'[|w'| - 1].query == Settle(message.id, Delete) && w'[|w'| - 1].answer.err == err
  {
    hide Deliver;
    var input := CreateInput(message);
    var r := Deliver(o, w, ctx, f, message.id, input);
    if r.out.err.Some? {
      return None, r.world;
    }
    return o(r.world, Settle(message.id, Delete)).err, Report(o, r.world, message.id, Delete);
  }

  /**
   A batch: its first `tried` messages are handled. A message whose fn fails does not stop the
   ones after it; only a failed delete does, it is then the last thing that happened, and the
   rest of the batch has not been received. The queue moves on in step.
   */
  method ServeBatch(messages: seq<Message>, ctx: Ctx, f: Fn, o: Oracle, w: Trace, ghost q: Queue)
    returns (err: Option<Err>, w': Trace, tried: nat, ghost q': Queue)
    requires q.world == w && q.stopped == None
    ensures tried <= |messages| && (err.None? ==> tried == |messages|)
    ensures q' == AfterBatch(o, ctx, f, q, messages) && q'.world == w' && q'.stopped == err
    ensures Receives(w') == Receives(w) + Ids(messages[..tried])
    ensures CalledFor(f, ctx, w, w', messages[..tried])
    ensures err.Some? ==>
              && tried > 0 && w' != [] && w'[|w'| - 1].answer.err == err
              && w'[|w'| - 1].query == Settle(messages[tried - 1].id, Delete)
    ensures Justified(w) ==> Justified(w')
  {
    hide *;
    err, w', tried, q' := None, w, 0, q;
    NoMessages(o, ctx, f, q, messages, Receives(w));
    CalledForNone(f, ctx, w);
    while tried < |messages|
      invariant tried <= |messages|
      invariant q' == AfterBatch(o, ctx, f, q, messages[..tried]) && q'.world == w' && err == q'.stopped == None
      invariant Receives(w') == Receives(w) + Ids(messages[..tried])
      invariant CalledFor(f, ctx, w, w', messages[..tried])
      invariant Justified(w) ==> Justified(w')
    {
      var message := messages[tried];
      OneMoreMessage(o, ctx, f, q, messages, tried, Receives(w));
      HandleReceives(o, w', ctx, f, message);
      CalledForMore(f, ctx, w, w', Handle(o, w', ctx, f, message).0, messages[..tried], [message]);
      q' := AfterMessage(o, ctx, f, q', message);
      err, w' := HandleMessage(message, ctx, f, o, w');
      tried := tried + 1;
      if err.Some? {
        StoppedSkipsRest(o, ctx, f, q, messages, tried);
        return;
      }
    }
  }

  lemma HandleReceives(o: Oracle, w: Trace, ctx: Ctx, f: Fn, m: Message)
    ensures Receives(Handle(o, w, ctx, f, m).0) == Receives(w) + [m.id]
    ensures Justified(w) ==> Justified(Handle(o, w, ctx, f, m).0)
    ensures CalledFor(f, ctx, w, Handle(o, w, ctx, f, m).0, [m])
  {
    HandleAccounts(o, w, ctx, f, m);
    hide Handle, CalledFor;
    HandleMakes(o, w, ctx, f, m);
  }

  lemma NoMessages(o: Oracle, ctx: Ctx, f: Fn, q: Queue, ms: seq<Message>, ids: seq<nat>)
    ensures AfterBatch(o, ctx, f, q, ms[..0]) == q && ms[..|ms|] == ms && ms[..0] == [] && ids + Ids(ms[..0]) == ids
  {
  }

  lemma OneMoreMessage(o: Oracle, ctx: Ctx, f: Fn, q: Queue, ms: seq<Message>, k: nat, ids: seq<nat>)
    requires k < |ms|
    ensures ids + Ids(ms[..k + 1]) == ids + Ids(ms[..k]) + [ms[k].id] && ms[..k + 1] == ms[..k] + [ms[k]]
    ensures var before, after := AfterBatch(o, ctx, f, q, ms[..k]), AfterBatch(o, ctx, f, q, ms[..k + 1]);
            && after == AfterMessage(o, ctx, f, before, ms[k])
            && (before.stopped.None? ==> (after.world, after.stopped) == Handle(o, before.world, ctx, f, ms[k]))
  {
    hide Handle;
    assert ms[..k + 1][..k] == ms[..k];
    assert Ids(ms[..k + 1]) == Ids(ms[..k]) + [ms[k].id];
  }

  /** Once stopped, the rest of a batch makes no difference. */
  lemma {:induction false} StoppedSkipsRest(o: Oracle, ctx: Ctx, f: Fn, q: Queue, ms: seq<Message>, k: nat)
    requires k <= |ms| && AfterBatch(o, ctx, f, q, ms[..k]).stopped.Some?
    ensures AfterBatch(o, ctx, f, q, ms) == AfterBatch(o, ctx, f, q, ms[..k])
    decreases |ms|
  {
    if k == |ms| {
      assert ms[..k] == ms;
    } else {
      var front := ms[..|ms| - 1];
      assert front[..k] == ms[..k];
      StoppedSkipsRest(o, ctx, f, q, front, k);
    }
  }

  /** The same for the rounds after the one that stopped Serve. */
  lemma {:induction false} StoppedSkipsRounds(o: Oracle, ctx: Ctx, f: Fn, q: Queue, rounds: seq<Round>, k: nat)
    requires k <= |rounds| && AfterRounds(o, ctx, f, q, rounds[..k]).stopped.Some?
    ensures AfterRounds(o, ctx, f, q, rounds) == AfterRounds(o, ctx, f, q, rounds[..k])
    decreases |rounds|
  {
    if k == |rounds| {
      assert rounds[..k] == rounds;
    } else {
      var front := rounds[..|rounds| - 1];
      assert front[..k] == rounds[..k];
      StoppedSkipsRounds(o, ctx, f, q, front, k);
    }
  }

  lemma NoRounds(o: Oracle, ctx: Ctx, f: Fn, q: Queue, rounds: seq<Round>, ids: seq<nat>)
    ensures AfterRounds(o, ctx, f, q, rounds[..0]) == q && rounds[..|rounds|] == rounds
    ensures ids + PolledIds(rounds[..0]) == ids && Polled(rounds[..0]) == []
  {
  }

  lemma OneMoreRound(o: Oracle, ctx: Ctx, f: Fn, q: Queue, rounds: seq<Round>, k: nat)
    requires k < |rounds|
    ensures AfterRounds(o, ctx, f, q, rounds[..k + 1]) ==
            AfterRound(o, ctx, f, AfterRounds(o, ctx, f, q, rounds[..k]), rounds[k])
  {
    assert rounds[..k + 1][..k] == rounds[..k];
  }

  /** All the messages received in a sequence of rounds. */
  function Polled(rounds: seq<Round>): seq<Message> {
    if rounds == [] then [] else
      var poll := rounds[|rounds| - 1].poll;
      Polled(rounds[..|rounds| - 1]) + (if poll.Batch? then poll.messages else [])
  }

  /** Their ids. */
  function PolledIds(rounds: seq<Round>): seq<nat> {
    if rounds == [] then [] else
      var poll := rounds[|rounds| - 1].poll;
      PolledIds(rounds[..|rounds| - 1]) + (if poll.Batch? then Ids(poll.messages) else [])
  }

  lemma OneMorePolled(rounds: seq<Round>, k: nat, ids: seq<nat>)
    requires k < |rounds| && rounds[k].poll.Batch?
    ensures ids + PolledIds(rounds[..k + 1]) == ids + PolledIds(rounds[..k]) + Ids(rounds[k].poll.messages)
    ensures Polled(rounds[..k + 1]) == Polled(rounds[..k]) + rounds[k].poll.messages
  {
    assert rounds[..k + 1][..k] == rounds[..k];
  }

  /** A Serve that stopped did so on a failed poll, or on the failed delete of the message tried last. */
  ghost predicate StoppedBy(poll: Poll, tried: nat, err: Err, w: Trace) {
    match poll
    case PollFailed(e) => tried == 0 && err == e
    case Batch(ms) =>
      && 0 < tried <= |ms| && w != []
      && w[|w| - 1].query == Settle(ms[tried - 1].id, Delete) && w[|w| - 1].answer.err == Some(err)
  }

  /** The first messages of the batch of a poll, if it is one. */
  function FirstOf(poll: Poll, tried: nat): seq<Message> {
    if poll.Batch? && tried <= |poll.messages| then poll.messages[..tried] else []
  }

  /** One round: the poll, and the batch it brought. */
  method ServeRound(r: Round, ctx: Ctx, f: Fn, o: Oracle, w: Trace, ghost q: Queue)
    returns (err: Option<Err>, w': Trace, tried: nat, ghost q': Queue)
    requires q.world == w && q.stopped == None
    ensures q' == AfterRound(o, ctx, f, q, r) && q'.world == w' && q'.stopped == err
    ensures Receives(w') == Receives(w) + Ids(FirstOf(r.poll, tried))
    ensures CalledFor(f, ctx, w, w', FirstOf(r.poll, tried))
    ensures if err.Some? then StoppedBy(r.poll, tried, err.value, w')
            else r.poll.Batch? && FirstOf(r.poll, tried) == r.poll.messages
    ensures Justified(w) ==> Justified(w')
  {
    hide Justified, Receives, Deleted, AfterBatch;
    if r.poll.PollFailed? {
      CalledForNone(f, ctx, w);
      return Some(r.poll.err), w, 0, Arrive(q, r.arrived).(stopped := Some(r.poll.err));
    }
    err, w', tried, q' := ServeBatch(r.poll.messages, ctx, f, o, w, Arrive(q, r.arrived));
  }

  /**
   Serve for as many rounds as are observed. The batches of the first `full` are received whole,
   and of the next one, if Serve stopped there, exactly the first `tried` messages. The queue
   moves on in step.
   */
  method Serve(rounds: seq<Round>, ctx: Ctx, f: Fn, o: Oracle, w: Trace, ghost q: Queue)
    returns (served: Served, w': Trace, full: nat, tried: nat, ghost q': Queue)
    requires q.world == w && q.stopped == None
    ensures served.StillServing? ==>
              && full == |rounds| && Receives(w') == Receives(w) + PolledIds(rounds)
              && CalledFor(f, ctx, w, w', Polled(rounds))
    ensures served.Stopped? ==>
              && full < |rounds| && StoppedBy(rounds[full].poll, tried, served.err, w')
              && Receives(w') == Receives(w) + PolledIds(rounds[..full]) + Ids(FirstOf(rounds[full].poll, tried))
              && CalledFor(f, ctx, w, w', Polled(rounds[..full]) + FirstOf(rounds[full].poll, tried))
    ensures q' == AfterRounds(o, ctx, f, q, rounds) && q'.world == w'
    ensures q'.stopped == if served.Stopped? then Some(served.err) else None
    ensures Justified(w) ==> Justified(w')
  {
    hide *;
    w', full, tried, q' := w, 0, 0, q;
    NoRounds(o, ctx, f, q, rounds, Receives(w));
    CalledForNone(f, ctx, w);
    while full < |rounds|
      invariant full <= |rounds|
      invariant Receives(w') == Receives(w) + PolledIds(rounds[..full])
      invariant CalledFor(f, ctx, w, w', Polled(rounds[..full]))
      invariant q' == AfterRounds(o, ctx, f, q, rounds[..full]) && q'.world == w' && q'.stopped == None
      invariant Justified(w) ==> Justified(w')
    {
      OneMoreRound(o, ctx, f, q, rounds, full);
      ghost var w1 := w';
      var err;
      err, w', tried, q' := ServeRound(rounds[full], ctx, f, o, w', q');
      CalledForMore(f, ctx, w, w1, w', Polled(rounds[..full]), FirstOf(rounds[full].poll, tried));
      if err.Some? {
        StoppedSkipsRounds(o, ctx, f, q, rounds, full + 1);
        return Stopped(err.value), w', full, tried, q';
      }
      OneMorePolled(rounds, full, Receives(w));
      full := full + 1;
    }
    return StillServing, w', full, tried, q';
  }

  /** A confirmed deletion has a delivery with exactly one call that returned nil. */
  lemma {:induction false} DeletedMeansHandled(w: Trace, id: nat) returns (s: nat, p: nat)
    requires Justified(w) && id in Deleted(w)
    ensures s < p < |w| && w[p].query == Settle(id, Delete) && w[p].answer.err.None? && Justifies(w, s, p)
  {
    p := WhereDeleted(w, id);
    assert IsAckEvent(w[p]);
    s :| 0 <= s < p && Justifies(w, s, p);
  }

  lemma {:induction false} WhereDeleted(w: Trace, id: nat) returns (p: nat)
    requires id in Deleted(w)
    ensures p < |w| && w[p].query == Settle(id, Delete) && w[p].answer.err.None?
  {
    var last := |w| - 1;
    if w[last].query == Settle(id, Delete) && w[last].answer.err.None? {
      return last;
    }
    p := WhereDeleted(w[..last], id);
  }
}
