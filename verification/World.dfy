/**
 The outside world. Whatever the runner cannot compute itself (a business fn, a
 broker, a child process, a library) is a query. An oracle answers it from the
 whole history, so a theorem for every oracle holds for every behaviour of the
 outside, and the trace of answered queries is the run.
 */
module World {
  import opened Values

  /** `context.Context`, by how it was derived. */
  datatype Ctx = Background | WithTimeout(parent: Ctx, duration: int) | WithCancel(parent: Ctx)

  datatype Payload = OfValue(v: Value) | OfErr(e: Err)

  /** What a source can do with a delivery once the fn has returned. */
  datatype Settlement = Mark | Delete | Complete | Respond(data: Value) | Abandon | PostError(err: Err)

  /** The settlements that tell the origin of a message that it was handled. */
  predicate IsAck(s: Settlement) {
    s.Mark? || s.Delete? || s.Complete? || s.Respond?
  }

  datatype Query =
    | CallBase(base: nat, ctx: Ctx, input: Value)
    | CallIdentity(input: Value)
    | TakeFromPool(pool: nat, size: nat)
    | ReturnToPool(pool: nat, index: nat)
    | RunJq(code: string, ctx: Ctx, input: Value)
    | MarshalJson(input: Value)
    | UnmarshalJson(text: string)
    | InitProducer(producer: nat)
    | Send(producer: nat, topic: string, message: Payload)
    | StartTap(tap: nat)
    | WriteTap(tap: nat, line: Payload)
    | Admit(gate: nat)
    | Receive(id: nat)
    | Settle(id: nat, how: Settlement)

  /** One result of a jq iterator. */
  datatype Item = Emitted(v: Value) | Failed(err: Err)

  datatype Answer = Answer(value: Value, err: Option<Err>, items: seq<Item>)

  const NO_ANSWER := Answer(Nil, None, [])

  datatype Event = Event(query: Query, answer: Answer)

  type Trace = seq<Event>

  type Oracle = (Trace, Query) -> Answer

  /** The trace after the oracle has been asked `q`. */
  function Ask(o: Oracle, w: Trace, q: Query): Trace {
    w + [Event(q, o(w, q))]
  }

  predicate IsBaseCall(q: Query) {
    q.CallBase? || q.CallIdentity?
  }

  /** The invocations of business fns in a trace, oldest first. */
  function BaseCalls(t: Trace): seq<Event> {
    if t == [] then [] else
      var e := t[|t| - 1];
      BaseCalls(t[..|t| - 1]) + (if IsBaseCall(e.query) then [e] else [])
  }

  /** The ids of the messages received in a trace, oldest first. */
  function Receives(t: Trace): seq<nat> {
    if t == [] then [] else
      var q := t[|t| - 1].query;
      Receives(t[..|t| - 1]) + (if q.Receive? then [q.id] else [])
  }

  /** The ids of the messages settled with `how`, oldest first. */
  function Settled(t: Trace, how: Settlement): seq<nat> {
    if t == [] then [] else
      var q := t[|t| - 1].query;
      Settled(t[..|t| - 1], how) + (if q.Settle? && q.how == how then [q.id] else [])
  }

  /** The ids of the messages settled in any way, oldest first. */
  function Reported(t: Trace): seq<nat> {
    if t == [] then [] else
      var q := t[|t| - 1].query;
      Reported(t[..|t| - 1]) + (if q.Settle? then [q.id] else [])
  }

  /** How often a trace tries to create the producer of kafka middleware `id`. */
  function Inits(t: Trace, id: nat): nat {
    if t == [] then 0 else
      var q := t[|t| - 1].query;
      Inits(t[..|t| - 1], id) + (if q == InitProducer(id) then 1 else 0)
  }

  /** What was asked, oldest first. */
  function Queries(t: Trace): seq<Query> {
    seq(|t|, i requires 0 <= i < |t| => t[i].query)
  }

  /** What was asked from one trace to a longer one. */
  function Asked(w: Trace, w': Trace): seq<Query>
    requires w <= w'
  {
    Queries(w'[|w|..])
  }

  /** The answer to the question at a place of a trace. */
  function AnswerAt(w: Trace, i: nat): Answer {
    if i < |w| then w[i].answer else NO_ANSWER
  }

  lemma AskedMore(w: Trace, w1: Trace, e: Event)
    requires w <= w1
    ensures w <= w1 + [e] && Asked(w, w1 + [e]) == Asked(w, w1) + [e.query]
  {
    assert (w1 + [e])[|w|..] == w1[|w|..] + [e];
  }

  lemma AskedNothing(w: Trace)
    ensures Asked(w, w) == []
  {
  }

  lemma Recorded(t: Trace, e: Event)
    ensures BaseCalls(t + [e]) == BaseCalls(t) + (if IsBaseCall(e.query) then [e] else [])
    ensures Receives(t + [e]) == Receives(t) + (if e.query.Receive? then [e.query.id] else [])
    ensures Reported(t + [e]) == Reported(t) + (if e.query.Settle? then [e.query.id] else [])
    ensures forall how :: Settled(t + [e], how) ==
                          Settled(t, how) + (if e.query.Settle? && e.query.how == how then [e.query.id] else [])
    ensures forall id :: Inits(t + [e], id) == Inits(t, id) + (if e.query == InitProducer(id) then 1 else 0)
  {
    assert (t + [e])[..|t|] == t;
  }

  lemma {:induction false} BaseCallsAppend(s: Trace, t: Trace)
    ensures BaseCalls(s + t) == BaseCalls(s) + BaseCalls(t)
  {
    if t == [] {
      assert s + t == s;
    } else {
      var front, e := t[..|t| - 1], t[|t| - 1];
      assert t == front + [e] && s + t == (s + front) + [e];
      BaseCallsAppend(s, front);
      Recorded(s + front, e);
      Recorded(front, e);
    }
  }
}
