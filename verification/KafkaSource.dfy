/**
 The kafka source (run/source/kafka): a claim is consumed in order, a message is marked unless
 the fn returned an error, and a new session resumes at the mark. One partition is followed; its
 log is a sequence of messages with rising offsets, which may have gaps.
 */
module KafkaSource {
  import opened Values
  import opened World
  import opened Components
  import opened Delivery
  import Inputs

  datatype Message = Message(key: string, value: string, offset: nat, partition: int, topic: string, timestamp: int)

  function Offsets(ms: seq<Message>): seq<nat> {
    seq(|ms|, i requires 0 <= i < |ms| => ms[i].offset)
  }

  /** `createInput`: the map is filled key by key. */
  method CreateInput(m: Message) returns (input: Value)
    ensures input == InputOf(m)
  {
    var fields: map<string, Value> := map[];
    fields := fields["key" := Str(m.key)];
    fields := fields["value" := Str(m.value)];
    fields := fields["offset" := Int(m.offset)];
    fields := fields["partition" := Int(m.partition)];
    fields := fields["topic" := Str(m.topic)];
    fields := fields["timestamp" := Int(m.timestamp)];
    return Map(fields);
  }

  function InputOf(m: Message): Value {
    Map(map["key" := Str(m.key), "value" := Str(m.value), "offset" := Int(m.offset),
            "partition" := Int(m.partition), "topic" := Str(m.topic), "timestamp" := Int(m.timestamp)])
  }

  /** The broker's mark: the offset the next session starts at. */
  class Session {
    var mark: nat

    constructor (mark: nat)
      ensures this.mark == mark
    {
      this.mark := mark;
    }

    method MarkMessage(m: Message)
      modifies this
      ensures mark == if m.offset >= old(mark) then m.offset + 1 else old(mark)
    {
      if m.offset >= mark {
        mark := m.offset + 1;
      }
    }
  }

  /** Where a session stands that started at `start` and has marked `offsets`: past the highest of them. */
  function PastAll(offsets: seq<nat>, start: nat): nat {
    if offsets == [] then start else
      var before, last := PastAll(offsets[..|offsets| - 1], start), offsets[|offsets| - 1];
      if last >= before then last + 1 else before
  }

  /** Where consuming stands: the mark, the trace, and the error that ended the claim. */
  datatype Standing = Standing(mark: nat, world: Trace, err: Option<Err>)

  /** One message of a claim; after an error nothing more happens. */
  function AfterMessage(o: Oracle, ctx: Ctx, f: Fn, ignoreErrors: bool, s: Standing, m: Message): Standing {
    if s.err.Some? then s else
    var r := Deliver(o, s.world, ctx, f, m.offset, InputOf(m));
    if r.out.err.Some? && !ignoreErrors then s.(world := r.world, err := r.out.err)
    else s.(mark := if m.offset >= s.mark then m.offset + 1 else s.mark, world := Report(o, r.world, m.offset, Mark))
  }

  function AfterClaim(o: Oracle, ctx: Ctx, f: Fn, ignoreErrors: bool, s: Standing, claim: seq<Message>): Standing {
    if claim == [] then s else
      var last := |claim| - 1;
      AfterMessage(o, ctx, f, ignoreErrors, AfterClaim(o, ctx, f, ignoreErrors, s, claim[..last]), claim[last])
  }

  lemma OneMoreMessage(
    o: Oracle, ctx: Ctx, f: Fn, ignoreErrors: bool, s: Standing, claim: seq<Message>, k: nat)
    requires k < |claim|
    ensures claim[..k + 1] == claim[..k] + [claim[k]]
    ensures AfterClaim(o, ctx, f, ignoreErrors, s, claim[..k + 1]) ==
            AfterMessage(o, ctx, f, ignoreErrors, AfterClaim(o, ctx, f, ignoreErrors, s, claim[..k]), claim[k])
  {
    assert claim[..k + 1][..k] == claim[..k];
  }

  /** The six fields of a message, as the fn gets them. */
  function Fields(m: Message): map<string, Value> {
    map["timestamp" := Int(m.timestamp), "topic" := Str(m.topic), "partition" := Int(m.partition),
        "offset" := Int(m.offset), "value" := Str(m.value), "key" := Str(m.key)]
  }

  lemma InputIsFields(m: Message)
    ensures InputOf(m) == Map(Fields(m))
  {
    assert |"key"| == 3 && |"value"| == 5 && |"offset"| == 6 && |"partition"| == 9 && |"timestamp"| == 9;
    assert "partition"[0] != "timestamp"[0] && "value"[0] != "topic"[0];
  }

  /**
   What one message asks, written out, for a business fn without layers: it is called with the six
   fields under the consumer's context, and the message is marked unless it fails and errors count.
   */
  lemma MessageAsks(o: Oracle, ctx: Ctx, b: nat, ignoreErrors: bool, s: Standing, m: Message)
    requires s.err == None
    ensures var n, s' := |s.world|, AfterMessage(o, ctx, Base(b), ignoreErrors, s, m);
            && s.world <= s'.world && |s'.world| >= n + 2
            && var err := AnswerAt(s'.world, n + 1).err;
            && s'.err == (if ignoreErrors then None else err)
            && Asked(s.world, s'.world) == [Receive(m.offset), CallBase(b, ctx, Map(Fields(m)))]
                                           + (if ignoreErrors || err.None? then [Settle(m.offset, Mark)] else [])
  {
    InputIsFields(m);
    hide Asked, Deliver, Report, InputOf, Fields;
    var r := Deliver(o, s.world, ctx, Base(b), m.offset, InputOf(m));
    DeliverToBase(o, s.world, ctx, b, m.offset, InputOf(m));
    ReportAsks(o, s.world, r.world, m.offset, Mark);
  }

  function CallsFor(b: nat, ctx: Ctx, ms: seq<Message>): seq<Query> {
    seq(|ms|, i requires 0 <= i < |ms| => CallBase(b, ctx, Map(Fields(ms[i]))))
  }

  /** A fn without layers has been called for these messages, once each and in order. */
  predicate CalledFor(f: Fn, ctx: Ctx, w: Trace, w': Trace, ms: seq<Message>) {
    f.Base? ==> Inputs.Calls(w') == Inputs.Calls(w) + CallsFor(f.id, ctx, ms)
  }

  lemma CalledForNone(f: Fn, ctx: Ctx, w: Trace)
    ensures CalledFor(f, ctx, w, w, [])
  {
  }

  lemma CalledForMore(f: Fn, ctx: Ctx, w: Trace, w1: Trace, w2: Trace, ms: seq<Message>, more: seq<Message>)
    requires CalledFor(f, ctx, w, w1, ms) && CalledFor(f, ctx, w1, w2, more)
    ensures CalledFor(f, ctx, w, w2, ms + more)
  {
    if f.Base? {
      assert CallsFor(f.id, ctx, ms + more) == CallsFor(f.id, ctx, ms) + CallsFor(f.id, ctx, more);
    }
  }

  /** Any fn is called with what its layers make of that input. */
  lemma MessageMakes(o: Oracle, ctx: Ctx, f: Fn, ignoreErrors: bool, s: Standing, m: Message)
    requires s.err == None
    ensures Inputs.Makes(s.world, AfterMessage(o, ctx, f, ignoreErrors, s, m).world,
                         Inputs.Given(o, s.world + [Event(Receive(m.offset), NO_ANSWER)], ctx, f, Map(Fields(m))))
    ensures CalledFor(f, ctx, s.world, AfterMessage(o, ctx, f, ignoreErrors, s, m).world, [m])
  {
    InputIsFields(m);
    hide Deliver, Report, InputOf, Fields, BaseCalls;
    var r := Deliver(o, s.world, ctx, f, m.offset, InputOf(m));
    DeliverMakes(o, s.world, ctx, f, m.offset, InputOf(m));
    ReportAsks(o, r.world, r.world, m.offset, Mark);
  }

  /** The messages of a claim after the one that failed make no difference. */
  lemma {:induction false} FailureEndsClaim(
    o: Oracle, ctx: Ctx, f: Fn, ignoreErrors: bool, s: Standing, claim: seq<Message>, k: nat)
    requires k <= |claim| && AfterClaim(o, ctx, f, ignoreErrors, s, claim[..k]).err.Some?
    ensures AfterClaim(o, ctx, f, ignoreErrors, s, claim) == AfterClaim(o, ctx, f, ignoreErrors, s, claim[..k])
    decreases |claim|
  {
    if k == |claim| {
      assert claim[..k] == claim;
    } else {
      var front := claim[..|claim| - 1];
      assert front[..k] == claim[..k];
      FailureEndsClaim(o, ctx, f, ignoreErrors, s, front, k);
    }
  }

  lemma NoMessages(o: Oracle, ctx: Ctx, f: Fn, ignoreErrors: bool, s: Standing, claim: seq<Message>)
    ensures AfterClaim(o, ctx, f, ignoreErrors, s, claim[..0]) == s && claim[..|claim|] == claim
    ensures claim[..0] == [] && Offsets(claim[..0]) == [] && PastAll(Offsets(claim[..0]), s.mark) == s.mark
  {
  }

  class Consumer {
    const ctx: Ctx
    const f: Fn
    const ignoreErrors: bool

    constructor (ctx: Ctx, f: Fn, ignoreErrors: bool)
      ensures this.ctx == ctx && this.f == f && this.ignoreErrors == ignoreErrors
    {
      this.ctx, this.f, this.ignoreErrors := ctx, f, ignoreErrors;
    }

    /**
     One claim, whatever its offsets. Without an error every message is tried and marked. With
     one, at index `done`, exactly the first `done` messages are marked and exactly the first
     `done + 1` tried; this happens only if errors are not ignored. `done` is the number of marks.
     */
    method ConsumeClaim(session: Session, claim: seq<Message>, o: Oracle, w: Trace)
      returns (err: Option<Err>, w': Trace, done: nat)
      modifies session
      ensures Standing(session.mark, w', err) ==
              AfterClaim(o, ctx, f, ignoreErrors, Standing(old(session.mark), w, None), claim)
      ensures done <= |claim| && (err == None <==> done == |claim|)
      ensures session.mark == PastAll(Offsets(claim[..done]), old(session.mark))
      ensures w <= w' && Settled(w', Mark) == Settled(w, Mark) + Offsets(claim[..done])
      ensures Receives(w') == Receives(w) + Offsets(claim[..if err == None then done else done + 1])
      ensures CalledFor(f, ctx, w, w', claim[..if err == None then done else done + 1])
      ensures ignoreErrors ==> err == None
      ensures !ignoreErrors && Justified(w) ==> Justified(w')
    {
      hide Deliver, Report, Justified, Receives, Settled, Reported, InputOf, AfterClaim, PastAll, Offsets,
           CalledFor, Inputs.Makes, Inputs.Given;
      ghost var s := Standing(session.mark, w, None);
      NoMessages(o, ctx, f, ignoreErrors, s, claim);
      CalledForNone(f, ctx, w);
      w', done := w, 0;
      while done < |claim|
        invariant done <= |claim|
        invariant Standing(session.mark, w', None) == AfterClaim(o, ctx, f, ignoreErrors, s, claim[..done])
        invariant session.mark == PastAll(Offsets(claim[..done]), old(session.mark))
        invariant w <= w' && Settled(w', Mark) == Settled(w, Mark) + Offsets(claim[..done])
        invariant Receives(w') == Receives(w) + Offsets(claim[..done])
        invariant CalledFor(f, ctx, w, w', claim[..done])
        invariant !ignoreErrors && Justified(w) ==> Justified(w')
      {
        var message := claim[done];
        ghost var standing := Standing(session.mark, w', None);
        MessageMakes(o, ctx, f, ignoreErrors, standing, message);
        ghost var after := AfterMessage(o, ctx, f, ignoreErrors, standing, message).world;
        CalledForMore(f, ctx, w, w', after, claim[..done], [message]);
        OneMoreOffset(claim, done, old(session.mark));
        OneMoreMessage(o, ctx, f, ignoreErrors, s, claim, done);
        var input := CreateInput(message);
        var r := Deliver(o, w', ctx, f, message.offset, input);
        DeliverAccounts(o, w', ctx, f, message.offset, input);
        if r.out.err.Some? && !ignoreErrors {
          FailureEndsClaim(o, ctx, f, ignoreErrors, s, claim, done + 1);
          return r.out.err, r.world, done;
        }
        session.MarkMessage(message);
        MarkAccounts(o, w, w', ctx, f, message, ignoreErrors);
        w' := Report(o, r.world, message.offset, Mark);
        done := done + 1;
      }
      return None, w', done;
    }
  }

  /** What marking a message after its delivery adds to the trace. */
  lemma MarkAccounts(o: Oracle, w: Trace, w1: Trace, ctx: Ctx, f: Fn, m: Message, ignoreErrors: bool)
    requires w <= w1
    requires ignoreErrors || Deliver(o, w1, ctx, f, m.offset, InputOf(m)).out.err.None?
    ensures var w2 := Report(o, Deliver(o, w1, ctx, f, m.offset, InputOf(m)).world, m.offset, Mark);
            && w <= w2 && Settled(w2, Mark) == Settled(w1, Mark) + [m.offset]
            && Receives(w2) == Receives(w1) + [m.offset]
            && (!ignoreErrors && Justified(w1) ==> Justified(w2))
  {
    hide Deliver, Report, Justified, Receives, Settled, Reported, InputOf;
    var r := Deliver(o, w1, ctx, f, m.offset, InputOf(m));
    DeliverAccounts(o, w1, ctx, f, m.offset, InputOf(m));
    ReportAccounts(o, r.world, m.offset, Mark);
    ReportExtends(o, r.world, m.offset, Mark);
    if !ignoreErrors && Justified(w1) {
      NothingIsQuiet(r.world);
      ReportIsJustified(o, w1, ctx, f, m.offset, InputOf(m), r.world, Mark);
    }
  }

  lemma ReportExtends(o: Oracle, w: Trace, id: nat, how: Settlement)
    ensures w <= Report(o, w, id, how)
  {
  }

  lemma OneMoreOffset(claim: seq<Message>, k: nat, start: nat)
    requires k < |claim|
    ensures Offsets(claim[..k + 1]) == Offsets(claim[..k]) + [claim[k].offset]
    ensures PastAll(Offsets(claim[..k + 1]), start) ==
            var before := PastAll(Offsets(claim[..k]), start);
            if claim[k].offset >= before then claim[k].offset + 1 else before
  {
    var offsets := Offsets(claim[..k + 1]);
    assert offsets == Offsets(claim[..k]) + [claim[k].offset];
    assert offsets[..|offsets| - 1] == Offsets(claim[..k]);
  }

  lemma PrefixOfStretch(log: seq<Message>, from: nat, to: nat, n: nat)
    requires from + n <= to <= |log|
    ensures log[from..to][..n] == log[from..from + n]
  {
  }

  // ---- positions in the log ---------------------------------------------------------

  /** Offsets rise along a log. Compaction and control records leave gaps. */
  ghost predicate IsLog(log: seq<Message>) {
    forall i, j :: 0 <= i < j < |log| ==> log[i].offset < log[j].offset
  }

  /** The position of the first message at `offset` or beyond. */
  function Position(log: seq<Message>, offset: nat): (n: nat)
    ensures n <= |log|
  {
    if log == [] || log[0].offset >= offset then 0 else 1 + Position(log[1..], offset)
  }

  /** A position splits the log: before it the offsets are lower, from it on they are not. */
  lemma {:induction false} PositionSplits(log: seq<Message>, offset: nat)
    requires IsLog(log)
    ensures forall i :: 0 <= i < |log| ==> (i < Position(log, offset) <==> log[i].offset < offset)
    ensures Position(log, offset) > 0 ==> log[Position(log, offset) - 1].offset < offset
    ensures Position(log, offset) < |log| ==> log[Position(log, offset)].offset >= offset
  {
    if log != [] && log[0].offset < offset {
      PositionSplits(log[1..], offset);
      assert forall i :: 0 < i < |log| ==> log[i] == log[1..][i - 1];
    }
  }

  /** A message is at the position of its offset, and the next one at the position of the offset after it. */
  lemma PositionOf(log: seq<Message>, k: nat)
    requires IsLog(log) && k < |log|
    ensures Position(log, log[k].offset) == k && Position(log, log[k].offset + 1) == k + 1
  {
    PositionSplits(log, log[k].offset);
    PositionSplits(log, log[k].offset + 1);
  }

  function Positions(log: seq<Message>, offsets: seq<nat>): seq<nat> {
    seq(|offsets|, i requires 0 <= i < |offsets| => Position(log, offsets[i]))
  }

  /** A stretch of the log covers its positions one by one. */
  lemma PositionsOfStretch(log: seq<Message>, from: nat, to: nat)
    requires IsLog(log) && from <= to <= |log|
    ensures var ps := Positions(log, Offsets(log[from..to]));
            |ps| == to - from && forall i :: 0 <= i < |ps| ==> ps[i] == from + i
  {
    forall i | 0 <= i < to - from
      ensures Positions(log, Offsets(log[from..to]))[i] == from + i
    {
      PositionOf(log, from + i);
    }
  }

  /** Marking a stretch of messages from the mark on moves the mark past the last of them. */
  lemma {:induction false} PastStretch(log: seq<Message>, from: nat, to: nat, mark: nat)
    requires IsLog(log) && from < to <= |log| && mark <= log[from].offset
    ensures PastAll(Offsets(log[from..to]), mark) == log[to - 1].offset + 1
  {
    if from + 1 < to {
      PastStretch(log, from, to - 1, mark);
    } else {
      assert Offsets(log[from..to - 1]) == [];
    }
    hide PastAll, Offsets;
    OneMoreOfStretch(log, from, to, mark);
    assert from + 1 < to ==> log[to - 2].offset < log[to - 1].offset;
  }

  lemma MarkPastStretch(log: seq<Message>, mark: nat, to: nat)
    requires IsLog(log) && Position(log, mark) <= to <= |log|
    ensures Position(log, PastAll(Offsets(log[Position(log, mark)..to]), mark)) == to
  {
    var from := Position(log, mark);
    PositionSplits(log, mark);
    if from < to {
      hide Position, PastAll, Offsets;
      PastStretch(log, from, to, mark);
      PositionOf(log, to - 1);
    } else {
      assert Offsets(log[from..to]) == [];
    }
  }

  lemma OneMoreOfStretch(log: seq<Message>, from: nat, to: nat, mark: nat)
    requires from < to <= |log|
    ensures var before, last := PastAll(Offsets(log[from..to - 1]), mark), log[to - 1].offset;
            PastAll(Offsets(log[from..to]), mark) == if last >= before then last + 1 else before
  {
    OneMoreOffset(log[from..to], to - 1 - from, mark);
    PrefixOfStretch(log, from, to, to - from);
    PrefixOfStretch(log, from, to, to - 1 - from);
  }

  // ---- sessions ------------------------------------------------------------------

  /** First tries happen in order and without gaps: no try is beyond the frontier of the tries before it. */
  predicate InOrder(tried: seq<nat>, start: nat) {
    tried != [] ==>
      var front, last := tried[..|tried| - 1], tried[|tried| - 1];
      InOrder(front, start) && start <= last <= PastAll(front, start)
  }

  lemma OneMoreTry(tried: seq<nat>, start: nat, last: nat)
    ensures InOrder(tried + [last], start) <==> InOrder(tried, start) && start <= last <= PastAll(tried, start)
    ensures PastAll(tried + [last], start) == if last >= PastAll(tried, start) then last + 1 else PastAll(tried, start)
  {
    assert (tried + [last])[..|tried|] == tried;
  }

  /** Trying a stretch that starts at or before the frontier keeps the order. */
  lemma {:induction false} StretchInOrder(tried: seq<nat>, start: nat, stretch: seq<nat>, from: nat)
    requires InOrder(tried, start) && start <= from <= PastAll(tried, start)
    requires forall i :: 0 <= i < |stretch| ==> stretch[i] == from + i
    ensures InOrder(tried + stretch, start)
    ensures PastAll(tried + stretch, start) ==
            if from + |stretch| > PastAll(tried, start) then from + |stretch| else PastAll(tried, start)
    decreases |stretch|
  {
    hide InOrder, PastAll;
    if stretch == [] {
      assert tried + stretch == tried;
    } else {
      var front, last := stretch[..|stretch| - 1], stretch[|stretch| - 1];
      assert tried + stretch == (tried + front) + [last];
      StretchInOrder(tried, start, front, from);
      OneMoreTry(tried + front, start, last);
    }
  }

  /** Two orderly series, the second from at or before the frontier of the first, are one. */
  lemma {:induction false} SeriesInOrder(tried: seq<nat>, start: nat, more: seq<nat>, from: nat)
    requires InOrder(tried, start) && start <= from <= PastAll(tried, start) && InOrder(more, from)
    ensures InOrder(tried + more, start)
    ensures PastAll(tried + more, start) ==
            if PastAll(more, from) > PastAll(tried, start) then PastAll(more, from) else PastAll(tried, start)
    decreases |more|
  {
    if more == [] {
      assert tried + more == tried;
    } else {
      hide InOrder, PastAll;
      var front, last := more[..|more| - 1], more[|more| - 1];
      assert more == front + [last] && tried + more == (tried + front) + [last];
      OneMoreTry(front, from, last);
      SeriesInOrder(tried, start, front, from);
      OneMoreTry(tried + front, start, last);
    }
  }

  /** The positions first tried between two traces. */
  function Tried(log: seq<Message>, w: Trace, w': Trace): seq<nat>
    requires Receives(w) <= Receives(w')
  {
    Positions(log, Receives(w')[|Receives(w)|..])
  }

  /**
   How far serving has come from `start`: the mark went over exactly the messages marked, in
   order and once each; first tries were in order and left out no message of the log, at most
   one of them beyond the mark.
   */
  ghost predicate Progress(log: seq<Message>, start: nat, mark: nat, w: Trace, w': Trace) {
    var from, to := Position(log, start), Position(log, mark);
    && from <= to && w <= w'
    && Settled(w', Mark) == Settled(w, Mark) + Offsets(log[from..to])
    && Receives(w) <= Receives(w')
    && InOrder(Tried(log, w, w'), from) && to <= PastAll(Tried(log, w, w'), from) <= to + 1
  }

  /** Nothing was tried beyond the mark. */
  ghost predicate NothingFailed(log: seq<Message>, start: nat, mark: nat, w: Trace, w': Trace) {
    Receives(w) <= Receives(w') && PastAll(Tried(log, w, w'), Position(log, start)) == Position(log, mark)
  }

  /** What a source promises of the way from `start` to `mark`. */
  ghost predicate Sound(ignoreErrors: bool, log: seq<Message>, start: nat, mark: nat, w: Trace, w': Trace) {
    && Progress(log, start, mark, w, w')
    && (ignoreErrors ==> NothingFailed(log, start, mark, w, w'))
    && (!ignoreErrors && Justified(w) ==> Justified(w'))
  }

  lemma NothingServed(ignoreErrors: bool, log: seq<Message>, mark: nat, w: Trace)
    ensures Sound(ignoreErrors, log, mark, mark, w, w)
  {
    assert Tried(log, w, w) == [];
  }

  lemma TriedMore(log: seq<Message>, w: Trace, w1: Trace, w2: Trace)
    requires Receives(w) <= Receives(w1) <= Receives(w2)
    ensures Tried(log, w, w2) == Tried(log, w, w1) + Tried(log, w1, w2)
  {
    hide Receives, Position;
    var a, b, c := Receives(w), Receives(w1), Receives(w2);
    assert c[|a|..] == b[|a|..] + c[|b|..];
  }

  lemma StretchesJoin(log: seq<Message>, a: nat, b: nat, c: nat)
    requires a <= b <= c <= |log|
    ensures forall ids: seq<nat> :: ids + Offsets(log[a..b]) + Offsets(log[b..c]) == ids + Offsets(log[a..c])
  {
    assert Offsets(log[a..b]) + Offsets(log[b..c]) == Offsets(log[a..c]);
  }

  /** A claim from the mark on that marks up to position `to` and tries up to `last` makes progress. */
  lemma ClaimProgresses(
    log: seq<Message>, start: nat, mark: nat, mark': nat, last: nat, w: Trace, w1: Trace, w2: Trace)
    requires IsLog(log) && Progress(log, start, mark, w, w1) && w1 <= w2
    requires Position(log, mark) <= Position(log, mark') <= last <= Position(log, mark') + 1 && last <= |log|
    requires Settled(w2, Mark) == Settled(w1, Mark) + Offsets(log[Position(log, mark)..Position(log, mark')])
    requires Receives(w2) == Receives(w1) + Offsets(log[Position(log, mark)..last])
    ensures Progress(log, start, mark', w, w2)
    ensures NothingFailed(log, start, mark, w, w1) && last == Position(log, mark') ==>
              NothingFailed(log, start, mark', w, w2)
  {
    hide Receives, Settled, InOrder, PastAll, Position, Positions;
    var from, to := Position(log, mark), Position(log, mark');
    TriedMore(log, w, w1, w2);
    assert Receives(w2)[|Receives(w1)|..] == Offsets(log[from..last]);
    PositionsOfStretch(log, from, last);
    StretchInOrder(Tried(log, w, w1), Position(log, start), Tried(log, w1, w2), from);
    StretchesJoin(log, Position(log, start), from, to);
  }

  /**
   Main result for restarts: whatever one Serve achieved and the next one adds, resuming at the
   mark, is achieved in one: no message is skipped or marked twice.
   */
  lemma ProgressComposes(
    log: seq<Message>, start: nat, mark: nat, mark': nat, w: Trace, w1: Trace, w2: Trace)
    requires Progress(log, start, mark, w, w1) && Progress(log, mark, mark', w1, w2)
    ensures Progress(log, start, mark', w, w2)
  {
    hide Receives, Settled, InOrder, PastAll, Position, Positions;
    var a, b, c := Position(log, start), Position(log, mark), Position(log, mark');
    TriedMore(log, w, w1, w2);
    SeriesInOrder(Tried(log, w, w1), a, Tried(log, w1, w2), b);
    StretchesJoin(log, a, b, c);
  }

  /** The same for all that a source promises. */
  lemma SoundComposes(
    ignoreErrors: bool, log: seq<Message>, start: nat, mark: nat, mark': nat, w: Trace, w1: Trace, w2: Trace)
    requires Sound(ignoreErrors, log, start, mark, w, w1) && Sound(ignoreErrors, log, mark, mark', w1, w2)
    ensures Sound(ignoreErrors, log, start, mark', w, w2)
  {
    hide Receives, Settled, InOrder, PastAll, Position, Positions, Justified;
    ProgressComposes(log, start, mark, mark', w, w1, w2);
    TriedMore(log, w, w1, w2);
    SeriesInOrder(Tried(log, w, w1), Position(log, start), Tried(log, w1, w2), Position(log, mark));
  }

  /** One call of Consume: how many messages the session gets to see, and what Consume then returns. */
  datatype Round = Round(ctxEnded: bool, take: nat, consumeErr: Option<Err>)

  datatype Served = StillServing | Stopped(err: Option<Err>)

  datatype Client = NoClient | Open | Shut

  /** The messages a session gets to see: at most `take`, from the mark on. */
  function Visible(log: seq<Message>, mark: nat, take: nat): seq<Message> {
    var from := Position(log, mark);
    log[from..if from + take < |log| then from + take else |log|]
  }

  /** No message below the mark, none left out, and not more than `take`, but as many as there are. */
  lemma VisibleIs(log: seq<Message>, mark: nat, take: nat)
    requires IsLog(log)
    ensures var seen, from := Visible(log, mark, take), Position(log, mark);
            && |seen| <= take && (|seen| < take ==> from + |seen| == |log|)
            && (forall i :: 0 <= i < |seen| ==> seen[i] == log[from + i] && seen[i].offset >= mark)
            && (forall i :: 0 <= i < from ==> log[i].offset < mark)
  {
    PositionSplits(log, mark);
  }

  /** A session; the client does not pass on how its claim ended. */
  function AfterSession(
    o: Oracle, ctx: Ctx, f: Fn, ignoreErrors: bool, log: seq<Message>, s: Standing, take: nat): Standing
  {
    AfterClaim(o, ctx, f, ignoreErrors, s.(err := None), Visible(log, s.mark, take)).(err := None)
  }

  function AfterSessions(
    o: Oracle, ctx: Ctx, f: Fn, ignoreErrors: bool, log: seq<Message>, s: Standing, rounds: seq<Round>): Standing
  {
    if rounds == [] then s else
      var last := |rounds| - 1;
      var before := AfterSessions(o, ctx, f, ignoreErrors, log, s, rounds[..last]);
      AfterSession(o, ctx, f, ignoreErrors, log, before, rounds[last].take)
  }

  lemma OneMoreSession(
    o: Oracle, ctx: Ctx, f: Fn, ignoreErrors: bool, log: seq<Message>, s: Standing, rounds: seq<Round>, k: nat)
    requires k < |rounds|
    ensures var before := AfterSessions(o, ctx, f, ignoreErrors, log, s, rounds[..k]);
            AfterSessions(o, ctx, f, ignoreErrors, log, s, rounds[..k + 1]) ==
            AfterSession(o, ctx, f, ignoreErrors, log, before, rounds[k].take)
  {
    assert rounds[..k + 1][..k] == rounds[..k];
  }

  /** How many of the rounds an open client consumes, and what Serve then returns. */
  function Consumed(rounds: seq<Round>): (n: nat)
    ensures n <= |rounds|
  {
    if rounds == [] || rounds[0].ctxEnded then 0
    else if rounds[0].consumeErr.Some? then 1
    else 1 + Consumed(rounds[1..])
  }

  function Ending(rounds: seq<Round>): Served {
    if rounds == [] then StillServing
    else if rounds[0].ctxEnded then Stopped(None)
    else if rounds[0].consumeErr.Some? then Stopped(rounds[0].consumeErr)
    else Ending(rounds[1..])
  }

  /** Rounds that neither end nor fail just lead on to the rest. */
  lemma {:induction false} GoesOn(rounds: seq<Round>, k: nat)
    requires k <= |rounds| && forall i :: 0 <= i < k ==> !rounds[i].ctxEnded && rounds[i].consumeErr.None?
    ensures Consumed(rounds) == k + Consumed(rounds[k..]) && Ending(rounds) == Ending(rounds[k..])
  {
    if k > 0 {
      GoesOn(rounds[1..], k - 1);
      assert rounds[1..][k - 1..] == rounds[k..];
    } else {
      assert rounds[0..] == rounds;
    }
  }

  /** The round that ends serving, and none doing so. */
  lemma EndsHere(rounds: seq<Round>, k: nat)
    requires k <= |rounds| && forall i :: 0 <= i < k ==> !rounds[i].ctxEnded && rounds[i].consumeErr.None?
    ensures k == |rounds| ==> Consumed(rounds) == k && Ending(rounds) == StillServing
    ensures k < |rounds| && rounds[k].ctxEnded ==> Consumed(rounds) == k && Ending(rounds) == Stopped(None)
    ensures k < |rounds| && !rounds[k].ctxEnded && rounds[k].consumeErr.Some? ==>
              Consumed(rounds) == k + 1 && Ending(rounds) == Stopped(rounds[k].consumeErr)
  {
    GoesOn(rounds, k);
  }

  lemma NoSessions(
    o: Oracle, ctx: Ctx, f: Fn, ignoreErrors: bool, log: seq<Message>, s: Standing, rounds: seq<Round>)
    ensures AfterSessions(o, ctx, f, ignoreErrors, log, s, rounds[..0]) == s && rounds[..|rounds|] == rounds
  {
  }

  lemma SeesInFirst(rounds: seq<Round>, log: seq<Message>, mark: nat)
    requires SeesMessage(rounds, log, mark)
    ensures rounds != [] && !rounds[0].ctxEnded && rounds[0].take > 0 && Position(log, mark) < |log|
  {
  }

  /** There is a first round, in which there is a message to see. */
  predicate SeesMessage(rounds: seq<Round>, log: seq<Message>, mark: nat) {
    rounds != [] && !rounds[0].ctxEnded && rounds[0].take > 0 && Position(log, mark) < |log|
  }

  class KafkaSource {
    const ignoreErrors: bool
    var client: Client

    constructor (ignoreErrors: bool)
      ensures this.ignoreErrors == ignoreErrors && client == NoClient
    {
      this.ignoreErrors := ignoreErrors;
      client := NoClient;
    }

    /** A client is made once and kept, even when it has been closed. */
    method SetUpConsumerGroup(newClientErr: Option<Err>) returns (err: Option<Err>)
      modifies this
      ensures err == if old(client) == NoClient then newClientErr else None
      ensures client == if old(client) == NoClient && newClientErr == None then Open else old(client)
    {
      if client != NoClient {
        return None;
      }
      if newClientErr.Some? {
        return newClientErr;
      }
      client := Open;
      return None;
    }

    /**
     One session: a claim of at most `take` messages from the mark on. If there is one to see, one
     is tried; with errors ignored all that can be seen are marked.
     */
    method ConsumeSession(
      consumer: Consumer, session: Session, log: seq<Message>, take: nat, o: Oracle,
      ghost start: nat, ghost w: Trace, w1: Trace)
      returns (w2: Trace)
      requires IsLog(log) && Sound(consumer.ignoreErrors, log, start, session.mark, w, w1)
      modifies session
      ensures Standing(session.mark, w2, None) ==
              AfterSession(o, consumer.ctx, consumer.f, consumer.ignoreErrors, log,
                           Standing(old(session.mark), w1, None), take)
      ensures Sound(consumer.ignoreErrors, log, start, session.mark, w, w2)
      ensures consumer.ignoreErrors ==>
                Position(log, session.mark) ==
                Position(log, old(session.mark)) + |Visible(log, old(session.mark), take)|
      ensures |Receives(w1)| <= |Receives(w2)|
      ensures take > 0 && Position(log, old(session.mark)) < |log| ==> |Receives(w1)| < |Receives(w2)|
    {
      hide Progress, NothingFailed, Receives, Settled, Justified, PastAll, Position, AfterClaim;
      var mark := session.mark;
      var from := Position(log, mark);
      var claim := Visible(log, mark, take);
      var err, w', done := consumer.ConsumeClaim(session, claim, o, w1);
      var last := from + if err == None then done else done + 1;
      PrefixOfStretch(log, from, from + |claim|, done);
      PrefixOfStretch(log, from, from + |claim|, last - from);
      MarkPastStretch(log, mark, from + done);
      ClaimProgresses(log, start, mark, session.mark, last, w, w1, w');
      return w';
    }

    /**
     The goroutine of Serve, for as many rounds as are observed: an open client consumes round
     after round until one ends it, a closed one consumes nothing.
     */
    method Consume(
      consumer: Consumer, session: Session, log: seq<Message>, rounds: seq<Round>, o: Oracle, w: Trace)
      returns (served: Served, w': Trace)
      requires IsLog(log) && client != NoClient
      modifies this, session
      ensures old(client) == Open ==>
                && Standing(session.mark, w', None) ==
                   AfterSessions(o, consumer.ctx, consumer.f, consumer.ignoreErrors, log,
                                 Standing(old(session.mark), w, None), rounds[..Consumed(rounds)])
                && served == Ending(rounds) && client == (if served.Stopped? then Shut else Open)
                && |Receives(w)| <= |Receives(w')|
                && (SeesMessage(rounds, log, old(session.mark)) ==> |Receives(w)| < |Receives(w')|)
      ensures old(client) == Shut ==>
                && w' == w && session.mark == old(session.mark) && client == Shut
                && served == if rounds == [] then StillServing
                             else Stopped(if rounds[0].ctxEnded then None else Some(ClientClosed))
      ensures Sound(consumer.ignoreErrors, log, old(session.mark), session.mark, w, w')
    {
      hide *;
      ghost var s := Standing(session.mark, w, None);
      NothingServed(consumer.ignoreErrors, log, session.mark, w);
      NoSessions(o, consumer.ctx, consumer.f, consumer.ignoreErrors, log, s, rounds);
      if SeesMessage(rounds, log, session.mark) {
        SeesInFirst(rounds, log, session.mark);
      }
      w' := w;
      var i := 0;
      while i < |rounds|
        invariant 0 <= i <= |rounds|
        invariant client == old(client) && (client == Shut ==> i == 0)
        invariant forall j :: 0 <= j < i ==> !rounds[j].ctxEnded && rounds[j].consumeErr.None?
        invariant Standing(session.mark, w', None) ==
                  AfterSessions(o, consumer.ctx, consumer.f, consumer.ignoreErrors, log, s, rounds[..i])
        invariant Sound(consumer.ignoreErrors, log, s.mark, session.mark, w, w')
        invariant i == 0 ==> session.mark == s.mark && w' == w
        invariant |Receives(w)| <= |Receives(w')|
        invariant i > 0 && SeesMessage(rounds, log, s.mark) ==> |Receives(w)| < |Receives(w')|
      {
        EndsHere(rounds, i);
        if rounds[i].ctxEnded {
          client := Shut;
          return Stopped(None), w';
        }
        if client == Shut {
          return Stopped(Some(ClientClosed)), w';
        }
        OneMoreSession(o, consumer.ctx, consumer.f, consumer.ignoreErrors, log, s, rounds, i);
        w' := ConsumeSession(consumer, session, log, rounds[i].take, o, s.mark, w, w');
        if rounds[i].consumeErr.Some? {
          client := Shut;
          return Stopped(rounds[i].consumeErr), w';
        }
        i := i + 1;
      }
      EndsHere(rounds, |rounds|);
      return StillServing, w';
    }

    /**
     Serve from the position of the mark. Without a client of its own it makes one first; a client
     that was closed by an earlier Serve is kept and consumes nothing, although there are messages.
     */
    method Serve(
      ctx: Ctx, f: Fn, session: Session, log: seq<Message>, newClientErr: Option<Err>, rounds: seq<Round>,
      o: Oracle, w: Trace)
      returns (served: Served, w': Trace)
      requires IsLog(log)
      modifies this, session
      ensures old(client) == Open || (old(client) == NoClient && newClientErr.None?) ==>
                && Standing(session.mark, w', None) ==
                   AfterSessions(o, ctx, f, ignoreErrors, log, Standing(old(session.mark), w, None),
                                 rounds[..Consumed(rounds)])
                && served == Ending(rounds) && client == if served.Stopped? then Shut else Open
      ensures old(client) == NoClient && newClientErr.Some? ==>
                w' == w && session.mark == old(session.mark) && client == NoClient && served == Stopped(newClientErr)
      ensures old(client) == Shut ==>
                && w' == w && session.mark == old(session.mark) && client == Shut
                && served == if rounds == [] then StillServing
                             else Stopped(if rounds[0].ctxEnded then None else Some(ClientClosed))
      ensures SeesMessage(rounds, log, old(session.mark)) && !(old(client) == NoClient && newClientErr.Some?) ==>
                (Receives(w') == Receives(w) <==> old(client) == Shut)
      ensures Sound(ignoreErrors, log, old(session.mark), session.mark, w, w')
    {
      hide *;
      NothingServed(ignoreErrors, log, session.mark, w);
      var setUpErr := SetUpConsumerGroup(newClientErr);
      if setUpErr.Some? {
        return Stopped(setUpErr), w;
      }
      var consumer := new Consumer(ctx, f, ignoreErrors);
      served, w' := Consume(consumer, session, log, rounds, o, w);
    }

    /**
     The restart loop of the command, twice around: once the first Serve had a client and
     returned, the second consumes nothing, whatever is left in the log and however often it is
     polled. Had the first failed to make a client, the second is a first one.
     */
    method ServeTwice(
      ctx: Ctx, f: Fn, session: Session, log: seq<Message>, newClientErrs: (Option<Err>, Option<Err>),
      rounds: seq<Round>, again: seq<Round>, o: Oracle, w: Trace)
      returns (first: Served, w1: Trace, second: Served, w2: Trace)
      requires IsLog(log) && client == NoClient
      modifies this, session
      ensures Sound(ignoreErrors, log, old(session.mark), session.mark, w, w2)
      ensures newClientErrs.0.None? ==>
                && w2 == w1
                && (first.Stopped? && again != [] ==> second.Stopped?)
                && (SeesMessage(rounds, log, old(session.mark)) ==> Receives(w1) != Receives(w))
      ensures newClientErrs.0.Some? ==>
                && w1 == w
                && (newClientErrs.1.None? && SeesMessage(again, log, old(session.mark)) ==>
                      Receives(w2) != Receives(w1))
    {
      first, w1 := Serve(ctx, f, session, log, newClientErrs.0, rounds, o, w);
      if first.StillServing? {
        return first, w1, StillServing, w1;
      }
      hide *;
      ghost var mark := session.mark;
      second, w2 := Serve(ctx, f, session, log, newClientErrs.1, again, o, w1);
      SoundComposes(ignoreErrors, log, old(session.mark), mark, session.mark, w, w1, w2);
    }
  }

  /**
   What the user gets: a message between where serving started and the mark was marked by a
   delivery with one call that returned nil.
   */
  lemma MarkedMeansHandled(log: seq<Message>, start: nat, mark: nat, w: Trace, w': Trace, k: nat)
    requires IsLog(log) && Progress(log, start, mark, w, w') && Justified(w')
    requires k < |log| && start <= log[k].offset < mark
    ensures exists s, p :: 0 <= s < p < |w'| && |w| <= p
              && w'[p].query == Settle(log[k].offset, Mark) && Justifies(w', s, p)
  {
    var from, to := Position(log, start), Position(log, mark);
    PositionSplits(log, start);
    PositionSplits(log, mark);
    hide Justified, Justifies, Settled, Receives, InOrder, PastAll, Position;
    var offset := log[k].offset;
    OffsetOfStretch(log, from, to, k);
    hide Offsets;
    var p := WhereSettled(w, w', |Settled(w, Mark)| + k - from);
    JustifiedAt(w', p);
  }

  lemma OffsetOfStretch(log: seq<Message>, from: nat, to: nat, k: nat)
    requires from <= k < to <= |log|
    ensures k - from < |Offsets(log[from..to])| && Offsets(log[from..to])[k - from] == log[k].offset
  {
  }

  lemma JustifiedAt(w: Trace, p: nat)
    requires Justified(w) && p < |w| && IsAckEvent(w[p])
    ensures exists s :: 0 <= s < p && Justifies(w, s, p)
  {
  }

  /** A settlement listed after those of a prefix was made after it. */
  lemma {:induction false} WhereSettled(w: Trace, w': Trace, i: nat) returns (p: nat)
    requires w <= w' && |Settled(w, Mark)| <= i < |Settled(w', Mark)|
    ensures |w| <= p < |w'| && w'[p].query == Settle(Settled(w', Mark)[i], Mark)
    decreases |w'|
  {
    assert w != w';
    var last := |w'| - 1;
    if i == |Settled(w'[..last], Mark)| {
      return last;
    }
    p := WhereSettled(w, w'[..last], i);
  }
}
