/**
 The lambda source (run/source/lambda): fetch the next invocation, invoke the fn, post the
 response or the error under the id just fetched.
 */
module LambdaSource {
  import opened Values
  import opened World
  import opened Components
  import opened Delivery
  import Accounting
  import Inputs

  /** An HTTP response to `next`, by the headers the source looks at; "" stands for no header. */
  datatype Response = Response(requestId: string, deadlineMs: Option<int>, arn: string, traceId: string, event: Value)

  /** What one turn of the loop meets: an ended context, a failed fetch, an unreadable body, an invocation. */
  datatype Turn =
    | CtxEnded(err: Err)
    | FetchFailed(err: Err)
    | Unreadable(requestId: string, err: Err)
    | Next(response: Response)

  datatype Served = StillServing | Stopped(err: Err)

  const BASE := 0x11_0000

  /** Request ids by number; the invocation a post is for is named by the header of the fetch. */
  function IdOf(requestId: string): nat {
    if requestId == "" then 0 else
      var last := |requestId| - 1;
      IdOf(requestId[..last]) * (BASE + 1) + requestId[last] as int + 1
  }

  /** Different headers have different numbers. */
  lemma {:induction false} IdsDiffer(a: string, b: string)
    requires IdOf(a) == IdOf(b)
    ensures a == b
  {
    if a != "" && b != "" {
      var x, y := a[|a| - 1] as int, b[|b| - 1] as int;
      assert 0 <= x < BASE && 0 <= y < BASE;
      IdsDiffer(a[..|a| - 1], b[..|b| - 1]);
      assert a == a[..|a| - 1] + [a[|a| - 1]] && b == b[..|b| - 1] + [b[|b| - 1]];
    }
  }

  function Header(key: string, text: string): map<string, Value> {
    if text != "" then map[key := Str(text)] else map[]
  }

  function Deadline(ms: Option<int>): map<string, Value> {
    if ms.Some? then map["LambdaRuntimeDeadlineMs" := Int(ms.value)] else map[]
  }

  /** The input of an invocation: headers that are absent leave no key. */
  function InputOf(resp: Response): Value {
    Map(Header("LambdaRuntimeAwsRequestId", resp.requestId)
        + Deadline(resp.deadlineMs)
        + Header("LambdaRuntimeInvokedFunctionArn", resp.arn)
        + Header("LambdaRuntimeTraceId", resp.traceId)
        + map["event" := resp.event])
  }

  method AddHeader(fields: map<string, Value>, key: string, text: string) returns (fields': map<string, Value>)
    ensures fields' == fields + Header(key, text)
  {
    fields' := fields;
    if text != "" {
      fields' := fields'[key := Str(text)];
    }
  }

  /** `createInput`, once the body has been read: the map is filled step by step. */
  method CreateInput(resp: Response) returns (input: Value)
    ensures input == InputOf(resp)
  {
    hide Header;
    var fields := AddHeader(map[], "LambdaRuntimeAwsRequestId", resp.requestId);
    if resp.deadlineMs.Some? {
      fields := fields["LambdaRuntimeDeadlineMs" := Int(resp.deadlineMs.value)];
    }
    assert fields == Header("LambdaRuntimeAwsRequestId", resp.requestId) + Deadline(resp.deadlineMs);
    fields := AddHeader(fields, "LambdaRuntimeInvokedFunctionArn", resp.arn);
    fields := AddHeader(fields, "LambdaRuntimeTraceId", resp.traceId);
    fields := fields["event" := resp.event];
    return Map(fields);
  }

  /** The value under a key of an input. */
  function Entry(input: Value, key: string): Option<Value> {
    if input.Map? && key in input.m then Some(input.m[key]) else None
  }

  /** The fn finds every header under its own key, and no key for a header that is absent or empty. */
  lemma InputShowsResponse(resp: Response)
    ensures Entry(InputOf(resp), "event") == Some(resp.event)
    ensures Entry(InputOf(resp), "LambdaRuntimeAwsRequestId") ==
            if resp.requestId == "" then None else Some(Str(resp.requestId))
    ensures Entry(InputOf(resp), "LambdaRuntimeInvokedFunctionArn") ==
            if resp.arn == "" then None else Some(Str(resp.arn))
    ensures Entry(InputOf(resp), "LambdaRuntimeTraceId") == if resp.traceId == "" then None else Some(Str(resp.traceId))
    ensures Entry(InputOf(resp), "LambdaRuntimeDeadlineMs") ==
            if resp.deadlineMs.None? then None else Some(Int(resp.deadlineMs.value))
  {
  }

  // ---- one answer per invocation, in order ------------------------------------------

  /** Posts answer fetches in order, and at most one fetched invocation is unanswered. */
  predicate InStep(t: Trace) {
    Reported(t) <= Receives(t) && |Receives(t)| <= |Reported(t)| + 1
  }

  /** At every moment of the trace. A post therefore carries the id fetched last. */
  ghost predicate AlwaysInStep(t: Trace) {
    forall n {:trigger t[..n]} :: 0 <= n <= |t| ==> InStep(t[..n])
  }

  /** Every fetched invocation has been answered. */
  predicate Answered(t: Trace) {
    Reported(t) == Receives(t)
  }

  lemma PostCarriesLastId(t: Trace, p: nat)
    requires AlwaysInStep(t) && p < |t| && t[p].query.Settle?
    ensures Receives(t[..p]) != [] && t[p].query.id == Receives(t[..p])[|Receives(t[..p])| - 1]
  {
    assert t[..p + 1] == t[..p] + [t[p]];
    Recorded(t[..p], t[p]);
    assert InStep(t[..p]) && InStep(t[..p + 1]);
    var posted, fetched := Reported(t[..p]), Receives(t[..p]);
    assert posted + [t[p].query.id] <= fetched && |fetched| <= |posted| + 1;
    assert fetched == posted + [t[p].query.id];
  }

  lemma {:induction false} SilentStaysInStep(w: Trace, w': Trace)
    requires AlwaysInStep(w) && w <= w'
    requires forall k :: |w| <= k < |w'| ==> !w'[k].query.Receive? && !w'[k].query.Settle?
    ensures AlwaysInStep(w')
  {
    forall n | 0 <= n <= |w'|
      ensures InStep(w'[..n])
    {
      if n <= |w| {
        assert w'[..n] == w[..n];
      } else {
        SilentKeepsLists(w, w'[..n]);
        assert w[..|w|] == w;
      }
    }
  }

  lemma OneMoreInStep(w: Trace, e: Event)
    requires AlwaysInStep(w) && InStep(w + [e])
    ensures AlwaysInStep(w + [e])
  {
    forall n | 0 <= n <= |w| + 1
      ensures InStep((w + [e])[..n])
    {
      if n <= |w| {
        assert (w + [e])[..n] == w[..n];
      } else {
        assert (w + [e])[..n] == w + [e];
      }
    }
  }

  lemma FetchInStep(w: Trace, id: nat)
    requires AlwaysInStep(w) && Answered(w)
    ensures AlwaysInStep(w + [Event(Receive(id), NO_ANSWER)])
  {
    Recorded(w, Event(Receive(id), NO_ANSWER));
    OneMoreInStep(w, Event(Receive(id), NO_ANSWER));
  }

  /** From the fetch through the fn to the post. */
  lemma TurnInStep(o: Oracle, w: Trace, ctx: Ctx, f: Fn, id: nat, input: Value)
    requires AlwaysInStep(w) && Answered(w)
    ensures AlwaysInStep(Deliver(o, w, ctx, f, id, input).world)
  {
    var w1 := w + [Event(Receive(id), NO_ANSWER)];
    FetchInStep(w, id);
    Accounting.FnAccounted(o, w1, ctx, f, input);
    SilentStaysInStep(w1, Deliver(o, w, ctx, f, id, input).world);
  }

  lemma PostInStep(o: Oracle, w: Trace, id: nat, how: Settlement)
    requires AlwaysInStep(w) && Receives(w) == Reported(w) + [id]
    ensures AlwaysInStep(Report(o, w, id, how)) && Answered(Report(o, w, id, how))
  {
    ReportAccounts(o, w, id, how);
    OneMoreInStep(w, Event(Settle(id, how), o(w, Settle(id, how))));
  }

  // ---- the loop ------------------------------------------------------------------------

  /** The data posted for an output, or the error that ends Serve: a map has to be marshalled first. */
  function Encode(o: Oracle, w: Trace, output: Value): (Option<Err>, Trace) {
    if output.Map? then (o(w, MarshalJson(output)).err, Ask(o, w, MarshalJson(output))) else (None, w)
  }

  lemma EncodeIsQuiet(o: Oracle, w: Trace, output: Value)
    ensures Accounting.Quiet(w, Encode(o, w, output).1)
  {
    Accounting.AskIsQuiet(o, w, MarshalJson(output));
  }

  /**
   One invocation, read and answered: an error is posted as an error, and a post that fails ends
   Serve; a nil error is posted as a response, and whether that post fails is not looked at.
   */
  function Handle(o: Oracle, w: Trace, ctx: Ctx, f: Fn, resp: Response): (Option<Err>, Trace) {
    var r := Deliver(o, w, ctx, f, IdOf(resp.requestId), InputOf(resp));
    var id := IdOf(resp.requestId);
    if r.out.err.Some? then (o(r.world, Settle(id, Posted(o, r))).err, Report(o, r.world, id, Posted(o, r)))
    else
      var (err, w2) := Encode(o, r.world, r.out.output);
      if err.Some? then (err, w2) else (None, Report(o, w2, id, Posted(o, r)))
  }

  /** What is posted for a reply: its error, or its output, a map as the library marshals it. */
  function Posted(o: Oracle, r: Reply): Settlement {
    if r.out.err.Some? then PostError(r.out.err.value)
    else if r.out.output.Map? then Respond(o(r.world, MarshalJson(r.out.output)).value)
    else Respond(r.out.output)
  }

  /** The invocation is answered: its fn failed, or its output needs no marshalling or could be marshalled. */
  predicate Answers(o: Oracle, r: Reply) {
    || r.out.err.Some?
    || !r.out.output.Map?
    || o(r.world, MarshalJson(r.out.output)).err.None?
  }

  lemma HandleAccounts(o: Oracle, w: Trace, ctx: Ctx, f: Fn, resp: Response)
    ensures var id := IdOf(resp.requestId);
            var r := Deliver(o, w, ctx, f, id, InputOf(resp));
            var (err, w') := Handle(o, w, ctx, f, resp);
            && Receives(w') == Receives(w) + [id]
            && Reported(w') == Reported(w) + (if Answers(o, r) then [id] else [])
            && (err.None? ==> Answers(o, r))
            && (Justified(w) ==> Justified(w'))
            && (AlwaysInStep(w) && Answered(w) ==> AlwaysInStep(w') && (Answers(o, r) <==> Answered(w')))
  {
    hide Deliver, Report, Justified, AlwaysInStep, InputOf, Receives, Reported, IdOf;
    var id := IdOf(resp.requestId);
    var r := Deliver(o, w, ctx, f, id, InputOf(resp));
    var (err, w2) := Encode(o, r.world, r.out.output);
    DeliverAccounts(o, w, ctx, f, id, InputOf(resp));
    EncodeIsQuiet(o, r.world, r.out.output);
    QuietKeepsStep(r.world, w2);
    ReportAccounts(o, r.world, id, Posted(o, r));
    ReportAccounts(o, w2, id, Posted(o, r));
    HandleJustified(o, w, ctx, f, resp);
    HandleInStep(o, w, ctx, f, resp);
  }

  lemma HandleJustified(o: Oracle, w: Trace, ctx: Ctx, f: Fn, resp: Response)
    ensures Justified(w) ==> Justified(Handle(o, w, ctx, f, resp).1)
  {
    hide Deliver, Report, Justified, InputOf, Encode;
    var input := InputOf(resp);
    var r := Deliver(o, w, ctx, f, IdOf(resp.requestId), input);
    var (err, w2) := Encode(o, r.world, r.out.output);
    NothingIsQuiet(r.world);
    EncodeIsQuiet(o, r.world, r.out.output);
    if Justified(w) {
      DeliverAccounts(o, w, ctx, f, IdOf(resp.requestId), input);
      QuietKeepsJustified(r.world, w2);
      if r.out.err.Some? {
        ReportIsJustified(o, w, ctx, f, IdOf(resp.requestId), input, r.world, Posted(o, r));
      } else {
        ReportIsJustified(o, w, ctx, f, IdOf(resp.requestId), input, w2, Posted(o, r));
      }
    }
  }

  lemma QuietKeepsJustified(w: Trace, w': Trace)
    requires Justified(w) && Accounting.Quiet(w, w')
    ensures Justified(w')
  {
    LongerKeepsJustified(w, w');
  }

  lemma QuietKeepsStep(w: Trace, w': Trace)
    requires Accounting.Quiet(w, w')
    ensures AlwaysInStep(w) ==> AlwaysInStep(w')
    ensures Receives(w') == Receives(w) && Reported(w') == Reported(w)
  {
    SilentKeepsLists(w, w');
    if AlwaysInStep(w) {
      SilentStaysInStep(w, w');
    }
  }

  lemma HandleInStep(o: Oracle, w: Trace, ctx: Ctx, f: Fn, resp: Response)
    ensures AlwaysInStep(w) && Answered(w) ==>
              && AlwaysInStep(Handle(o, w, ctx, f, resp).1)
              && (Handle(o, w, ctx, f, resp).0.None? ==> Answered(Handle(o, w, ctx, f, resp).1))
  {
    hide Deliver, Report, AlwaysInStep, InputOf, Encode, Receives, Reported;
    if AlwaysInStep(w) && Answered(w) {
      var r := Deliver(o, w, ctx, f, IdOf(resp.requestId), InputOf(resp));
      var (err, w2) := Encode(o, r.world, r.out.output);
      DeliverAccounts(o, w, ctx, f, IdOf(resp.requestId), InputOf(resp));
      TurnInStep(o, w, ctx, f, IdOf(resp.requestId), InputOf(resp));
      EncodeIsQuiet(o, r.world, r.out.output);
      QuietKeepsStep(r.world, w2);
      PostInStep(o, r.world, IdOf(resp.requestId), Posted(o, r));
      PostInStep(o, w2, IdOf(resp.requestId), Posted(o, r));
    }
  }

  /**
   What one invocation asks, written out, for a business fn without layers: it is called with the
   headers and the event; its error is posted as an error, its output as a response, a map as
   marshalled and not at all if that fails.
   */
  lemma HandleAsks(o: Oracle, w: Trace, ctx: Ctx, b: nat, resp: Response)
    ensures var id, n, w' := IdOf(resp.requestId), |w|, Handle(o, w, ctx, Base(b), resp).1;
            && w <= w' && |w'| >= n + 3
            && var a, text := AnswerAt(w', n + 1), AnswerAt(w', n + 2);
            && Asked(w, w')[..2] == [Receive(id), CallBase(b, ctx, InputOf(resp))]
            && Asked(w, w')[2..] ==
               (if a.err.Some? then [Settle(id, PostError(a.err.value))]
                else if !a.value.Map? then [Settle(id, Respond(a.value))]
                else [MarshalJson(a.value)] + (if text.err.None? then [Settle(id, Respond(text.value))] else []))
  {
    hide InputOf, IdOf, Asked, Deliver, Report;
    var id := IdOf(resp.requestId);
    var r := Deliver(o, w, ctx, Base(b), id, InputOf(resp));
    DeliverToBase(o, w, ctx, b, id, InputOf(resp));
    ReportAsks(o, w, r.world, id, Posted(o, r));
    var w2 := Ask(o, r.world, MarshalJson(r.out.output));
    AskedMore(w, r.world, Event(MarshalJson(r.out.output), o(r.world, MarshalJson(r.out.output))));
    ReportAsks(o, w, w2, id, Posted(o, r));
  }

  /**
   The error a turn ends with, in terms of what was answered: that of the post if the fn failed, that
   of the marshalling if there was one, and none otherwise.
   */
  lemma HandleEnds(o: Oracle, w: Trace, ctx: Ctx, f: Fn, resp: Response)
    ensures var r := Deliver(o, w, ctx, f, IdOf(resp.requestId), InputOf(resp));
            var (err, w') := Handle(o, w, ctx, f, resp);
            && r.world <= w'
            && err == (if r.out.err.Some? then AnswerAt(w', |w'| - 1).err
                       else if r.out.output.Map? then AnswerAt(w', |r.world|).err
                       else None)
  {
    hide Deliver, InputOf, IdOf;
  }

  /** A turn ends Serve exactly if it meets an ended context, a failed fetch, an unreadable body or such an error. */
  lemma TurnEndsIff(o: Oracle, w: Trace, ctx: Ctx, f: Fn, turn: Turn)
    ensures AfterTurn(o, w, ctx, f, turn).0 ==
            match turn
            case CtxEnded(err) => Some(err)
            case FetchFailed(err) => Some(err)
            case Unreadable(_, err) => Some(err)
            case Next(response) =>
              var r := Deliver(o, w, ctx, f, IdOf(response.requestId), InputOf(response));
              var w' := AfterTurn(o, w, ctx, f, turn).1;
              if r.out.err.Some? then AnswerAt(w', |w'| - 1).err
              else if r.out.output.Map? then AnswerAt(w', |r.world|).err
              else None
  {
    hide Deliver, InputOf, IdOf, Handle;
    if turn.Next? {
      HandleEnds(o, w, ctx, f, turn.response);
    }
  }

  /** A response that was posted had a delivery with exactly one business call, which returned nil. */
  lemma RespondedMeansHandled(w: Trace, p: nat)
    requires Justified(w) && p < |w| && w[p].query.Settle? && w[p].query.how.Respond?
    ensures exists s :: 0 <= s < p && Justifies(w, s, p)
  {
    assert IsAckEvent(w[p]);
  }

  /** Any fn is called with what its layers make of that input. */
  lemma HandleMakes(o: Oracle, w: Trace, ctx: Ctx, f: Fn, resp: Response)
    ensures var received := w + [Event(Receive(IdOf(resp.requestId)), NO_ANSWER)];
            Inputs.Makes(w, Handle(o, w, ctx, f, resp).1, Inputs.Given(o, received, ctx, f, InputOf(resp)))
  {
    hide InputOf, IdOf, Deliver, Report, BaseCalls, Inputs.Given;
    var id := IdOf(resp.requestId);
    var r := Deliver(o, w, ctx, f, id, InputOf(resp));
    DeliverMakes(o, w, ctx, f, id, InputOf(resp));
    DeliverAccounts(o, w, ctx, f, id, InputOf(resp));
    EncodeIsQuiet(o, r.world, r.out.output);
    var w2 := Encode(o, r.world, r.out.output).1;
    ReportAsks(o, r.world, r.world, id, Posted(o, r));
    ReportAsks(o, r.world, w2, id, Posted(o, r));
  }

  /**
   Whether a response could be posted makes no difference to the turn: two outside worlds that
   differ only in that lead to the same error, and to the same trace but for that answer.
   */
  lemma ResponsePostIgnored(o: Oracle, o': Oracle, w: Trace, ctx: Ctx, f: Fn, resp: Response)
    requires forall t: Trace, q: Query :: !(q.Settle? && q.how.Respond?) ==> o(t, q) == o'(t, q)
    ensures var (err, w1) := Handle(o, w, ctx, f, resp);
            var (err', w1') := Handle(o', w, ctx, f, resp);
            && err == err' && |w1| == |w1'|
            && (forall k :: 0 <= k < |w1| - 1 ==> w1[k] == w1'[k])
            && (w1 != w1' ==>
                  && w1[|w1| - 1].query == w1'[|w1| - 1].query
                  && w1[|w1| - 1].query.Settle? && w1[|w1| - 1].query.how.Respond?)
  {
    hide InvokeFn, InputOf, IdOf;
    assert Accounting.AgreeButSettling(o, o');
    var w1 := w + [Event(Receive(IdOf(resp.requestId)), NO_ANSWER)];
    Accounting.FnIgnoresSettling(o, o', w1, ctx, f, InputOf(resp));
  }

  /** A business fn that returns an empty map, and a library that cannot marshal it. */
  const UNMARSHALLABLE: Oracle := (w: Trace, q: Query) =>
    if q.MarshalJson? then Answer(Nil, Some(External(0)), []) else Answer(Map(map[]), None, [])

  /** Not always answered: the fn succeeds, Serve ends with an error, and nothing was posted. */
  lemma SuccessCanGoUnanswered(resp: Response)
    ensures var r := Deliver(UNMARSHALLABLE, [], Background, Base(0), IdOf(resp.requestId), InputOf(resp));
            var (err, w) := Handle(UNMARSHALLABLE, [], Background, Base(0), resp);
            && r.out.err.None? && err == Some(External(0))
            && Receives(w) == [IdOf(resp.requestId)] && Reported(w) == [] && !Answered(w)
  {
    HandleAccounts(UNMARSHALLABLE, [], Background, Base(0), resp);
    hide Handle, Receives, Reported;
    NothingYet();
    var r := Deliver(UNMARSHALLABLE, [], Background, Base(0), IdOf(resp.requestId), InputOf(resp));
    assert r.out == Outcome(Map(map[]), None);
    UnmarshallableEnds(resp, r);
  }

  lemma NothingYet()
    ensures Receives([]) == [] && Reported([]) == []
  {
  }

  lemma UnmarshallableEnds(resp: Response, r: Reply)
    requires r == Deliver(UNMARSHALLABLE, [], Background, Base(0), IdOf(resp.requestId), InputOf(resp))
    requires r.out == Outcome(Map(map[]), None)
    ensures Handle(UNMARSHALLABLE, [], Background, Base(0), resp).0 == Some(External(0))
  {
    hide Deliver;
  }

  /** The loop body after the fetch. */
  method HandleNext(resp: Response, ctx: Ctx, f: Fn, o: Oracle, w: Trace) returns (err: Option<Err>, w': Trace)
    ensures (err, w') == Handle(o, w, ctx, f, resp)
  {
    hide Deliver, Report;
    var input := CreateInput(resp);
    var r := Deliver(o, w, ctx, f, IdOf(resp.requestId), input);
    if r.out.err.Some? {
      var how := PostError(r.out.err.value);
      return o(r.world, Settle(IdOf(resp.requestId), how)).err, Report(o, r.world, IdOf(resp.requestId), how);
    }
    var data := r.out.output;
    w' := r.world;
    if r.out.output.Map? {
      data := o(w', MarshalJson(r.out.output)).value;
      err := o(w', MarshalJson(r.out.output)).err;
      w' := Ask(o, w', MarshalJson(r.out.output));
      if err.Some? {
        return;
      }
    }
    return None, Report(o, w', IdOf(resp.requestId), Respond(data));
  }

  /** One turn: the trace after it, and the error that ends Serve. */
  function AfterTurn(o: Oracle, w: Trace, ctx: Ctx, f: Fn, turn: Turn): (Option<Err>, Trace) {
    match turn
    case CtxEnded(err) => (Some(err), w)
    case FetchFailed(err) => (Some(err), w)
    case Unreadable(requestId, err) => (Some(err), w + [Event(Receive(IdOf(requestId)), NO_ANSWER)])
    case Next(response) => Handle(o, w, ctx, f, response)
  }

  /** Serving: the trace, the turns met, and the error that ended it. */
  datatype Standing = Standing(world: Trace, met: nat, stopped: Option<Err>)

  function AfterTurns(o: Oracle, w: Trace, ctx: Ctx, f: Fn, turns: seq<Turn>): Standing {
    if turns == [] then Standing(w, 0, None) else
      var before := AfterTurns(o, w, ctx, f, turns[..|turns| - 1]);
      if before.stopped.Some? then before else
      var (err, w') := AfterTurn(o, before.world, ctx, f, turns[|turns| - 1]);
      Standing(w', before.met + 1, err)
  }

  lemma NoTurns(o: Oracle, w: Trace, ctx: Ctx, f: Fn, turns: seq<Turn>)
    ensures AfterTurns(o, w, ctx, f, turns[..0]) == Standing(w, 0, None) && turns[..|turns|] == turns
    ensures forall ids: seq<nat> :: ids + Fetched(turns[..0]) == ids
  {
  }

  lemma OneMoreTurn(o: Oracle, w: Trace, ctx: Ctx, f: Fn, turns: seq<Turn>, k: nat)
    requires k < |turns| && AfterTurns(o, w, ctx, f, turns[..k]).stopped.None?
    ensures var before := AfterTurns(o, w, ctx, f, turns[..k]);
            var (err, w') := AfterTurn(o, before.world, ctx, f, turns[k]);
            AfterTurns(o, w, ctx, f, turns[..k + 1]) == Standing(w', before.met + 1, err)
  {
    assert turns[..k + 1][..k] == turns[..k];
  }

  /** The turns after the one that ended Serve make no difference. */
  lemma {:induction false} StoppedSkipsTurns(o: Oracle, w: Trace, ctx: Ctx, f: Fn, turns: seq<Turn>, k: nat)
    requires k <= |turns| && AfterTurns(o, w, ctx, f, turns[..k]).stopped.Some?
    ensures AfterTurns(o, w, ctx, f, turns) == AfterTurns(o, w, ctx, f, turns[..k])
    decreases |turns|
  {
    if k == |turns| {
      assert turns[..k] == turns;
    } else {
      var front := turns[..|turns| - 1];
      assert front[..k] == turns[..k];
      StoppedSkipsTurns(o, w, ctx, f, front, k);
    }
  }

  /** The id of the invocation a turn fetches, if it does. */
  function FetchedBy(turn: Turn): seq<nat> {
    match turn
    case Next(response) => [IdOf(response.requestId)]
    case Unreadable(requestId, _) => [IdOf(requestId)]
    case _ => []
  }

  function Fetched(turns: seq<Turn>): seq<nat> {
    if turns == [] then [] else Fetched(turns[..|turns| - 1]) + FetchedBy(turns[|turns| - 1])
  }

  lemma OneMoreFetched(turns: seq<Turn>, k: nat, ids: seq<nat>)
    requires k < |turns|
    ensures ids + Fetched(turns[..k + 1]) == ids + Fetched(turns[..k]) + FetchedBy(turns[k])
  {
    assert turns[..k + 1][..k] == turns[..k];
  }

  /** One turn keeps fetches and posts in step and acknowledgements justified. */
  lemma TurnAccounts(o: Oracle, w: Trace, ctx: Ctx, f: Fn, turn: Turn)
    ensures var (err, w') := AfterTurn(o, w, ctx, f, turn);
            && Receives(w') == Receives(w) + FetchedBy(turn)
            && (Justified(w) ==> Justified(w'))
            && (AlwaysInStep(w) && Answered(w) ==> AlwaysInStep(w') && (err.None? ==> Answered(w')))
  {
    hide Justified, AlwaysInStep, Receives, Reported, Handle, IdOf, Answers;
    match turn
    case Next(response) => HandleAccounts(o, w, ctx, f, response);
    case Unreadable(requestId, _) => FetchKeeps(w, IdOf(requestId));
    case _ =>
  }

  /** One turn of the loop. */
  method TakeTurn(turn: Turn, ctx: Ctx, f: Fn, o: Oracle, w: Trace) returns (err: Option<Err>, w': Trace)
    ensures (err, w') == AfterTurn(o, w, ctx, f, turn)
  {
    hide Handle, IdOf;
    match turn {
      case CtxEnded(e) => return Some(e), w;
      case FetchFailed(e) => return Some(e), w;
      case Unreadable(requestId, e) => return Some(e), w + [Event(Receive(IdOf(requestId)), NO_ANSWER)];
      case Next(response) => err, w' := HandleNext(response, ctx, f, o, w);
    }
  }

  /**
   Serve for as many turns as are observed: it goes through them one after the other up to the
   first that ends it, the last one `met`, and has fetched exactly their invocations. Started with
   nothing unanswered, posts and fetches stay in step at every moment, every invocation but the
   last has been answered, and every response is justified.
   */
  method Serve(turns: seq<Turn>, ctx: Ctx, f: Fn, o: Oracle, w: Trace)
    returns (served: Served, w': Trace, met: nat)
    ensures Standing(w', met, if served.Stopped? then Some(served.err) else None) == AfterTurns(o, w, ctx, f, turns)
    ensures met <= |turns| && Receives(w') == Receives(w) + Fetched(turns[..met])
    ensures served.StillServing? ==> met == |turns|
    ensures served.Stopped? ==>
              && met > 0 && var before := AfterTurns(o, w, ctx, f, turns[..met - 1]);
              before.stopped.None? && AfterTurn(o, before.world, ctx, f, turns[met - 1]) == (Some(served.err), w')
    ensures AlwaysInStep(w) && Answered(w) ==> AlwaysInStep(w') && (served.StillServing? ==> Answered(w'))
    ensures Justified(w) ==> Justified(w')
  {
    hide *;
    NoTurns(o, w, ctx, f, turns);
    w', met := w, 0;
    while met < |turns|
      invariant met <= |turns| && Standing(w', met, None) == AfterTurns(o, w, ctx, f, turns[..met])
      invariant Receives(w') == Receives(w) + Fetched(turns[..met])
      invariant AlwaysInStep(w) && Answered(w) ==> AlwaysInStep(w') && Answered(w')
      invariant Justified(w) ==> Justified(w')
    {
      OneMoreTurn(o, w, ctx, f, turns, met);
      OneMoreFetched(turns, met, Receives(w));
      TurnAccounts(o, w', ctx, f, turns[met]);
      var err;
      err, w' := TakeTurn(turns[met], ctx, f, o, w');
      met := met + 1;
      if err.Some? {
        StoppedSkipsTurns(o, w, ctx, f, turns, met);
        return Stopped(err.value), w', met;
      }
    }
    return StillServing, w', met;
  }

  lemma FetchKeeps(w: Trace, id: nat)
    ensures Receives(w + [Event(Receive(id), NO_ANSWER)]) == Receives(w) + [id]
    ensures AlwaysInStep(w) && Answered(w) ==> AlwaysInStep(w + [Event(Receive(id), NO_ANSWER)])
    ensures Justified(w) ==> Justified(w + [Event(Receive(id), NO_ANSWER)])
  {
    Recorded(w, Event(Receive(id), NO_ANSWER));
    if AlwaysInStep(w) && Answered(w) {
      FetchInStep(w, id);
    }
    if Justified(w) {
      LongerKeepsJustified(w, w + [Event(Receive(id), NO_ANSWER)]);
    }
  }
}
