/**
 Handling messages in `serveQueue` of run/source/azure/servicebus. The handler of a message
 and the goroutine that renews its lock share the variable `running`, one per message. Handlers
 run one after the other; renewal goroutines of earlier messages may still be around. Accesses
 to `running` are taken to be sequentially consistent.
 */
module LockRenewal {

  datatype HandlerPc = Invoking | StoringRunning(ok: bool) | Settling(ok: bool) | Returned(ok: bool, failed: bool)

  datatype RenewerPc =
    | CheckInterval | CheckRunning | Sleeping | Renewing | CheckError(failed: bool) | Cancelling | Stopped

  datatype Settlement = Complete | Abandon

  /**
   The handling of one message. `late` counts the RenewLocks calls started after `running`
   became false, `errorWhileRunning` records that a renewal error was acted on, and each
   settlement is recorded with whether its context was cancelled.
   */
  datatype Handling = Handling(
    renews: bool, running: bool, cancelled: bool,
    handler: HandlerPc, renewer: RenewerPc,
    late: nat, errorWhileRunning: bool, settlements: seq<(Settlement, bool)>)

  function Start(renews: bool): Handling {
    Handling(renews, true, false, Invoking, CheckInterval, 0, false, [])
  }

  /** `failed`: the fn, or the settlement, returned an error. */
  function StepHandler(h: Handling, failed: bool): Handling {
    match h.handler
    case Invoking => h.(handler := StoringRunning(!failed))
    case StoringRunning(ok) => h.(handler := Settling(ok), running := false)
    case Settling(ok) =>
      h.(handler := Returned(ok, failed),
         settlements := h.settlements + [(if ok then Complete else Abandon, h.cancelled)])
    case Returned(_, _) => h
  }

  /** `failed`: RenewLocks returned an error. */
  function StepRenewer(h: Handling, failed: bool): Handling {
    match h.renewer
    case CheckInterval => h.(renewer := if h.renews then CheckRunning else Stopped)
    case CheckRunning => h.(renewer := if h.running then Sleeping else Stopped)
    case Sleeping => h.(renewer := Renewing, late := if h.running then h.late else h.late + 1)
    case Renewing => h.(renewer := CheckError(failed))
    case CheckError(err) =>
      if err && h.running then h.(renewer := Cancelling, errorWhileRunning := true) else h.(renewer := CheckRunning)
    case Cancelling => h.(renewer := CheckRunning, cancelled := true)
    case Stopped => h
  }

  // ---- the loop over messages -----------------------------------------------------

  /** `ended`: the loop has returned an error. */
  datatype State = State(renews: bool, messages: seq<Handling>, ended: bool)

  datatype Action =
    | Receive(failed: bool)
    | HandlerStep(failed: bool)
    | RenewerStep(message: nat, failed: bool)

  predicate Idle(s: State) {
    s.messages == [] || s.messages[|s.messages| - 1].handler.Returned?
  }

  function Step(s: State, a: Action): State {
    match a
    case Receive(failed) =>
      if s.ended || !Idle(s) then s
      else if failed then s.(ended := true)
      else s.(messages := s.messages + [Start(s.renews)])
    case HandlerStep(failed) =>
      if Idle(s) then s else
      var last := |s.messages| - 1;
      var h := StepHandler(s.messages[last], failed);
      s.(messages := s.messages[last := h], ended := s.ended || (h.handler.Returned? && h.handler.failed))
    case RenewerStep(k, failed) =>
      if k >= |s.messages| then s else s.(messages := s.messages[k := StepRenewer(s.messages[k], failed)])
  }

  function Run(renews: bool, acts: seq<Action>): State {
    if acts == [] then State(renews, [], false) else Step(Run(renews, acts[..|acts| - 1]), acts[|acts| - 1])
  }

  // ---- invariants -------------------------------------------------------------------

  predicate HandlingInv(h: Handling) {
    && (h.running <==> h.handler.Invoking? || h.handler.StoringRunning?)
    && (h.running ==> h.late == 0)
    && h.late + (if h.renewer.Sleeping? && !h.running then 1 else 0) <= 1
    && (h.cancelled || h.renewer.Cancelling? <==> h.errorWhileRunning)
    && (h.errorWhileRunning ==> h.renews)
    && (h.renews && h.renewer.Stopped? ==> !h.running)
    && (!h.renews ==> (h.renewer.CheckInterval? || h.renewer.Stopped?) && h.late == 0)
    && (!h.handler.Returned? ==> h.settlements == [])
    && (h.handler.Returned? ==>
          && |h.settlements| == 1
          && h.settlements[0].0 == (if h.handler.ok then Complete else Abandon)
          && (h.settlements[0].1 ==> h.errorWhileRunning))
  }

  ghost predicate Inv(s: State) {
    && (forall k :: 0 <= k < |s.messages| ==> HandlingInv(s.messages[k]) && s.messages[k].renews == s.renews)
    && (forall k :: 0 <= k < |s.messages| - 1 ==> s.messages[k].handler.Returned?)
  }

  lemma HandlerKeepsInv(h: Handling, failed: bool)
    requires HandlingInv(h)
    ensures HandlingInv(StepHandler(h, failed))
  {
  }

  lemma RenewerKeepsInv(h: Handling, failed: bool)
    requires HandlingInv(h)
    ensures HandlingInv(StepRenewer(h, failed))
  {
  }

  lemma StepKeepsInv(s: State, a: Action)
    requires Inv(s)
    ensures Inv(Step(s, a))
  {
    hide HandlingInv, StepHandler, StepRenewer;
    match a
    case Receive(_) => StartInv(s.renews);
    case HandlerStep(failed) =>
      if !Idle(s) {
        HandlerKeepsInv(s.messages[|s.messages| - 1], failed);
        StepKeepsRest(s.messages[|s.messages| - 1], failed);
      }
    case RenewerStep(k, failed) =>
      if k < |s.messages| {
        RenewerKeepsInv(s.messages[k], failed);
        StepKeepsRest(s.messages[k], failed);
      }
  }

  lemma StartInv(renews: bool)
    ensures HandlingInv(Start(renews))
  {
  }

  lemma StepKeepsRest(h: Handling, failed: bool)
    ensures StepHandler(h, failed).renews == h.renews
    ensures StepRenewer(h, failed).renews == h.renews && StepRenewer(h, failed).handler == h.handler
  {
  }

  lemma {:induction false} ReachableInv(renews: bool, acts: seq<Action>)
    ensures Inv(Run(renews, acts)) && Run(renews, acts).renews == renews
  {
    if acts != [] {
      ReachableInv(renews, acts[..|acts| - 1]);
      StepKeepsInv(Run(renews, acts[..|acts| - 1]), acts[|acts| - 1]);
    }
  }

  /**
   Main result, every interleaving: once `running` is false at most one more RenewLocks starts;
   a context is cancelled, or about to be, if and only if a renewal error was acted on while the fn
   was running;
   without an interval there is neither renewal nor cancellation.
   */
  lemma {:induction false} RenewalStops(renews: bool, acts: seq<Action>, k: nat)
    requires k < |Run(renews, acts).messages|
    ensures var h := Run(renews, acts).messages[k];
            && h.late <= 1
            && (h.running ==> h.late == 0)
            && (h.cancelled || h.renewer.Cancelling? <==> h.errorWhileRunning)
            && (h.errorWhileRunning ==> renews)
            && (!renews ==> h.renewer.CheckInterval? || h.renewer.Stopped?)
  {
    ReachableInv(renews, acts);
  }

  /** How many steps a renewal goroutine has left once `running` is false. */
  function StepsLeft(h: Handling): nat {
    match h.renewer
    case CheckInterval => if h.renews then 2 else 1
    case CheckRunning => 1
    case Sleeping => 4
    case Renewing => 3
    case CheckError(_) => 2
    case Cancelling => 2
    case Stopped => 0
  }

  /** Once `running` is false the goroutine winds down: every step it takes is one of its last four. */
  lemma RenewerWindsDown(h: Handling, failed: bool)
    requires !h.running && !h.renewer.Stopped?
    ensures StepsLeft(StepRenewer(h, failed)) == StepsLeft(h) - 1 <= 3
    ensures StepsLeft(h) == 1 <==> StepRenewer(h, failed).renewer.Stopped?
  {
  }

  /**
   Main result: a message whose handler returned was settled exactly once, completed if and only
   if the fn returned a nil error, and with a cancelled context only after a renewal error. Every
   message but the last has been settled, and no message is settled before its fn returns.
   */
  lemma {:induction false} SettledExactlyOnce(renews: bool, acts: seq<Action>, k: nat)
    requires k < |Run(renews, acts).messages|
    ensures var s := Run(renews, acts);
            var h := s.messages[k];
            && (h.handler.Returned? ==>
                  && |h.settlements| == 1
                  && (h.settlements[0].0 == Complete <==> h.handler.ok)
                  && (h.settlements[0].1 ==> h.errorWhileRunning))
            && (!h.handler.Returned? ==> h.settlements == [] && k == |s.messages| - 1)
  {
    ReachableInv(renews, acts);
  }

  // ---- when a cancellation reaches the settlement -------------------------------------

  /** The goroutine of message k cancels while the handler of that message is still at work. */
  predicate CancelsEarly(s: State, a: Action, k: nat) {
    && a.RenewerStep? && a.message == k && k < |s.messages|
    && s.messages[k].renewer.Cancelling? && !s.messages[k].handler.Returned?
  }

  /** That happened in the run. */
  predicate CancelsFirst(renews: bool, acts: seq<Action>, k: nat) {
    acts != [] &&
      var front := acts[..|acts| - 1];
      CancelsFirst(renews, front, k) || CancelsEarly(Run(renews, front), acts[|acts| - 1], k)
  }

  /** Whether the settlement ran, or would now run, on a cancelled context. */
  predicate SettlesCancelled(h: Handling) {
    if h.handler.Returned? then h.settlements != [] && h.settlements[0].1 else h.cancelled
  }

  lemma HandlerKeepsVerdict(h: Handling, failed: bool)
    requires HandlingInv(h)
    ensures SettlesCancelled(StepHandler(h, failed)) == SettlesCancelled(h)
  {
  }

  lemma RenewerMovesVerdict(h: Handling, failed: bool)
    ensures SettlesCancelled(StepRenewer(h, failed)) ==
            (SettlesCancelled(h) || (h.renewer.Cancelling? && !h.handler.Returned?))
  {
  }

  lemma StepMovesVerdict(s: State, a: Action, k: nat)
    requires Inv(s) && k < |Step(s, a).messages|
    ensures SettlesCancelled(Step(s, a).messages[k]) ==
            ((k < |s.messages| && SettlesCancelled(s.messages[k])) || CancelsEarly(s, a, k))
  {
    hide HandlingInv, StepHandler, StepRenewer, SettlesCancelled;
    match a
    case Receive(_) => NotCancelledAtStart(s.renews);
    case HandlerStep(failed) =>
      if !Idle(s) {
        HandlerKeepsVerdict(s.messages[|s.messages| - 1], failed);
      }
    case RenewerStep(j, failed) =>
      if j < |s.messages| {
        RenewerMovesVerdict(s.messages[j], failed);
      }
  }

  lemma NotCancelledAtStart(renews: bool)
    ensures !SettlesCancelled(Start(renews))
  {
  }

  lemma {:induction false} NoCancelBeforeReceipt(renews: bool, acts: seq<Action>, k: nat)
    requires k >= |Run(renews, acts).messages|
    ensures !CancelsFirst(renews, acts, k)
  {
    if acts != [] {
      MessagesStay(Run(renews, acts[..|acts| - 1]), acts[|acts| - 1]);
      NoCancelBeforeReceipt(renews, acts[..|acts| - 1], k);
    }
  }

  lemma MessagesStay(s: State, a: Action)
    ensures |s.messages| <= |Step(s, a).messages|
  {
  }

  /**
   Main result: a message was settled on a cancelled context if and only if its goroutine
   cancelled while its handler was still at work.
   */
  lemma {:induction false} SettledCancelledIff(renews: bool, acts: seq<Action>, k: nat)
    requires k < |Run(renews, acts).messages|
    ensures var h := Run(renews, acts).messages[k];
            && (h.handler.Returned? ==>
                  |h.settlements| == 1 && (h.settlements[0].1 <==> CancelsFirst(renews, acts, k)))
            && (!h.handler.Returned? ==> (h.cancelled <==> CancelsFirst(renews, acts, k)))
  {
    var front := acts[..|acts| - 1];
    var s := Run(renews, front);
    ReachableInv(renews, front);
    ReachableInv(renews, acts);
    hide Step, Inv, HandlingInv;
    StepMovesVerdict(s, acts[|acts| - 1], k);
    if k < |s.messages| {
      SettledCancelledIff(renews, front, k);
    } else {
      NoCancelBeforeReceipt(renews, front, k);
    }
    if Run(renews, acts).messages[k].handler.Returned? {
      OneSettlement(Run(renews, acts), k);
    }
  }

  lemma OneSettlement(s: State, k: nat)
    requires Inv(s) && k < |s.messages| && s.messages[k].handler.Returned?
    ensures |s.messages[k].settlements| == 1
  {
  }

  /** The rest of a run, from a given state. */
  function Continue(s: State, acts: seq<Action>): State
    decreases |acts|
  {
    if acts == [] then s else Continue(Step(s, acts[0]), acts[1..])
  }

  lemma {:induction false} RunIsContinue(renews: bool, acts: seq<Action>, more: seq<Action>)
    ensures Run(renews, acts + more) == Continue(Run(renews, acts), more)
    decreases |more|
  {
    if more == [] {
      assert acts + more == acts;
    } else {
      assert acts + more == (acts + [more[0]]) + more[1..];
      assert (acts + [more[0]])[..|acts|] == acts;
      RunIsContinue(renews, acts + [more[0]], more[1..]);
    }
  }

  lemma ContinueOnce(s: State, a: Action, rest: seq<Action>)
    ensures Continue(s, [a] + rest) == Continue(Step(s, a), rest)
  {
    assert ([a] + rest)[1..] == rest;
  }

  // ---- when a cancellation can still reach the settlement ------------------------------

  /** The run goes on with `more`, and message k has then been settled on a cancelled context. */
  predicate EndsCancelled(s: State, more: seq<Action>, k: nat) {
    var s' := Continue(s, more);
    k < |s'.messages| && s'.messages[k].handler.Returned? && SettlesCancelled(s'.messages[k])
  }

  /** A renewal error was acted on, or the fn is running and renewals can still fail. */
  predicate Open(h: Handling) {
    h.errorWhileRunning || (h.running && h.renews)
  }

  /** Neither has happened nor can. */
  predicate Safe(h: Handling) {
    !SettlesCancelled(h) && (!h.handler.Returned? ==> !Open(h))
  }

  lemma SafeStays(h: Handling, failed: bool)
    requires HandlingInv(h) && Safe(h)
    ensures Safe(StepHandler(h, failed)) && Safe(StepRenewer(h, failed))
  {
  }

  lemma StepKeepsSafe(s: State, a: Action, k: nat)
    requires Inv(s) && k < |s.messages| && Safe(s.messages[k])
    ensures k < |Step(s, a).messages| && Safe(Step(s, a).messages[k])
  {
    hide HandlingInv, StepHandler, StepRenewer, Safe;
    assert HandlingInv(s.messages[k]);
    match a
    case Receive(_) =>
    case HandlerStep(failed) => SafeStays(s.messages[k], failed);
    case RenewerStep(_, failed) => SafeStays(s.messages[k], failed);
  }

  lemma {:induction false} SafeForever(s: State, more: seq<Action>, k: nat)
    requires Inv(s) && k < |s.messages| && Safe(s.messages[k])
    ensures !EndsCancelled(s, more, k)
    decreases |more|
  {
    if more != [] {
      hide Inv, Safe, Step;
      StepKeepsSafe(s, more[0], k);
      StepKeepsInv(s, more[0]);
      SafeForever(Step(s, more[0]), more[1..], k);
    }
  }

  /** The steps left to a cancelled settlement, and the next of them. */
  function Distance(h: Handling): nat {
    if h.cancelled then
      (match h.handler
       case Invoking => 3
       case StoringRunning(_) => 2
       case Settling(_) => 1
       case Returned(_, _) => 0)
    else
      3 + (match h.renewer
           case CheckInterval => 6
           case CheckRunning => 5
           case Sleeping => 4
           case Renewing => 3
           case CheckError(failed) => if failed then 2 else 6
           case Cancelling => 1
           case Stopped => 0)
  }

  function NextStep(k: nat, h: Handling): Action {
    if h.cancelled then HandlerStep(false) else RenewerStep(k, true)
  }

  lemma OneStepCloser(h: Handling)
    requires HandlingInv(h) && !h.handler.Returned? && Open(h)
    ensures var h' := if h.cancelled then StepHandler(h, false) else StepRenewer(h, true);
            && Distance(h') < Distance(h)
            && if h'.handler.Returned? then SettlesCancelled(h') else Open(h')
  {
  }

  lemma {:induction false} WayToCancelled(s: State, k: nat) returns (more: seq<Action>)
    requires Inv(s) && k < |s.messages| && !s.messages[k].handler.Returned? && Open(s.messages[k])
    ensures EndsCancelled(s, more, k)
    decreases Distance(s.messages[k])
  {
    var h := s.messages[k];
    var a := NextStep(k, h);
    var s' := Step(s, a);
    assert HandlingInv(h) && k == |s.messages| - 1;
    OneStepCloser(h);
    StepKeepsInv(s, a);
    hide Inv, HandlingInv, StepHandler, StepRenewer, Distance, SettlesCancelled, Open;
    assert s'.messages[k] == if h.cancelled then StepHandler(h, false) else StepRenewer(h, true);
    var rest := [];
    if !s'.messages[k].handler.Returned? {
      rest := WayToCancelled(s', k);
    }
    more := [a] + rest;
    ContinueOnce(s, a, rest);
  }

  /**
   Main result for messages at work: a message can still come to be settled on a cancelled context
   if and only if a renewal error was acted on, or its fn is running and its lock is being renewed.
   So from the moment `running` is false only the former decides.
   */
  lemma {:induction false} CanEndCancelledIff(renews: bool, acts: seq<Action>, k: nat)
    requires k < |Run(renews, acts).messages| && !Run(renews, acts).messages[k].handler.Returned?
    ensures var h := Run(renews, acts).messages[k];
            (exists more :: EndsCancelled(Run(renews, acts), more, k))
            <==> h.errorWhileRunning || (h.running && renews)
  {
    var s := Run(renews, acts);
    ReachableInv(renews, acts);
    assert HandlingInv(s.messages[k]) && s.messages[k].renews == renews;
    hide Run, Step, Inv, EndsCancelled;
    if Open(s.messages[k]) {
      var more := WayToCancelled(s, k);
    } else {
      forall more
        ensures !EndsCancelled(s, more, k)
      {
        SafeForever(s, more, k);
      }
    }
  }

  /** A message is received, its lock renewal fails while the fn runs, and the goroutine is about to cancel. */
  const RENEWAL_FAILS := [Receive(false), RenewerStep(0, false), RenewerStep(0, false)]
                         + [RenewerStep(0, false), RenewerStep(0, true), RenewerStep(0, false)]

  /** The fn returns nil, `running` is cleared, the context is cancelled, the message is completed. */
  const CANCEL_THEN_SETTLE := [HandlerStep(false), HandlerStep(false)] + [RenewerStep(0, false), HandlerStep(false)]

  lemma RenewalFails(s: State)
    requires s == State(true, [], false)
    ensures Continue(s, RENEWAL_FAILS) ==
            State(true, [Start(true).(renewer := Cancelling, errorWhileRunning := true)], false)
  {
    var a, b := RenewerStep(0, false), RenewerStep(0, true);
    assert RENEWAL_FAILS == [Receive(false)] + ([a] + ([a] + ([a] + ([b] + ([a] + [])))));
    ContinueOnce(s, Receive(false), [a] + ([a] + ([a] + ([b] + ([a] + [])))));
    var s1 := State(true, [Start(true)], false);
    ContinueOnce(s1, a, [a] + ([a] + ([b] + ([a] + []))));
    var s2 := State(true, [Start(true).(renewer := CheckRunning)], false);
    ContinueOnce(s2, a, [a] + ([b] + ([a] + [])));
    var s3 := State(true, [Start(true).(renewer := Sleeping)], false);
    ContinueOnce(s3, a, [b] + ([a] + []));
    var s4 := State(true, [Start(true).(renewer := Renewing)], false);
    ContinueOnce(s4, b, [a] + []);
    var s5 := State(true, [Start(true).(renewer := CheckError(true))], false);
    ContinueOnce(s5, a, []);
    assert Step(s, Receive(false)) == s1 && Step(s1, a) == s2 && Step(s2, a) == s3;
    assert Step(s3, a) == s4 && Step(s4, b) == s5;
  }

  lemma CancelThenSettle(s: State, h: Handling)
    requires s == State(true, [h], false) && h == Start(true).(renewer := Cancelling, errorWhileRunning := true)
    ensures Continue(s, CANCEL_THEN_SETTLE) ==
            State(true, [h.(running := false, cancelled := true, renewer := CheckRunning,
                            handler := Returned(true, false), settlements := [(Complete, true)])], false)
  {
    var a, b := HandlerStep(false), RenewerStep(0, false);
    assert CANCEL_THEN_SETTLE == [a] + ([a] + ([b] + ([a] + [])));
    ContinueOnce(s, a, [a] + ([b] + ([a] + [])));
    var s1 := State(true, [h.(handler := StoringRunning(true))], false);
    ContinueOnce(s1, a, [b] + ([a] + []));
    var s2 := State(true, [h.(handler := Settling(true), running := false)], false);
    ContinueOnce(s2, b, [a] + []);
    var s3 := State(true, [s2.messages[0].(renewer := CheckRunning, cancelled := true)], false);
    ContinueOnce(s3, a, []);
    var h4 := s3.messages[0].(handler := Returned(true, false), settlements := [(Complete, true)]);
    assert Step(s, a) == s1 && Step(s1, a) == s2 && Step(s2, b) == s3;
    assert StepHandler(s3.messages[0], false) == h4;
    assert Step(s3, a) == State(true, [h4], false);
  }

  /** A cancellation can still hit the settlement: the fn succeeds, yet Complete runs on a cancelled context. */
  lemma CancelCanReachSettlement()
    ensures var s := Run(true, RENEWAL_FAILS + CANCEL_THEN_SETTLE);
            && |s.messages| == 1 && s.messages[0].handler == Returned(true, false)
            && s.messages[0].settlements == [(Complete, true)]
  {
    hide Continue, Run;
    var s := Start(true).(renewer := Cancelling, errorWhileRunning := true);
    NothingReceived(true);
    RunIsContinue(true, [], RENEWAL_FAILS);
    assert [] + RENEWAL_FAILS == RENEWAL_FAILS;
    RenewalFails(State(true, [], false));
    RunIsContinue(true, RENEWAL_FAILS, CANCEL_THEN_SETTLE);
    CancelThenSettle(State(true, [s], false), s);
  }

  lemma NothingReceived(renews: bool)
    ensures Run(renews, []) == State(renews, [], false)
  {
  }
}
