/**
 What the records of the lock-renewal machine stand for: each of them is tied to the steps of the
 run that were in fact taken, so that the results of LockRenewal are about the run.
 */
module LockRenewalAnswers {
  import opened LockRenewal

  /** What can happen in the handling of a message. */
  datatype Deed = FnSucceeds | FnFails | SettlementFails | RenewalFails | ErrorActedOn

  /** The step is one of message `k`, and this is what happens in it. */
  predicate Does(s: State, a: Action, k: nat, deed: Deed) {
    k < |s.messages| &&
    var h := s.messages[k];
    match deed
    case FnSucceeds => HandlerMoves(s, a, k) && h.handler.Invoking? && !a.failed
    case FnFails => HandlerMoves(s, a, k) && h.handler.Invoking? && a.failed
    case SettlementFails => HandlerMoves(s, a, k) && h.handler.Settling? && a.failed
    case RenewalFails => a.RenewerStep? && a.message == k && h.renewer.Renewing? && a.failed
    case ErrorActedOn => a.RenewerStep? && a.message == k && h.renewer == CheckError(true) && h.running
  }

  predicate HandlerMoves(s: State, a: Action, k: nat) {
    a.HandlerStep? && !Idle(s) && k == |s.messages| - 1
  }

  /** It happened in this run. */
  predicate Did(renews: bool, acts: seq<Action>, k: nat, deed: Deed) {
    acts != [] &&
      var front := acts[..|acts| - 1];
      Did(renews, front, k, deed) || Does(Run(renews, front), acts[|acts| - 1], k, deed)
  }

  /** What the handling of a message shows of it. */
  predicate Shows(h: Handling, deed: Deed) {
    match deed
    case FnSucceeds => !h.handler.Invoking? && h.handler.ok
    case FnFails => !h.handler.Invoking? && !h.handler.ok
    case SettlementFails => h.handler.Returned? && h.handler.failed
    case RenewalFails => h.errorWhileRunning || h.renewer == CheckError(true)
    case ErrorActedOn => h.errorWhileRunning
  }

  lemma HandlerShows(h: Handling, failed: bool, deed: Deed)
    requires !h.handler.Returned?
    ensures Shows(StepHandler(h, failed), deed) <==>
            || Shows(h, deed)
            || (deed.FnSucceeds? && h.handler.Invoking? && !failed)
            || (deed.FnFails? && h.handler.Invoking? && failed)
            || (deed.SettlementFails? && h.handler.Settling? && failed)
  {
  }

  lemma RenewerShows(h: Handling, failed: bool, deed: Deed)
    ensures !deed.RenewalFails? ==>
              (Shows(StepRenewer(h, failed), deed) <==>
               Shows(h, deed) || (deed.ErrorActedOn? && h.renewer == CheckError(true) && h.running))
    ensures Shows(StepRenewer(h, failed), RenewalFails) ==> Shows(h, RenewalFails) || (h.renewer.Renewing? && failed)
  {
  }

  lemma StepShows(s: State, a: Action, k: nat, deed: Deed)
    requires k < |Step(s, a).messages|
    ensures var before := k < |s.messages| && Shows(s.messages[k], deed);
            && (Shows(Step(s, a).messages[k], deed) ==> before || Does(s, a, k, deed))
            && (!deed.RenewalFails? && (before || Does(s, a, k, deed)) ==> Shows(Step(s, a).messages[k], deed))
  {
    hide StepHandler, StepRenewer, Shows;
    match a
    case Receive(_) => NothingShownAtStart(s.renews, deed);
    case HandlerStep(failed) =>
      if !Idle(s) {
        HandlerShows(s.messages[|s.messages| - 1], failed, deed);
      }
    case RenewerStep(j, failed) =>
      if j < |s.messages| {
        RenewerShows(s.messages[j], failed, deed);
      }
  }

  lemma NothingShownAtStart(renews: bool, deed: Deed)
    ensures !Shows(Start(renews), deed)
  {
  }

  lemma {:induction false} NothingBeforeReceipt(renews: bool, acts: seq<Action>, k: nat, deed: Deed)
    requires k >= |Run(renews, acts).messages|
    ensures !Did(renews, acts, k, deed)
  {
    if acts != [] {
      MessagesStay(Run(renews, acts[..|acts| - 1]), acts[|acts| - 1]);
      NothingBeforeReceipt(renews, acts[..|acts| - 1], k, deed);
    }
  }

  /**
   Main result, every interleaving: the handler settles by what the fn really returned, it reports
   a settlement error exactly if there was one, and a renewal error was acted on exactly if the
   goroutine saw one while the fn was running. Only a RenewLocks that failed leaves such an error.
   */
  lemma {:induction false} RecordsAreTrue(renews: bool, acts: seq<Action>, k: nat, deed: Deed)
    requires k < |Run(renews, acts).messages|
    ensures Shows(Run(renews, acts).messages[k], deed) ==> Did(renews, acts, k, deed)
    ensures !deed.RenewalFails? && Did(renews, acts, k, deed) ==> Shows(Run(renews, acts).messages[k], deed)
  {
    var front := acts[..|acts| - 1];
    StepShows(Run(renews, front), acts[|acts| - 1], k, deed);
    hide Step, Shows, Does;
    if k < |Run(renews, front).messages| {
      RecordsAreTrue(renews, front, k, deed);
    } else {
      NothingBeforeReceipt(renews, front, k, deed);
    }
  }

  /** Main result: a context is cancelled only after a RenewLocks of that message has failed. */
  lemma {:induction false} CancelNeedsFailedRenewal(renews: bool, acts: seq<Action>, k: nat)
    requires k < |Run(renews, acts).messages|
    ensures var h := Run(renews, acts).messages[k];
            h.cancelled || h.renewer.Cancelling? || h.errorWhileRunning ==>
              Did(renews, acts, k, RenewalFails) && Did(renews, acts, k, ErrorActedOn)
  {
    RecordsAreTrue(renews, acts, k, RenewalFails);
    RecordsAreTrue(renews, acts, k, ErrorActedOn);
    RenewalStops(renews, acts, k);
  }

  /** Main result: a returned message was completed if and only if its fn returned nil, else abandoned. */
  lemma {:induction false} SettledByTheFn(renews: bool, acts: seq<Action>, k: nat)
    requires k < |Run(renews, acts).messages| && Run(renews, acts).messages[k].handler.Returned?
    ensures var h := Run(renews, acts).messages[k];
            && |h.settlements| == 1
            && (h.settlements[0].0 == Complete <==> Did(renews, acts, k, FnSucceeds))
            && (h.settlements[0].0 == Abandon <==> Did(renews, acts, k, FnFails))
  {
    SettledExactlyOnce(renews, acts, k);
    RecordsAreTrue(renews, acts, k, FnSucceeds);
    RecordsAreTrue(renews, acts, k, FnFails);
  }

  // ---- how many, and when it ends ---------------------------------------------------------

  /** A RenewLocks of message k starts although `running` is false. */
  predicate StartsLate(s: State, a: Action, k: nat) {
    a.RenewerStep? && a.message == k && k < |s.messages| && s.messages[k].renewer.Sleeping? && !s.messages[k].running
  }

  function LateRenewals(renews: bool, acts: seq<Action>, k: nat): nat {
    if acts == [] then 0 else
      var front := acts[..|acts| - 1];
      LateRenewals(renews, front, k) + (if StartsLate(Run(renews, front), acts[|acts| - 1], k) then 1 else 0)
  }

  lemma StepCountsLate(s: State, a: Action, k: nat)
    requires k < |Step(s, a).messages|
    ensures Step(s, a).messages[k].late ==
            (if k < |s.messages| then s.messages[k].late else 0) + (if StartsLate(s, a, k) then 1 else 0)
  {
  }

  lemma {:induction false} NoneLateBeforeReceipt(renews: bool, acts: seq<Action>, k: nat)
    requires k >= |Run(renews, acts).messages|
    ensures LateRenewals(renews, acts, k) == 0
  {
    if acts != [] {
      MessagesStay(Run(renews, acts[..|acts| - 1]), acts[|acts| - 1]);
      NoneLateBeforeReceipt(renews, acts[..|acts| - 1], k);
    }
  }

  lemma {:induction false} LateIsCounted(renews: bool, acts: seq<Action>, k: nat)
    requires k < |Run(renews, acts).messages|
    ensures LateRenewals(renews, acts, k) == Run(renews, acts).messages[k].late
  {
    var front := acts[..|acts| - 1];
    StepCountsLate(Run(renews, front), acts[|acts| - 1], k);
    hide Step, StartsLate;
    if k < |Run(renews, front).messages| {
      LateIsCounted(renews, front, k);
    } else {
      NoneLateBeforeReceipt(renews, front, k);
    }
  }

  /** Main result: of each message at most one RenewLocks starts after `running` became false. */
  lemma {:induction false} AtMostOneLateRenewal(renews: bool, acts: seq<Action>, k: nat)
    ensures LateRenewals(renews, acts, k) <= 1
  {
    if k < |Run(renews, acts).messages| {
      LateIsCounted(renews, acts, k);
      RenewalStops(renews, acts, k);
    } else {
      NoneLateBeforeReceipt(renews, acts, k);
    }
  }

  /** A reception fails while the loop waits for one, or a settlement fails. */
  predicate Ends(s: State, a: Action) {
    || (a.Receive? && a.failed && Idle(s) && !s.ended)
    || (a.HandlerStep? && a.failed && !Idle(s) && s.messages[|s.messages| - 1].handler.Settling?)
  }

  predicate DidEnd(renews: bool, acts: seq<Action>) {
    acts != [] &&
      var front := acts[..|acts| - 1];
      DidEnd(renews, front) || Ends(Run(renews, front), acts[|acts| - 1])
  }

  /** The messages received in a run. */
  function Received(renews: bool, acts: seq<Action>): nat {
    if acts == [] then 0 else
      var front, a := acts[..|acts| - 1], acts[|acts| - 1];
      var s := Run(renews, front);
      Received(renews, front) + (if a.Receive? && !a.failed && Idle(s) && !DidEnd(renews, front) then 1 else 0)
  }

  lemma StepEnds(s: State, a: Action)
    ensures Step(s, a).ended <==> s.ended || Ends(s, a)
    ensures |Step(s, a).messages| == |s.messages| + (if a.Receive? && !a.failed && Idle(s) && !s.ended then 1 else 0)
  {
  }

  /** The loop ends exactly when a reception or a settlement fails, and receives nothing afterwards. */
  lemma {:induction false} EndsIff(renews: bool, acts: seq<Action>)
    ensures Run(renews, acts).ended <==> DidEnd(renews, acts)
    ensures |Run(renews, acts).messages| == Received(renews, acts)
  {
    if acts != [] {
      var front := acts[..|acts| - 1];
      EndsIff(renews, front);
      StepEnds(Run(renews, front), acts[|acts| - 1]);
    }
  }

  // ---- nothing stands still -----------------------------------------------------------------

  /** A handler is through after three steps of its own, whatever its goroutine does. */
  lemma HandlerFinishes(h: Handling, fnFails: bool, between: bool, settlementFails: bool)
    requires h.handler.Invoking? && HandlingInv(h)
    ensures var h1 := StepHandler(h, fnFails);
            var h2 := StepHandler(h1, between);
            var h3 := StepHandler(h2, settlementFails);
            && h1.running && !h2.running && !h3.running
            && h3.handler == Returned(!fnFails, settlementFails)
            && h3.settlements == [(if fnFails then Abandon else Complete, h.cancelled)]
            && h3.renewer == h.renewer && h3.cancelled == h.cancelled
  {
  }

  /** While the fn runs a goroutine goes round: it renews once, and cancels if that fails. */
  lemma RenewerGoesRound(h: Handling, sleeps: bool, fails: bool, last: bool)
    requires h.running && h.renewer.CheckRunning?
    ensures var h1 := StepRenewer(h, sleeps);
            var h2 := StepRenewer(h1, sleeps);
            var h3 := StepRenewer(h2, fails);
            var h4 := StepRenewer(h3, last);
            && h1.renewer.Sleeping? && h2.renewer.Renewing? && h3.renewer == CheckError(fails)
            && (!fails ==> h4 == h)
            && (fails ==>
                  && h4.renewer.Cancelling?
                  && StepRenewer(h4, last) == h.(cancelled := true, errorWhileRunning := true))
  {
  }
}
