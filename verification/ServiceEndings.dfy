/**
 Every call of the service ends with the truth: what it returns is what its own steps met. The
 failures and lines handed out are conserved in what calls return, not only in the records.
 */
module ServiceEndings {
  import opened Values
  import opened ServiceSupervisor

  /** What can happen to a call that decides what it returns. */
  datatype Deed = LaunchFails | WriteFails | LineComes | ContextEnds | ErrorComes | KillFails

  /** Where the call is when it happens, and by which step. */
  predicate Meets(pc: Pc, choice: Choice, deed: Deed) {
    match deed
    case LaunchFails => pc.Launch? && choice.Fails?
    case WriteFails => pc.WriteInput? && choice.Fails?
    case LineComes => pc.Selecting? && choice.TakeOutput?
    case ContextEnds => pc.Selecting? && choice.TakeContext?
    case ErrorComes => pc.Selecting? && choice.TakeError?
    case KillFails => pc.KillProcess? && choice.Fails?
  }

  predicate Does(s: State, a: Action, id: nat, deed: Deed) {
    a.CallerStep? && a.id == id && id in s.calls && Meets(s.calls[id].pc, a.choice, deed)
  }

  /** It happened to the call in this run. */
  predicate Did(acts: seq<Action>, id: nat, deed: Deed) {
    acts != [] &&
      var front := acts[..|acts| - 1];
      Did(front, id, deed) || (Run(front).Some? && Does(Run(front).value, acts[|acts| - 1], id, deed))
  }

  /** The cause a call gives for being interrupted. */
  function CauseOf(pc: Pc): Option<Cause> {
    match pc
    case ClearAlive(cause) => Some(cause)
    case KillProcess(cause) => Some(cause)
    case Done(Interrupted(cause, _)) => Some(cause)
    case _ => None
  }

  /** What the call returns, or is about to return, says that it happened. */
  predicate Tells(pc: Pc, deed: Deed) {
    match deed
    case LaunchFails => pc == Done(StartFailed)
    case WriteFails => pc == Done(WriteFailed)
    case LineComes => pc.Done? && pc.ending.Replied?
    case ContextEnds => CauseOf(pc) == Some(CtxEnded)
    case ErrorComes => CauseOf(pc).Some? && CauseOf(pc).value.ChildFailed?
    case KillFails => pc.Done? && pc.ending.Interrupted? && !pc.ending.killed
  }

  lemma StartTells(s: State, id: nat, choice: Choice, deed: Deed)
    requires id in s.calls && InStart(s.calls[id].pc) && StepStart(s, id, choice).Some?
    ensures var s', pc := StepStart(s, id, choice).value, s.calls[id].pc;
            && id in s'.calls && s'.calls == s.calls[id := s'.calls[id]]
            && (Tells(s'.calls[id].pc, deed) <==> Tells(pc, deed) || Meets(pc, choice, deed))
            && s'.reported == s.reported && s'.delivered == s.delivered
  {
  }

  lemma KillTells(s: State, id: nat, choice: Choice, deed: Deed)
    requires id in s.calls && InKill(s.calls[id].pc) && StepKill(s, id, choice).Some?
    ensures var s', pc := StepKill(s, id, choice).value, s.calls[id].pc;
            && id in s'.calls && s'.calls == s.calls[id := s'.calls[id]]
            && (Tells(s'.calls[id].pc, deed) <==> Tells(pc, deed) || Meets(pc, choice, deed))
            && CauseOf(s'.calls[id].pc) == CauseOf(pc)
            && s'.reported == s.reported && s'.delivered == s.delivered
  {
  }

  lemma InvokeTells(s: State, id: nat, choice: Choice, deed: Deed)
    requires id in s.calls && !InStart(s.calls[id].pc) && !InKill(s.calls[id].pc) && StepInvoke(s, id, choice).Some?
    ensures var s', pc := StepInvoke(s, id, choice).value, s.calls[id].pc;
            && id in s'.calls && s'.calls == s.calls[id := s'.calls[id]]
            && (Tells(s'.calls[id].pc, deed) <==> Tells(pc, deed) || Meets(pc, choice, deed))
  {
  }

  lemma ChildTellsNothing(s: State, a: Action)
    requires !a.Begin? && !a.CallerStep? && a.gen < |s.children| && StepChild(s, a).Some?
    ensures var s' := StepChild(s, a).value;
            s'.calls == s.calls && s'.reported == s.reported && s'.delivered == s.delivered
  {
  }

  lemma StepTells(s: State, a: Action, id: nat, deed: Deed)
    requires Step(s, a).Some? && id in Step(s, a).value.calls
    ensures Tells(Step(s, a).value.calls[id].pc, deed) <==>
            (id in s.calls && Tells(s.calls[id].pc, deed)) || Does(s, a, id, deed)
    ensures id !in s.calls ==> a.Begin? && a.id == id
  {
    hide StepStart, StepKill, StepInvoke, StepChild;
    match a
    case Begin(_, _) =>
    case CallerStep(t, choice) =>
      if InStart(s.calls[t].pc) {
        StartTells(s, t, choice, deed);
      } else if InKill(s.calls[t].pc) {
        KillTells(s, t, choice, deed);
      } else {
        InvokeTells(s, t, choice, deed);
      }
    case _ => ChildTellsNothing(s, a);
  }

  lemma CallsStay(s: State, a: Action)
    requires Step(s, a).Some?
    ensures s.calls.Keys <= Step(s, a).value.calls.Keys
  {
    hide StepStart, StepKill, StepInvoke, StepChild, Tells, Meets;
    match a
    case Begin(_, _) =>
    case CallerStep(t, choice) =>
      if InStart(s.calls[t].pc) {
        StartTells(s, t, choice, LineComes);
      } else if InKill(s.calls[t].pc) {
        KillTells(s, t, choice, LineComes);
      } else {
        InvokeTells(s, t, choice, LineComes);
      }
    case _ => ChildTellsNothing(s, a);
  }

  lemma {:induction false} NothingBeforeBegin(acts: seq<Action>, id: nat, deed: Deed)
    requires Run(acts).Some? && id !in Run(acts).value.calls
    ensures !Did(acts, id, deed)
  {
    if acts != [] {
      var front, a := acts[..|acts| - 1], acts[|acts| - 1];
      CallsStay(Run(front).value, a);
      hide Step;
      NothingBeforeBegin(front, id, deed);
    }
  }

  /**
   Main result, any run with any callers: a call returns a failed start, a failed write, a line, the
   end of its context, the failure of a child or a failed kill if and only if that is what it met.
   */
  lemma {:induction false} EndingIff(acts: seq<Action>, id: nat, deed: Deed)
    requires Run(acts).Some? && id in Run(acts).value.calls
    ensures Tells(Run(acts).value.calls[id].pc, deed) <==> Did(acts, id, deed)
  {
    var front, a := acts[..|acts| - 1], acts[|acts| - 1];
    var s := Run(front).value;
    StepTells(s, a, id, deed);
    hide Step, Tells, Does;
    if id in s.calls {
      EndingIff(front, id, deed);
    } else {
      NothingBeforeBegin(front, id, deed);
    }
  }

  // ---- what is handed out is what is returned -----------------------------------------

  /** The calls that report the failure of a generation. */
  function Blaming(s: State, g: nat): set<nat> {
    set id | id in s.calls && CauseOf(s.calls[id].pc) == Some(ChildFailed(g))
  }

  /** The calls that return a line. */
  function Returning(s: State, line: Line): set<nat> {
    set id | id in s.calls && s.calls[id].pc == Done(Replied(line))
  }

  function CountLine(lines: seq<Line>, line: Line): nat {
    if lines == [] then 0 else
      CountLine(lines[..|lines| - 1], line) + (if lines[|lines| - 1] == line then 1 else 0)
  }

  lemma CountLineOne(lines: seq<Line>, l: Line)
    ensures forall line :: CountLine(lines + [l], line) == CountLine(lines, line) + (if line == l then 1 else 0)
  {
    assert (lines + [l])[..|lines|] == lines;
  }

  ghost predicate Handed(s: State, g: nat, line: Line) {
    |Blaming(s, g)| == Count(s.reported, g) && |Returning(s, line)| == CountLine(s.delivered, line)
  }

  /** A step that hands nothing out changes no call's answer. */
  lemma SameAnswersSameCounts(s: State, s': State, id: nat, g: nat, line: Line)
    requires Handed(s, g, line) && id in s'.calls && s'.calls == s.calls[id := s'.calls[id]]
    requires s'.reported == s.reported && s'.delivered == s.delivered
    requires (CauseOf(s'.calls[id].pc) == Some(ChildFailed(g))) ==
             (id in s.calls && CauseOf(s.calls[id].pc) == Some(ChildFailed(g)))
    requires (s'.calls[id].pc == Done(Replied(line))) == (id in s.calls && s.calls[id].pc == Done(Replied(line)))
    ensures Handed(s', g, line)
  {
    hide CauseOf;
    assert Blaming(s', g) == Blaming(s, g);
    assert Returning(s', line) == Returning(s, line);
  }

  /** A call that gave no cause before adds at most itself to those that do. */
  lemma BlamingMoves(s: State, s': State, id: nat, g: nat)
    requires id in s.calls && id in s'.calls && s'.calls == s.calls[id := s'.calls[id]]
    requires CauseOf(s.calls[id].pc) == None
    ensures |Blaming(s', g)| == |Blaming(s, g)| + (if CauseOf(s'.calls[id].pc) == Some(ChildFailed(g)) then 1 else 0)
  {
    hide CauseOf;
    if CauseOf(s'.calls[id].pc) == Some(ChildFailed(g)) {
      assert Blaming(s', g) == Blaming(s, g) + {id};
    } else {
      assert Blaming(s', g) == Blaming(s, g);
    }
  }

  lemma ReturningMoves(s: State, s': State, id: nat, line: Line)
    requires id in s.calls && id in s'.calls && s'.calls == s.calls[id := s'.calls[id]]
    requires !s.calls[id].pc.Done?
    ensures |Returning(s', line)| == |Returning(s, line)| + (if s'.calls[id].pc == Done(Replied(line)) then 1 else 0)
  {
    if s'.calls[id].pc == Done(Replied(line)) {
      assert Returning(s', line) == Returning(s, line) + {id};
    } else {
      assert Returning(s', line) == Returning(s, line);
    }
  }

  lemma TakeErrorHands(s: State, id: nat, g: nat, line: Line)
    requires Handed(s, g, line) && id in s.calls && s.calls[id].pc.Selecting? && s.errors != []
    ensures Handed(StepInvoke(s, id, TakeError).value, g, line)
  {
    hide Blaming, Returning, Count, CountLine;
    var s' := StepInvoke(s, id, TakeError).value;
    CountOne(s.reported, s.errors[0]);
    BlamingMoves(s, s', id, g);
    ReturningMoves(s, s', id, line);
  }

  lemma TakeOutputHands(s: State, id: nat, g: nat, line: Line)
    requires Handed(s, g, line) && id in s.calls && s.calls[id].pc.Selecting? && s.outputs != []
    ensures Handed(StepInvoke(s, id, TakeOutput).value, g, line)
  {
    hide Blaming, Returning, Count, CountLine;
    var s' := StepInvoke(s, id, TakeOutput).value;
    CountLineOne(s.delivered, s.outputs[0]);
    BlamingMoves(s, s', id, g);
    ReturningMoves(s, s', id, line);
  }

  lemma InvokeHands(s: State, id: nat, choice: Choice, g: nat, line: Line)
    requires Handed(s, g, line)
    requires id in s.calls && !InStart(s.calls[id].pc) && !InKill(s.calls[id].pc) && StepInvoke(s, id, choice).Some?
    ensures Handed(StepInvoke(s, id, choice).value, g, line)
  {
    hide Handed;
    if s.calls[id].pc.Selecting? && choice.TakeError? {
      TakeErrorHands(s, id, g, line);
    } else if s.calls[id].pc.Selecting? && choice.TakeOutput? {
      TakeOutputHands(s, id, g, line);
    } else {
      SameAnswersSameCounts(s, StepInvoke(s, id, choice).value, id, g, line);
    }
  }

  lemma StartHands(s: State, id: nat, choice: Choice, g: nat, line: Line)
    requires Handed(s, g, line) && id in s.calls && InStart(s.calls[id].pc) && StepStart(s, id, choice).Some?
    ensures Handed(StepStart(s, id, choice).value, g, line)
  {
    StartTells(s, id, choice, LineComes);
    StartTells(s, id, choice, ErrorComes);
    hide Handed, StepStart;
    SameAnswersSameCounts(s, StepStart(s, id, choice).value, id, g, line);
  }

  lemma KillHands(s: State, id: nat, choice: Choice, g: nat, line: Line)
    requires Handed(s, g, line) && id in s.calls && InKill(s.calls[id].pc) && StepKill(s, id, choice).Some?
    ensures Handed(StepKill(s, id, choice).value, g, line)
  {
    KillTells(s, id, choice, LineComes);
    hide Handed, StepKill;
    SameAnswersSameCounts(s, StepKill(s, id, choice).value, id, g, line);
  }

  lemma StepHands(s: State, a: Action, g: nat, line: Line)
    requires Handed(s, g, line) && Step(s, a).Some?
    ensures Handed(Step(s, a).value, g, line)
  {
    hide Handed, StepStart, StepKill, StepInvoke, StepChild;
    match a
    case Begin(id, _) => SameAnswersSameCounts(s, Step(s, a).value, id, g, line);
    case CallerStep(id, choice) =>
      if InStart(s.calls[id].pc) {
        StartHands(s, id, choice, g, line);
      } else if InKill(s.calls[id].pc) {
        KillHands(s, id, choice, g, line);
      } else {
        InvokeHands(s, id, choice, g, line);
      }
    case _ =>
      ChildTellsNothing(s, a);
      SameRecords(s, Step(s, a).value, g, line);
  }

  lemma SameRecords(s: State, s': State, g: nat, line: Line)
    requires Handed(s, g, line) && s'.calls == s.calls && s'.reported == s.reported && s'.delivered == s.delivered
    ensures Handed(s', g, line)
  {
    assert Blaming(s', g) == Blaming(s, g) && Returning(s', line) == Returning(s, line);
  }

  /**
   Main result, any run: every failure taken from the error channel is the answer of exactly one
   call, and every line taken from the output channel is the reply of exactly one call.
   */
  lemma {:induction false} AnswersAreConserved(acts: seq<Action>, g: nat, line: Line)
    requires Run(acts).Some?
    ensures var s := Run(acts).value;
            && |Blaming(s, g)| == Count(s.reported, g)
            && |Returning(s, line)| == CountLine(s.delivered, line)
  {
    if acts == [] {
      assert Blaming(INIT, g) == {} && Returning(INIT, line) == {};
    } else {
      var front := acts[..|acts| - 1];
      AnswersAreConserved(front, g, line);
      hide Blaming, Returning, Step;
      StepHands(Run(front).value, acts[|acts| - 1], g, line);
    }
  }

  // ---- scanners that stop ------------------------------------------------------------------

  /** The scanner of the generation stopped in this run. */
  predicate DidStop(acts: seq<Action>, g: nat) {
    acts != [] &&
      var front := acts[..|acts| - 1];
      DidStop(front, g) || (Run(front).Some? && acts[|acts| - 1] == ScannerStops(g))
  }

  lemma StartKeepsClosed(s: State, id: nat, choice: Choice, g: nat)
    requires id in s.calls && InStart(s.calls[id].pc) && StepStart(s, id, choice).Some?
    requires Owns(s.children, id, s.calls[id].pc)
    ensures var s' := StepStart(s, id, choice).value;
            && |s.children| <= |s'.children|
            && (g < |s.children| ==> (s'.children[g].scanner.Closed? <==> s.children[g].scanner.Closed?)
                                     && s'.children[g].scanned == s.children[g].scanned)
            && (|s.children| <= g < |s'.children| ==> !s'.children[g].scanner.Closed?)
  {
  }

  lemma OthersKeepClosed(s: State, id: nat, choice: Choice, g: nat)
    requires id in s.calls && !InStart(s.calls[id].pc) && Step(s, CallerStep(id, choice)).Some? && g < |s.children|
    ensures var s' := Step(s, CallerStep(id, choice)).value;
            && |s'.children| == |s.children|
            && s'.children[g].scanner == s.children[g].scanner && s'.children[g].scanned == s.children[g].scanned
  {
  }

  lemma ChildKeepsClosed(s: State, a: Action, g: nat)
    requires !a.Begin? && !a.CallerStep? && a.gen < |s.children| && StepChild(s, a).Some? && g < |s.children|
    ensures var s' := StepChild(s, a).value;
            && |s'.children| == |s.children|
            && (s'.children[g].scanner.Closed? <==> s.children[g].scanner.Closed? || a == ScannerStops(g))
            && (s.children[g].scanner.Closed? ==> s'.children[g].scanned == s.children[g].scanned)
  {
  }

  lemma StepKeepsClosed(s: State, a: Action, g: nat)
    requires Inv(s) && Step(s, a).Some?
    ensures var s' := Step(s, a).value;
            && |s.children| <= |s'.children|
            && (g < |s'.children| ==>
                  (s'.children[g].scanner.Closed? <==>
                   (g < |s.children| && s.children[g].scanner.Closed?) || a == ScannerStops(g)))
            && (g < |s.children| && s.children[g].scanner.Closed? ==> s'.children[g].scanned == s.children[g].scanned)
            && (a == ScannerStops(g) ==> g < |s.children|)
  {
    hide StepStart, StepKill, StepInvoke, StepChild, LineInv, ErrorInv, OnGen, Count;
    match a
    case Begin(_, _) =>
    case CallerStep(id, choice) =>
      if InStart(s.calls[id].pc) {
        assert Owns(s.children, id, s.calls[id].pc);
        StartKeepsClosed(s, id, choice, g);
      } else if g < |s.children| {
        OthersKeepClosed(s, id, choice, g);
      } else {
        OthersKeepCount(s, id, choice);
      }
    case _ =>
      if g < |s.children| {
        ChildKeepsClosed(s, a, g);
      } else {
        ChildKeepsCount(s, a);
      }
  }

  lemma OthersKeepCount(s: State, id: nat, choice: Choice)
    requires id in s.calls && !InStart(s.calls[id].pc) && Step(s, CallerStep(id, choice)).Some?
    ensures |Step(s, CallerStep(id, choice)).value.children| == |s.children|
  {
  }

  lemma ChildKeepsCount(s: State, a: Action)
    requires !a.Begin? && !a.CallerStep? && a.gen < |s.children| && StepChild(s, a).Some?
    ensures |StepChild(s, a).value.children| == |s.children|
  {
  }

  /** A scanner is closed exactly if it has stopped, and scans nothing more from then on. */
  lemma {:induction false} ClosedIff(acts: seq<Action>, g: nat)
    requires Run(acts).Some?
    ensures DidStop(acts, g) <==> g < |Run(acts).value.children| && Run(acts).value.children[g].scanner.Closed?
  {
    if acts != [] {
      var front := acts[..|acts| - 1];
      ClosedIff(front, g);
      ReachableInv(front);
      StepKeepsClosed(Run(front).value, acts[|acts| - 1], g);
      hide Step, Inv;
    }
  }
}
