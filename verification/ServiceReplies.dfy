/**
 Lock-step: with serial callers and children that answer at most one line per line, the replies
 of a run are the answers to their own inputs exactly if no line was taken from a generation
 that a kill had given up. Kills, exits, restarts, stopped scanners and failed writes alone do
 no harm, and without a kill every reply is right.
 */
module ServiceReplies {
  import opened Values
  import opened ServiceSupervisor
  import opened ServiceSerial

  /** What a generation answers to the last of the inputs it has had. */
  type Answerer = (nat, seq<string>) -> string

  predicate PoliteStep(answer: Answerer, s: State, a: Action) {
    a.ChildWrites? && a.gen < |s.children| ==>
      var c := s.children[a.gen];
      |c.wrote| < |c.inputs| && a.text == answer(a.gen, c.inputs[..|c.wrote| + 1])
  }

  /** Children answer line by line. */
  predicate Polite(answer: Answerer, acts: seq<Action>) {
    acts != [] ==>
      var front := acts[..|acts| - 1];
      && Polite(answer, front)
      && (Run(front).Some? ==> PoliteStep(answer, Run(front).value, acts[|acts| - 1]))
  }

  /** Taking a line of a generation that a kill has given up. */
  predicate TakesStale(s: State, a: Action) {
    && a.CallerStep? && a.choice.TakeOutput? && a.id in s.calls && s.calls[a.id].pc.Selecting?
    && s.outputs != [] && s.outputs[0].gen < s.floor
  }

  /** Every line was taken from a generation not given up by then. */
  predicate NoStaleTaken(acts: seq<Action>) {
    acts != [] ==>
      var front := acts[..|acts| - 1];
      NoStaleTaken(front) && (Run(front).Some? ==> !TakesStale(Run(front).value, acts[|acts| - 1]))
  }

  // ---- the invariant -----------------------------------------------------------------

  predicate Answers(answer: Answerer, g: nat, c: Child) {
    |c.wrote| <= |c.inputs| && forall i :: 0 <= i < |c.wrote| ==> c.wrote[i] == answer(g, c.inputs[..i + 1])
  }

  /** The call wants the answer of a generation, or is just giving it up. */
  predicate Waits(s: State, id: nat, g: nat) {
    && id in s.calls && (s.calls[id].pc.Selecting? || s.calls[id].pc.ClearAlive?)
    && s.calls[id].slot.Some? && s.calls[id].slot.value.gen == g
  }

  /** All inputs of a generation have been replied to, except the one a call waits for; or it was given up. */
  ghost predicate Served(s: State, g: nat)
    requires g < |s.children|
  {
    var replies := |OnGen(s.delivered, g)|;
    || g < s.floor
    || replies == |s.children[g].inputs|
    || (replies + 1 == |s.children[g].inputs| && exists id :: Waits(s, id, g))
  }

  /** `line` is what the generation of the slot answers to the inputs up to that slot. */
  predicate IsAnswerTo(answer: Answerer, s: State, line: Line, slot: Slot) {
    && slot.gen < |s.children| && slot.index < |s.children[slot.gen].inputs|
    && line == Line(slot.gen, answer(slot.gen, s.children[slot.gen].inputs[..slot.index + 1]))
  }

  /** The slot of a call holds its input; a waiting call holds the last slot, a finished one its answer. */
  predicate Matched(answer: Answerer, s: State, call: Call) {
    (call.pc.Selecting? || (call.pc.Done? && call.pc.ending.Replied?)) ==>
      && call.slot.Some? && call.slot.value.gen < |s.children|
      && var slot, inputs := call.slot.value, s.children[call.slot.value.gen].inputs;
      && slot.index < |inputs| && inputs[slot.index] == call.input
      && (call.pc.Selecting? ==> slot.index == |inputs| - 1 && |OnGen(s.delivered, slot.gen)| == slot.index)
      && (call.pc.Done? ==> IsAnswerTo(answer, s, call.pc.ending.line, slot))
  }

  ghost predicate ReplyInv(answer: Answerer, s: State) {
    && (forall g :: 0 <= g < |s.children| ==> Answers(answer, g, s.children[g]) && Served(s, g))
    && (forall id :: id in s.calls ==> Matched(answer, s, s.calls[id]))
  }

  // ---- steps ------------------------------------------------------------------------------

  /** A call that neither waits nor has a reply. */
  predicate Plain(c: Call) {
    !c.pc.Selecting? && !c.pc.ClearAlive? && !(c.pc.Done? && c.pc.ending.Replied?)
  }

  /** Nothing was said between callers and children: at most plain calls moved and silent children started. */
  ghost predicate Unspoken(s: State, s': State) {
    && s'.delivered == s.delivered && s'.floor == s.floor
    && |s.children| <= |s'.children|
    && (forall g :: 0 <= g < |s.children| ==>
          s'.children[g].inputs == s.children[g].inputs && s'.children[g].wrote == s.children[g].wrote)
    && (forall g :: |s.children| <= g < |s'.children| ==>
          s'.children[g].inputs == [] && s'.children[g].wrote == [] && OnGen(s.delivered, g) == [])
    && (forall t :: t in s'.calls ==> (t in s.calls && s'.calls[t] == s.calls[t]) || Plain(s'.calls[t]))
    && (forall t :: t in s.calls && (s.calls[t].pc.Selecting? || s.calls[t].pc.ClearAlive?) ==>
          t in s'.calls && s'.calls[t] == s.calls[t])
  }

  lemma UnspokenKeepsReplies(answer: Answerer, s: State, s': State)
    requires ReplyInv(answer, s) && Unspoken(s, s')
    ensures ReplyInv(answer, s')
  {
    assert forall t, g :: Waits(s, t, g) ==> Waits(s', t, g);
    forall g | 0 <= g < |s'.children|
      ensures Answers(answer, g, s'.children[g]) && Served(s', g)
    {
      if g < |s.children| {
        assert Answers(answer, g, s.children[g]) && Served(s, g);
      }
    }
    forall t | t in s'.calls
      ensures Matched(answer, s', s'.calls[t])
    {
      if t in s.calls && s'.calls[t] == s.calls[t] {
        assert Matched(answer, s, s.calls[t]);
      }
    }
  }

  /** A call moving inside `start`, with the children it leaves behind. */
  lemma MoveIsUnspoken(s: State, id: nat, call: Call, s': State)
    requires OnGen(s.delivered, |s.children|) == []
    requires id in s.calls && InStart(s.calls[id].pc) && Plain(call)
    requires s'.calls == s.calls[id := call] && s'.delivered == s.delivered && s'.floor == s.floor
    requires s'.children == s.children || s'.children == s.children + [NewChild(id)]
             || exists g: nat, c :: g < |s.children| && s'.children == s.children[g := c]
                               && c.inputs == s.children[g].inputs && c.wrote == s.children[g].wrote
    ensures Unspoken(s, s')
  {
    hide OnGen;
  }

  lemma StartIsUnspoken(s: State, id: nat, choice: Choice)
    requires OnGen(s.delivered, |s.children|) == []
    requires id in s.calls && InStart(s.calls[id].pc) && StepStart(s, id, choice).Some?
    ensures Unspoken(s, StepStart(s, id, choice).value)
  {
    hide OnGen, Unspoken;
    var s' := StepStart(s, id, choice).value;
    MoveIsUnspoken(s, id, s'.calls[id], s');
  }

  lemma NothingFromTheFuture(s: State)
    requires Inv(s)
    ensures OnGen(s.delivered, |s.children|) == []
  {
    OnGenAppend(s.delivered, s.outputs, |s.children|);
    assert OnGen(s.delivered + s.outputs, |s.children|) == [];
  }

  lemma ChildIsUnspoken(s: State, a: Action)
    requires !a.Begin? && !a.CallerStep? && !a.ChildWrites? && a.gen < |s.children| && StepChild(s, a).Some?
    ensures Unspoken(s, StepChild(s, a).value)
  {
    hide OnGen;
  }

  lemma ChildWritesKeepsReplies(answer: Answerer, s: State, g: nat, text: string)
    requires ReplyInv(answer, s) && g < |s.children| && PoliteStep(answer, s, ChildWrites(g, text))
    ensures ReplyInv(answer, WithChild(s, g, s.children[g].(wrote := s.children[g].wrote + [text])))
  {
    hide OnGen;
    var s' := WithChild(s, g, s.children[g].(wrote := s.children[g].wrote + [text]));
    assert forall t, h :: Waits(s, t, h) ==> Waits(s', t, h);
    forall h | 0 <= h < |s'.children|
      ensures Answers(answer, h, s'.children[h]) && Served(s', h)
    {
      assert Answers(answer, h, s.children[h]) && Served(s, h);
    }
    forall t | t in s'.calls
      ensures Matched(answer, s', s'.calls[t])
    {
      assert Matched(answer, s, s.calls[t]);
    }
  }

  /** Another input leaves the shorter prefixes of the inputs as they were. */
  lemma PrefixesStay(inputs: seq<string>, input: string)
    ensures forall n {:trigger (inputs + [input])[..n]} :: 0 <= n <= |inputs| ==> (inputs + [input])[..n] == inputs[..n]
  {
  }

  /** Writing an input opens the last slot of the generation; nobody else is waiting. */
  lemma WriteKeepsReplies(answer: Answerer, s: State, id: nat)
    requires ReplyInv(answer, s) && SerialInv(s)
    requires id in s.calls && s.calls[id].pc.WriteInput? && StepInvoke(s, id, Succeeds).Some?
    ensures ReplyInv(answer, StepInvoke(s, id, Succeeds).value)
  {
    hide OnGen;
    var s', g := StepInvoke(s, id, Succeeds).value, s.stdin.value;
    var inputs := s.children[g].inputs;
    assert Active(s, id);
    assert forall t, h :: Waits(s, t, h) ==> Active(s, t);
    assert Waits(s', id, g);
    forall h | 0 <= h < |s'.children|
      ensures Answers(answer, h, s'.children[h]) && Served(s', h)
    {
      assert Answers(answer, h, s.children[h]) && Served(s, h);
      if h == g {
        PrefixesStay(inputs, s.calls[id].input);
      }
    }
    forall t | t in s'.calls
      ensures Matched(answer, s', s'.calls[t])
    {
      if t == id {
        assert Served(s, g);
      } else {
        assert Matched(answer, s, s.calls[t]);
        PrefixesStay(inputs, s.calls[id].input);
      }
    }
  }

  lemma AnswerAt(answer: Answerer, s: State, g: nat, k: nat)
    requires ReplyInv(answer, s) && g < |s.children| && k < |s.children[g].wrote|
    ensures k < |s.children[g].inputs| && s.children[g].wrote[k] == answer(g, s.children[g].inputs[..k + 1])
  {
    assert Answers(answer, g, s.children[g]);
  }

  /** If not all inputs of a generation are replied to and nobody gave it up, the active call waits for it. */
  lemma WaiterOf(answer: Answerer, s: State, g: nat, id: nat)
    requires ReplyInv(answer, s) && SerialInv(s) && Active(s, id)
    requires s.floor <= g < |s.children| && |OnGen(s.delivered, g)| < |s.children[g].inputs|
    ensures Waits(s, id, g)
  {
    hide OnGen, PcInv, Linked, Answers, Matched;
    assert Served(s, g);
    hide ReplyInv;
    var t :| Waits(s, t, g);
    assert Active(s, t);
  }

  /**
   Main result for one step: the line a waiting call is about to take is the answer to its own
   input if and only if its generation is not older than the last kill.
   */
  lemma ReplyIsMineIff(answer: Answerer, s: State, id: nat)
    requires ReplyInv(answer, s) && Inv(s) && SerialInv(s)
    requires id in s.calls && s.calls[id].pc.Selecting? && s.outputs != []
    ensures s.calls[id].slot.Some? && s.floor <= s.calls[id].slot.value.gen
    ensures IsAnswerTo(answer, s, s.outputs[0], s.calls[id].slot.value) <==> s.floor <= s.outputs[0].gen
  {
    var line := s.outputs[0];
    assert Active(s, id) && PcInv(s, s.calls[id]) && Matched(answer, s, s.calls[id]);
    hide OnGen, PcInv, Inv, SerialInv, ReplyInv, Matched;
    if s.floor <= line.gen {
      var g, k := line.gen, |OnGen(s.delivered, line.gen)|;
      LineIsNext(s, line);
      AnswerAt(answer, s, g, k);
      WaiterOf(answer, s, g, id);
      MatchedSlot(answer, s, id);
    }
  }

  lemma MatchedSlot(answer: Answerer, s: State, id: nat)
    requires id in s.calls && s.calls[id].pc.Selecting? && Matched(answer, s, s.calls[id])
    ensures s.calls[id].slot.Some? && |OnGen(s.delivered, s.calls[id].slot.value.gen)| == s.calls[id].slot.value.index
  {
    hide OnGen;
  }

  /** A buffered line is the next of its generation that callers have not had. */
  lemma LineIsNext(s: State, line: Line)
    requires Inv(s) && s.outputs != [] && s.outputs[0] == line
    ensures line.gen < |s.children|
    ensures var k := |OnGen(s.delivered, line.gen)|;
            k < |s.children[line.gen].wrote| && s.children[line.gen].wrote[k] == line.text
  {
    var g, before := line.gen, OnGen(s.delivered, line.gen);
    hide OnGen, LineInv, ErrorInv, CallInv;
    assert s.outputs == [line];
    OnGenOne(s.delivered, line);
    var lines := s.delivered + s.outputs;
    assert OnGen(lines, g) == before + [line.text];
    GensExist(lines, s.children, g);
    AccountsOf(s, g);
    NextOfPrefix(before, line.text, Held(s.children[g]), s.children[g].wrote, s.children[g].scanned);
  }

  lemma GensExist(lines: seq<Line>, children: seq<Child>, g: nat)
    requires LineInv(lines, children) && OnGen(lines, g) != []
    ensures g < |children|
  {
  }

  lemma NextOfPrefix(before: seq<string>, text: string, held: seq<string>, wrote: seq<string>, n: nat)
    requires n <= |wrote| && before + [text] + held == wrote[..n]
    ensures |before| < |wrote| && wrote[|before|] == text
  {
    assert (before + [text] + held)[|before|] == text;
    assert |before| < n;
    assert wrote[..n][|before|] == wrote[|before|];
  }

  lemma TakeKeepsReplies(answer: Answerer, s: State, id: nat)
    requires ReplyInv(answer, s) && Inv(s) && SerialInv(s)
    requires id in s.calls && s.calls[id].pc.Selecting? && s.outputs != [] && s.floor <= s.outputs[0].gen
    ensures ReplyInv(answer, StepInvoke(s, id, TakeOutput).value)
  {
    var s', line := StepInvoke(s, id, TakeOutput).value, s.outputs[0];
    ReplyIsMineIff(answer, s, id);
    OnGenOne(s.delivered, line);
    hide OnGen;
    assert Active(s, id) && Matched(answer, s, s.calls[id]);
    assert forall t, h :: Waits(s, t, h) ==> Active(s, t);
    forall h | 0 <= h < |s'.children|
      ensures Answers(answer, h, s'.children[h]) && Served(s', h)
    {
      assert Answers(answer, h, s.children[h]) && Served(s, h);
    }
    forall t | t in s'.calls
      ensures Matched(answer, s', s'.calls[t])
    {
      assert Matched(answer, s, s.calls[t]);
      assert t != id && s.calls[t].pc.Selecting? ==> Active(s, t);
    }
  }

  /** Giving up: the call still counts as waiting until the flag is cleared. */
  lemma InterruptKeepsReplies(answer: Answerer, s: State, id: nat, choice: Choice)
    requires ReplyInv(answer, s) && id in s.calls && s.calls[id].pc.Selecting?
    requires choice.TakeContext? || (choice.TakeError? && s.errors != [])
    ensures ReplyInv(answer, StepInvoke(s, id, choice).value)
  {
    hide OnGen;
    var s' := StepInvoke(s, id, choice).value;
    assert forall t, g :: Waits(s, t, g) ==> Waits(s', t, g);
    forall h | 0 <= h < |s'.children|
      ensures Answers(answer, h, s'.children[h]) && Served(s', h)
    {
      assert Answers(answer, h, s.children[h]) && Served(s, h);
    }
    forall t | t in s'.calls
      ensures Matched(answer, s', s'.calls[t])
    {
      assert Matched(answer, s, s.calls[t]);
    }
  }

  /** Clearing the flag gives up all generations there are. */
  lemma ClearKeepsReplies(answer: Answerer, s: State, id: nat)
    requires ReplyInv(answer, s) && SerialInv(s) && id in s.calls && s.calls[id].pc.ClearAlive?
    ensures ReplyInv(answer, StepKill(s, id, Succeeds).value)
  {
    hide OnGen;
    var s' := StepKill(s, id, Succeeds).value;
    forall h | 0 <= h < |s'.children|
      ensures Answers(answer, h, s'.children[h]) && Served(s', h)
    {
      assert Answers(answer, h, s.children[h]);
    }
    forall t | t in s'.calls
      ensures Matched(answer, s', s'.calls[t])
    {
      assert Matched(answer, s, s.calls[t]);
    }
  }

  lemma InvokeKeepsReplies(answer: Answerer, s: State, id: nat, choice: Choice)
    requires ReplyInv(answer, s) && Inv(s) && SerialInv(s)
    requires id in s.calls && !InStart(s.calls[id].pc) && !InKill(s.calls[id].pc) && StepInvoke(s, id, choice).Some?
    requires !TakesStale(s, CallerStep(id, choice))
    ensures ReplyInv(answer, StepInvoke(s, id, choice).value)
  {
    var s', pc := StepInvoke(s, id, choice).value, s.calls[id].pc;
    hide ReplyInv, Inv, SerialInv, OnGen;
    if pc.Selecting? {
      if choice.TakeOutput? {
        TakeKeepsReplies(answer, s, id);
      } else {
        InterruptKeepsReplies(answer, s, id, choice);
      }
    } else if choice.Succeeds? {
      WriteKeepsReplies(answer, s, id);
    } else {
      UnspokenKeepsReplies(answer, s, s');
    }
  }

  lemma KillKeepsReplies(answer: Answerer, s: State, id: nat, choice: Choice)
    requires ReplyInv(answer, s) && SerialInv(s)
    requires id in s.calls && InKill(s.calls[id].pc) && StepKill(s, id, choice).Some?
    ensures ReplyInv(answer, StepKill(s, id, choice).value)
  {
    var s' := StepKill(s, id, choice).value;
    hide ReplyInv, SerialInv, OnGen;
    if s.calls[id].pc.ClearAlive? {
      assert s' == StepKill(s, id, Succeeds).value;
      ClearKeepsReplies(answer, s, id);
    } else {
      UnspokenKeepsReplies(answer, s, s');
    }
  }

  lemma CallerKeepsReplies(answer: Answerer, s: State, id: nat, choice: Choice)
    requires ReplyInv(answer, s) && Inv(s) && SerialInv(s) && Step(s, CallerStep(id, choice)).Some?
    requires !TakesStale(s, CallerStep(id, choice))
    ensures ReplyInv(answer, Step(s, CallerStep(id, choice)).value)
  {
    hide ReplyInv, Inv, SerialInv, OnGen, StepStart, StepKill, StepInvoke, TakesStale;
    if InStart(s.calls[id].pc) {
      NothingFromTheFuture(s);
      StartIsUnspoken(s, id, choice);
      UnspokenKeepsReplies(answer, s, StepStart(s, id, choice).value);
    } else if InKill(s.calls[id].pc) {
      KillKeepsReplies(answer, s, id, choice);
    } else {
      InvokeKeepsReplies(answer, s, id, choice);
    }
  }

  lemma StepKeepsReplies(answer: Answerer, s: State, a: Action)
    requires ReplyInv(answer, s) && Inv(s) && SerialInv(s)
    requires Step(s, a).Some? && PoliteStep(answer, s, a) && !TakesStale(s, a)
    ensures ReplyInv(answer, Step(s, a).value)
  {
    hide ReplyInv, Inv, SerialInv, OnGen;
    match a
    case Begin(_, _) => UnspokenKeepsReplies(answer, s, Step(s, a).value);
    case CallerStep(id, choice) => CallerKeepsReplies(answer, s, id, choice);
    case ChildWrites(g, text) => ChildWritesKeepsReplies(answer, s, g, text);
    case _ =>
      ChildIsUnspoken(s, a);
      UnspokenKeepsReplies(answer, s, Step(s, a).value);
  }

  lemma {:induction false} PoliteReachable(answer: Answerer, acts: seq<Action>)
    requires Serial(acts) && Polite(answer, acts) && NoStaleTaken(acts) && Run(acts).Some?
    ensures ReplyInv(answer, Run(acts).value)
  {
    if acts != [] {
      var front := acts[..|acts| - 1];
      PoliteReachable(answer, front);
      ReachableInv(front);
      SerialReachable(front);
      StepKeepsReplies(answer, Run(front).value, acts[|acts| - 1]);
    }
  }

  // ---- results for runs ------------------------------------------------------------------

  /** Without a kill nothing is given up. */
  lemma {:induction false} NoKillNoStale(acts: seq<Action>)
    requires Run(acts).Some? && !AnyKill(acts)
    ensures Run(acts).value.floor == 0 && NoStaleTaken(acts)
  {
    if acts != [] {
      NoKillNoStale(acts[..|acts| - 1]);
    }
  }

  predicate HasReply(c: Call) {
    c.pc.Done? && c.pc.ending.Replied?
  }

  /** The call's input is in its slot, and its reply is what the generation answers up to there. */
  predicate RightReply(answer: Answerer, s: State, c: Call) {
    && HasReply(c) && c.slot.Some? && IsAnswerTo(answer, s, c.pc.ending.line, c.slot.value)
    && s.children[c.slot.value.gen].inputs[c.slot.value.index] == c.input
  }

  /** The reply comes from an older generation than the one the call wrote to. */
  predicate OlderReply(s: State, id: nat) {
    id in s.calls && var c := s.calls[id]; HasReply(c) && c.slot.Some? && c.pc.ending.line.gen < c.slot.value.gen
  }

  lemma StartMovesOneCall(s: State, id: nat, choice: Choice)
    requires id in s.calls && InStart(s.calls[id].pc) && StepStart(s, id, choice).Some?
    ensures var s' := StepStart(s, id, choice).value; id in s'.calls && s'.calls == s.calls[id := s'.calls[id]]
  {
  }

  lemma KillMovesOneCall(s: State, id: nat, choice: Choice)
    requires id in s.calls && InKill(s.calls[id].pc) && StepKill(s, id, choice).Some?
    ensures var s' := StepKill(s, id, choice).value; id in s'.calls && s'.calls == s.calls[id := s'.calls[id]]
  {
  }

  lemma InvokeMovesOneCall(s: State, id: nat, choice: Choice)
    requires id in s.calls && !InStart(s.calls[id].pc) && !InKill(s.calls[id].pc) && StepInvoke(s, id, choice).Some?
    ensures !s.calls[id].pc.Done?
    ensures var s' := StepInvoke(s, id, choice).value; id in s'.calls && s'.calls == s.calls[id := s'.calls[id]]
  {
  }

  lemma DoneStaysDone(s: State, a: Action, id: nat)
    requires Step(s, a).Some? && id in s.calls && s.calls[id].pc.Done?
    ensures id in Step(s, a).value.calls && Step(s, a).value.calls[id] == s.calls[id]
  {
    match a
    case CallerStep(t, choice) =>
      hide StepStart, StepKill, StepInvoke;
      if InStart(s.calls[t].pc) {
        StartMovesOneCall(s, t, choice);
      } else if InKill(s.calls[t].pc) {
        KillMovesOneCall(s, t, choice);
      } else {
        InvokeMovesOneCall(s, t, choice);
      }
    case _ =>
  }

  /** A stale line goes to a call that wrote to a younger generation, and stays its reply. */
  lemma {:induction false} StaleIsWrong(acts: seq<Action>) returns (id: nat)
    requires Serial(acts) && Run(acts).Some? && !NoStaleTaken(acts)
    ensures OlderReply(Run(acts).value, id)
  {
    var front, a := acts[..|acts| - 1], acts[|acts| - 1];
    var s := Run(front).value;
    if TakesStale(s, a) {
      id := a.id;
      SerialReachable(front);
      assert Active(s, id);
    } else {
      id := StaleIsWrong(front);
      DoneStaysDone(s, a, id);
    }
  }

  /**
   Main result for runs, however callers, children, scanners and waiters interleave: every reply
   so far is what the generation the call wrote to answers to the inputs up to and including
   that call's own, if and only if no line of a given-up generation was ever taken.
   */
  lemma {:induction false} RepliesMatchIff(answer: Answerer, acts: seq<Action>)
    requires Serial(acts) && Polite(answer, acts) && Run(acts).Some?
    ensures var s := Run(acts).value;
            (forall id :: id in s.calls && HasReply(s.calls[id]) ==> RightReply(answer, s, s.calls[id]))
            <==> NoStaleTaken(acts)
  {
    var s := Run(acts).value;
    if NoStaleTaken(acts) {
      PoliteReachable(answer, acts);
      assert forall id :: id in s.calls ==> Matched(answer, s, s.calls[id]);
    } else {
      var id := StaleIsWrong(acts);
      assert !RightReply(answer, s, s.calls[id]);
    }
  }

  /** In particular, without a kill the k-th reply of a generation is its answer to the k-th input. */
  lemma {:induction false} RepliesMatchInputs(answer: Answerer, acts: seq<Action>, id: nat)
    requires Serial(acts) && Polite(answer, acts) && !AnyKill(acts) && Run(acts).Some?
    requires id in Run(acts).value.calls && HasReply(Run(acts).value.calls[id])
    ensures RightReply(answer, Run(acts).value, Run(acts).value.calls[id])
  {
    NoKillNoStale(acts);
    RepliesMatchIff(answer, acts);
  }
}
