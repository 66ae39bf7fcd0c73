/**
 The long-running command of run/fn/cli/service.go as a state machine. Invokes share one
 command, one output channel and one error channel, each of capacity one. Every start makes
 a new generation of the child with a scanner and a waiter goroutine of its own, but the
 channels and the fields are shared by all generations.

 A child is an abstract producer of lines that may exit at any time. Its scanner may stop
 at any time: `Wait` closes the pipe it reads from, and a line can be too long.
 `service.locker` guards single accesses only, so each access is one step.
 */
module ServiceSupervisor {
  import opened Values

  datatype Line = Line(gen: nat, text: string)

  datatype ScannerPc = NoScanner | Scanning | Blocked(text: string) | Closed

  /** Unspawned until the goroutine exists; Sending is blocked on the error channel. */
  datatype WaiterPc = Unspawned | InWait | WantStore | Sending | Finished

  /**
   A generation: the call that launched it, what reached its stdin, what it wrote, how much of
   that was scanned, how it ended (with a failure or not), and its goroutines.
   */
  datatype Child = Child(
    starter: nat, inputs: seq<string>, wrote: seq<string>, scanned: nat, exit: Option<bool>, killed: bool,
    scanner: ScannerPc, waiter: WaiterPc)

  function NewChild(starter: nat): Child {
    Child(starter, [], [], 0, None, false, NoScanner, Unspawned)
  }

  datatype Cause = CtxEnded | ChildFailed(gen: nat)

  datatype Ending =
    | Replied(line: Line)
    | StartFailed
    | WriteFailed
    | Interrupted(cause: Cause, killed: bool)

  datatype Pc =
    | CheckAlive | Launch                                                  // start
    | StoreCmd(g: nat) | StoreStdin(g: nat) | StoreAlive(g: nat) | SpawnScanner(g: nat) | SpawnWaiter(g: nat)
    | WriteInput | Selecting                                               // Invoke
    | ClearAlive(cause: Cause) | KillProcess(cause: Cause)                 // kill
    | Done(ending: Ending)

  /** Which input of which generation a call wrote. */
  datatype Slot = Slot(gen: nat, index: nat)

  /** A call; `slot` is a record for stating results, the code does not have it. */
  datatype Call = Call(input: string, pc: Pc, slot: Option<Slot>)

  /** `delivered`, `reported` and `floor` record the lines and errors received and the generations killed so far. */
  datatype State = State(
    alive: bool, cmd: Option<nat>, stdin: Option<nat>,
    errors: seq<nat>, outputs: seq<Line>,
    children: seq<Child>, calls: map<nat, Call>,
    delivered: seq<Line>, reported: seq<nat>, floor: nat)

  const INIT := State(false, None, None, [], [], [], map[], [], [], 0)

  const CAPACITY := 1

  // ---- steps --------------------------------------------------------------------

  /** How a step that can go several ways goes: an operation, or the `select`. */
  datatype Choice = Succeeds | Fails | TakeOutput | TakeContext | TakeError

  datatype Action =
    | Begin(id: nat, input: string)
    | CallerStep(id: nat, choice: Choice)
    | ChildWrites(gen: nat, text: string)
    | ChildExits(gen: nat, failed: bool)
    | Scan(gen: nat)
    | ScannerSends(gen: nat)
    | ScannerStops(gen: nat)
    | WaiterStep(gen: nat)

  function Step(s: State, a: Action): Option<State> {
    match a
    case Begin(id, input) =>
      if id in s.calls then None else Some(s.(calls := s.calls[id := Call(input, CheckAlive, None)]))
    case CallerStep(id, choice) =>
      if id !in s.calls then None
      else if InStart(s.calls[id].pc) then StepStart(s, id, choice)
      else if InKill(s.calls[id].pc) then StepKill(s, id, choice)
      else StepInvoke(s, id, choice)
    case _ => if a.gen < |s.children| then StepChild(s, a) else None
  }

  predicate InStart(pc: Pc) {
    pc.CheckAlive? || pc.Launch? || Announced(pc)
  }

  /** A child has been launched and `start` has not returned. */
  predicate Announced(pc: Pc) {
    pc.StoreCmd? || pc.StoreStdin? || pc.StoreAlive? || pc.SpawnScanner? || pc.SpawnWaiter?
  }

  predicate InKill(pc: Pc) {
    pc.ClearAlive? || pc.KillProcess?
  }

  function At(s: State, id: nat, pc: Pc): State
    requires id in s.calls
  {
    s.(calls := s.calls[id := s.calls[id].(pc := pc)])
  }

  function WithChild(s: State, g: nat, c: Child): State
    requires g < |s.children|
  {
    s.(children := s.children[g := c])
  }

  function StepStart(s: State, id: nat, choice: Choice): Option<State>
    requires id in s.calls && InStart(s.calls[id].pc)
  {
    match s.calls[id].pc
    case CheckAlive => Some(At(s, id, if s.alive then WriteInput else Launch))
    case Launch =>
      if choice.Succeeds? then Some(At(s, id, StoreCmd(|s.children|)).(children := s.children + [NewChild(id)]))
      else if choice.Fails? then Some(At(s, id, Done(StartFailed))) else None
    case StoreCmd(g) => Some(At(s, id, StoreStdin(g)).(cmd := Some(g)))
    case StoreStdin(g) => Some(At(s, id, StoreAlive(g)).(stdin := Some(g)))
    case StoreAlive(g) => Some(At(s, id, SpawnScanner(g)).(alive := true))
    case SpawnScanner(g) =>
      if g < |s.children|
      then Some(WithChild(At(s, id, SpawnWaiter(g)), g, s.children[g].(scanner := Scanning))) else None
    case SpawnWaiter(g) =>
      if g < |s.children|
      then Some(WithChild(At(s, id, WriteInput), g, s.children[g].(waiter := InWait))) else None
  }

  function StepInvoke(s: State, id: nat, choice: Choice): Option<State>
    requires id in s.calls && !InStart(s.calls[id].pc) && !InKill(s.calls[id].pc)
  {
    var call := s.calls[id];
    match call.pc
    case WriteInput =>
      if choice.Fails? then Some(At(s, id, Done(WriteFailed)))
      else if choice.Succeeds? && s.stdin.Some? && s.stdin.value < |s.children| then
        var g := s.stdin.value;
        var c := s.children[g];
        Some(WithChild(s, g, c.(inputs := c.inputs + [call.input]))
             .(calls := s.calls[id := Call(call.input, Selecting, Some(Slot(g, |c.inputs|)))]))
      else None
    case Selecting =>
      if choice.TakeOutput? && s.outputs != [] then
        Some(At(s, id, Done(Replied(s.outputs[0])))
             .(outputs := s.outputs[1..], delivered := s.delivered + [s.outputs[0]]))
      else if choice.TakeContext? then Some(At(s, id, ClearAlive(CtxEnded)))
      else if choice.TakeError? && s.errors != [] then
        Some(At(s, id, ClearAlive(ChildFailed(s.errors[0])))
             .(errors := s.errors[1..], reported := s.reported + [s.errors[0]]))
      else None
    case Done(_) => None
  }

  function StepKill(s: State, id: nat, choice: Choice): Option<State>
    requires id in s.calls && InKill(s.calls[id].pc)
  {
    match s.calls[id].pc
    case ClearAlive(cause) => Some(At(s, id, KillProcess(cause)).(alive := false, floor := |s.children|))
    case KillProcess(cause) =>
      if choice.Fails? then Some(At(s, id, Done(Interrupted(cause, false))))
      else if choice.Succeeds? && s.cmd.Some? && s.cmd.value < |s.children| then
        var g := s.cmd.value;
        Some(WithChild(At(s, id, Done(Interrupted(cause, true))), g, s.children[g].(killed := true)))
      else None
  }

  function StepChild(s: State, a: Action): Option<State>
    requires !a.Begin? && !a.CallerStep? && a.gen < |s.children|
  {
    var g, c := a.gen, s.children[a.gen];
    match a
    case ChildWrites(_, text) =>
      if c.exit.None? then Some(WithChild(s, g, c.(wrote := c.wrote + [text]))) else None
    case ChildExits(_, failed) =>
      if c.exit.None? then Some(WithChild(s, g, c.(exit := Some(failed)))) else None
    case Scan(_) =>
      if c.scanner.Scanning? && c.scanned < |c.wrote|
      then Some(WithChild(s, g, c.(scanner := Blocked(c.wrote[c.scanned]), scanned := c.scanned + 1))) else None
    case ScannerSends(_) =>
      if c.scanner.Blocked? && |s.outputs| < CAPACITY
      then Some(WithChild(s, g, c.(scanner := Scanning)).(outputs := s.outputs + [Line(g, c.scanner.text)])) else None
    case ScannerStops(_) =>
      if c.scanner.Scanning? then Some(WithChild(s, g, c.(scanner := Closed))) else None
    case WaiterStep(_) => StepWaiter(s, g)
  }

  function StepWaiter(s: State, g: nat): Option<State>
    requires g < |s.children|
  {
    var c := s.children[g];
    match c.waiter
    case InWait => if c.exit.Some? then Some(WithChild(s, g, c.(waiter := WantStore))) else None
    case WantStore =>
      Some(WithChild(s, g, c.(waiter := if c.exit == Some(true) then Sending else Finished)).(alive := false))
    case Sending =>
      if |s.errors| < CAPACITY
      then Some(WithChild(s, g, c.(waiter := Finished)).(errors := s.errors + [g])) else None
    case _ => None
  }

  /** The state after a run, if every step of it was possible. */
  function Run(acts: seq<Action>): Option<State> {
    if acts == [] then Some(INIT) else
      var before := Run(acts[..|acts| - 1]);
      if before == None then None else Step(before.value, acts[|acts| - 1])
  }

  predicate AllDone(s: State) {
    forall id :: id in s.calls ==> s.calls[id].pc.Done?
  }

  /** The assumption `service` makes of its callers: an Invoke begins only when the last one has returned. */
  predicate Serial(acts: seq<Action>) {
    acts != [] ==>
      var front := acts[..|acts| - 1];
      && Serial(front)
      && (acts[|acts| - 1].Begin? && Run(front).Some? ==> AllDone(Run(front).value))
  }

  /** Some Invoke has gone through `kill`. */
  predicate AnyKill(acts: seq<Action>) {
    acts != [] &&
      var front := acts[..|acts| - 1];
      || AnyKill(front)
      || (Run(front).Some? && IsKill(Run(front).value, acts[|acts| - 1]))
  }

  predicate IsKill(s: State, a: Action) {
    a.CallerStep? && a.id in s.calls && s.calls[a.id].pc.ClearAlive?
  }

  // ---- lines: nothing reordered, nothing duplicated, per generation ---------------------

  /** The texts of the lines of one generation. */
  function OnGen(lines: seq<Line>, g: nat): seq<string> {
    if lines == [] then [] else
      var l := lines[|lines| - 1];
      OnGen(lines[..|lines| - 1], g) + (if l.gen == g then [l.text] else [])
  }

  lemma OnGenOne(lines: seq<Line>, l: Line)
    ensures forall g :: OnGen(lines + [l], g) == OnGen(lines, g) + (if l.gen == g then [l.text] else [])
  {
    assert (lines + [l])[..|lines|] == lines;
  }

  /** The line a blocked scanner holds. */
  function Held(c: Child): seq<string> {
    if c.scanner.Blocked? then [c.scanner.text] else []
  }

  /**
   Delivered and buffered lines of a generation and the held one, in that order, are what was
   scanned of its output.
   */
  predicate Accounts(lines: seq<Line>, g: nat, c: Child) {
    c.scanned <= |c.wrote| && OnGen(lines, g) + Held(c) == c.wrote[..c.scanned]
  }

  ghost predicate LineInv(lines: seq<Line>, children: seq<Child>) {
    && (forall g :: 0 <= g < |children| ==> Accounts(lines, g, children[g]))
    && (forall g :: g >= |children| ==> OnGen(lines, g) == [])
  }

  lemma LaunchKeepsLines(lines: seq<Line>, children: seq<Child>, starter: nat)
    requires LineInv(lines, children)
    ensures LineInv(lines, children + [NewChild(starter)])
  {
  }

  lemma UpdateKeepsLines(lines: seq<Line>, children: seq<Child>, g: nat, c: Child)
    requires LineInv(lines, children) && g < |children| && Accounts(lines, g, c)
    ensures LineInv(lines, children[g := c])
  {
  }

  /** The scanner hands its line over: it moves from the scanner to the end of the lines. */
  lemma SendKeepsLines(lines: seq<Line>, children: seq<Child>, g: nat)
    requires LineInv(lines, children) && g < |children| && children[g].scanner.Blocked?
    ensures LineInv(lines + [Line(g, children[g].scanner.text)], children[g := children[g].(scanner := Scanning)])
  {
    var l, c := Line(g, children[g].scanner.text), children[g].(scanner := Scanning);
    OnGenOne(lines, l);
    assert OnGen(lines + [l], g) + Held(c) == OnGen(lines, g) + Held(children[g]);
  }

  // ---- errors: every failure is accounted for once -----------------------------------

  function Count(gs: seq<nat>, g: nat): nat {
    if gs == [] then 0 else Count(gs[..|gs| - 1], g) + (if gs[|gs| - 1] == g then 1 else 0)
  }

  lemma CountOne(gs: seq<nat>, h: nat)
    ensures forall g :: Count(gs + [h], g) == Count(gs, g) + (if g == h then 1 else 0)
  {
    assert (gs + [h])[..|gs|] == gs;
  }

  lemma {:induction false} CountAppend(gs: seq<nat>, hs: seq<nat>, g: nat)
    ensures Count(gs + hs, g) == Count(gs, g) + Count(hs, g)
  {
    if hs == [] {
      assert gs + hs == gs;
    } else {
      var front, h := hs[..|hs| - 1], hs[|hs| - 1];
      assert gs + hs == (gs + front) + [h] && hs == front + [h];
      CountAppend(gs, front, g);
      CountOne(gs + front, h);
      CountOne(front, h);
    }
  }

  predicate PassedStore(w: WaiterPc) {
    w.Sending? || w.Finished?
  }

  /**
   The failure of a generation is reported, buffered or blocked at the send, exactly once, if its
   waiter passed the store.
   */
  predicate Reports(errors: seq<nat>, g: nat, c: Child) {
    && Count(errors, g) + (if c.waiter.Sending? then 1 else 0)
       == (if c.exit == Some(true) && PassedStore(c.waiter) then 1 else 0)
    && (c.waiter.WantStore? || PassedStore(c.waiter) ==> c.exit.Some?)
  }

  ghost predicate ErrorInv(errors: seq<nat>, children: seq<Child>) {
    && (forall g :: 0 <= g < |children| ==> Reports(errors, g, children[g]))
    && (forall g :: g >= |children| ==> Count(errors, g) == 0)
  }

  lemma LaunchKeepsErrors(errors: seq<nat>, children: seq<Child>, starter: nat)
    requires ErrorInv(errors, children)
    ensures ErrorInv(errors, children + [NewChild(starter)])
  {
  }

  lemma UpdateKeepsErrors(errors: seq<nat>, children: seq<Child>, g: nat, c: Child)
    requires ErrorInv(errors, children) && g < |children| && Reports(errors, g, c)
    ensures ErrorInv(errors, children[g := c])
  {
  }

  lemma SendKeepsErrors(errors: seq<nat>, children: seq<Child>, g: nat)
    requires ErrorInv(errors, children) && g < |children| && children[g].waiter.Sending?
    ensures ErrorInv(errors + [g], children[g := children[g].(waiter := Finished)])
  {
    CountOne(errors, g);
  }

  // ---- calls: a call inside start owns the child it launched -----------------------------

  predicate Owns(children: seq<Child>, id: nat, pc: Pc) {
    Announced(pc) ==>
      && pc.g < |children|
      && children[pc.g].starter == id
      && children[pc.g].waiter.Unspawned?
      && (children[pc.g].scanner.NoScanner? || pc.SpawnWaiter?)
  }

  ghost predicate CallInv(calls: map<nat, Call>, children: seq<Child>) {
    forall id :: id in calls ==> Owns(children, id, calls[id].pc)
  }

  /** No goroutine of a child has come into being since. */
  predicate GoroutinesKept(before: Child, after: Child) {
    && after.waiter.Unspawned? == before.waiter.Unspawned?
    && (before.scanner.NoScanner? ==> after.scanner.NoScanner?)
  }

  lemma LaunchKeepsCalls(calls: map<nat, Call>, children: seq<Child>, id: nat, c: Call)
    requires CallInv(calls, children) && c.pc == StoreCmd(|children|)
    ensures CallInv(calls[id := c], children + [NewChild(id)])
  {
  }

  /** A step of a call that changes at most the child it owns or the goroutines' business. */
  lemma UpdateKeepsCalls(calls: map<nat, Call>, children: seq<Child>, id: nat, call: Call, g: nat, c: Child)
    requires CallInv(calls, children) && g < |children| && c.starter == children[g].starter
    requires Owns(children[g := c], id, call.pc)
    requires c.starter == id || GoroutinesKept(children[g], c)
    ensures CallInv(calls[id := call], children[g := c])
  {
  }

  lemma MoveKeepsCalls(calls: map<nat, Call>, children: seq<Child>, id: nat, call: Call)
    requires CallInv(calls, children) && Owns(children, id, call.pc)
    ensures CallInv(calls[id := call], children)
  {
  }

  /** Scanner and waiter of a child run only once `start` has spawned them. */
  lemma ChildKeepsCalls(calls: map<nat, Call>, children: seq<Child>, g: nat, c: Child)
    requires CallInv(calls, children) && g < |children| && c.starter == children[g].starter
    requires GoroutinesKept(children[g], c)
    ensures CallInv(calls, children[g := c])
  {
  }

  // ---- every run -------------------------------------------------------------------------

  ghost predicate Inv(s: State) {
    && LineInv(s.delivered + s.outputs, s.children) && |s.outputs| <= CAPACITY
    && ErrorInv(s.reported + s.errors, s.children) && |s.errors| <= CAPACITY
    && CallInv(s.calls, s.children)
    && (s.cmd.Some? ==> s.cmd.value < |s.children|)
    && (s.stdin.Some? ==> s.stdin.value < |s.children|)
  }

  /** A child changed in a way that leaves its lines and its failure accounted for as before. */
  lemma UpdateKeepsBoth(s: State, g: nat, c: Child)
    requires Inv(s) && g < |s.children|
    requires c.wrote == s.children[g].wrote && c.scanned == s.children[g].scanned && Held(c) == Held(s.children[g])
    requires c.exit == s.children[g].exit
    requires c.waiter == s.children[g].waiter || (c.waiter.InWait? && s.children[g].waiter.Unspawned?)
    ensures LineInv(s.delivered + s.outputs, s.children[g := c])
    ensures ErrorInv(s.reported + s.errors, s.children[g := c])
  {
    assert Accounts(s.delivered + s.outputs, g, s.children[g]);
    assert Reports(s.reported + s.errors, g, s.children[g]);
    UpdateKeepsLines(s.delivered + s.outputs, s.children, g, c);
    UpdateKeepsErrors(s.reported + s.errors, s.children, g, c);
  }

  lemma AccountsOf(s: State, g: nat)
    requires Inv(s) && g < |s.children|
    ensures Accounts(s.delivered + s.outputs, g, s.children[g]) && Reports(s.reported + s.errors, g, s.children[g])
  {
  }

  lemma OwnsOf(s: State, id: nat)
    requires Inv(s) && id in s.calls
    ensures Owns(s.children, id, s.calls[id].pc)
  {
  }

  /** A call moves on and at most stores a field. */
  lemma MoveKeepsInv(s: State, id: nat, s': State)
    requires Inv(s) && id in s'.calls && s'.calls == s.calls[id := s'.calls[id]]
    requires s'.children == s.children && Owns(s.children, id, s'.calls[id].pc)
    requires s'.delivered == s.delivered && s'.outputs == s.outputs
    requires s'.reported == s.reported && s'.errors == s.errors
    requires s'.cmd.Some? ==> s'.cmd.value < |s.children|
    requires s'.stdin.Some? ==> s'.stdin.value < |s.children|
    ensures Inv(s')
  {
    hide LineInv, ErrorInv, CallInv, OnGen, Count;
    MoveKeepsCalls(s.calls, s.children, id, s'.calls[id]);
  }

  lemma LaunchKeepsInv(s: State, id: nat)
    requires Inv(s) && id in s.calls && s.calls[id].pc.Launch?
    ensures Inv(StepStart(s, id, Succeeds).value)
  {
    hide LineInv, ErrorInv, CallInv, OnGen, Count;
    LaunchKeepsLines(s.delivered + s.outputs, s.children, id);
    LaunchKeepsErrors(s.reported + s.errors, s.children, id);
    LaunchKeepsCalls(s.calls, s.children, id, s.calls[id].(pc := StoreCmd(|s.children|)));
  }

  lemma SpawnKeepsInv(s: State, id: nat, choice: Choice)
    requires Inv(s) && id in s.calls && (s.calls[id].pc.SpawnScanner? || s.calls[id].pc.SpawnWaiter?)
    requires StepStart(s, id, choice).Some?
    ensures Inv(StepStart(s, id, choice).value)
  {
    OwnsOf(s, id);
    hide LineInv, ErrorInv, CallInv, OnGen, Count;
    var s', g := StepStart(s, id, choice).value, s.calls[id].pc.g;
    UpdateKeepsBoth(s, g, s'.children[g]);
    UpdateKeepsCalls(s.calls, s.children, id, s'.calls[id], g, s'.children[g]);
  }

  lemma StartKeepsInv(s: State, id: nat, choice: Choice)
    requires Inv(s) && id in s.calls && InStart(s.calls[id].pc) && StepStart(s, id, choice).Some?
    ensures Inv(StepStart(s, id, choice).value)
  {
    var pc := s.calls[id].pc;
    hide Inv;
    if pc.Launch? && choice.Succeeds? {
      LaunchKeepsInv(s, id);
    } else if pc.SpawnScanner? || pc.SpawnWaiter? {
      SpawnKeepsInv(s, id, choice);
    } else if Announced(pc) {
      AnnounceKeepsInv(s, id, choice);
    } else {
      PassKeepsInv(s, id, choice);
    }
  }

  /** The stores to the fields. */
  lemma AnnounceKeepsInv(s: State, id: nat, choice: Choice)
    requires Inv(s) && id in s.calls
    requires s.calls[id].pc.StoreCmd? || s.calls[id].pc.StoreStdin? || s.calls[id].pc.StoreAlive?
    ensures Inv(StepStart(s, id, choice).value)
  {
    OwnsOf(s, id);
    FieldsExist(s);
    hide Inv, LineInv, ErrorInv, CallInv, OnGen, Count;
    MoveKeepsInv(s, id, StepStart(s, id, choice).value);
  }

  /** The check of the flag, and a launch that fails. */
  lemma PassKeepsInv(s: State, id: nat, choice: Choice)
    requires Inv(s) && id in s.calls
    requires s.calls[id].pc.CheckAlive? || (s.calls[id].pc.Launch? && choice.Fails?)
    ensures Inv(StepStart(s, id, choice).value)
  {
    FieldsExist(s);
    hide Inv, LineInv, ErrorInv, CallInv, OnGen, Count;
    MoveKeepsInv(s, id, StepStart(s, id, choice).value);
  }

  lemma FieldsExist(s: State)
    requires Inv(s)
    ensures s.cmd.Some? ==> s.cmd.value < |s.children|
    ensures s.stdin.Some? ==> s.stdin.value < |s.children|
  {
  }

  lemma InvokeKeepsInv(s: State, id: nat, choice: Choice)
    requires Inv(s) && id in s.calls && !InStart(s.calls[id].pc) && !InKill(s.calls[id].pc)
    requires StepInvoke(s, id, choice).Some?
    ensures Inv(StepInvoke(s, id, choice).value)
  {
    hide LineInv, ErrorInv, CallInv, OnGen, Count;
    var s', pc := StepInvoke(s, id, choice).value, s.calls[id].pc;
    assert s'.delivered + s'.outputs == s.delivered + s.outputs;
    assert s'.reported + s'.errors == s.reported + s.errors;
    if pc.WriteInput? && choice.Succeeds? {
      var g := s.stdin.value;
      UpdateKeepsBoth(s, g, s'.children[g]);
      UpdateKeepsCalls(s.calls, s.children, id, s'.calls[id], g, s'.children[g]);
    } else {
      MoveKeepsCalls(s.calls, s.children, id, s'.calls[id]);
    }
  }

  lemma KillKeepsInv(s: State, id: nat, choice: Choice)
    requires Inv(s) && id in s.calls && InKill(s.calls[id].pc) && StepKill(s, id, choice).Some?
    ensures Inv(StepKill(s, id, choice).value)
  {
    hide LineInv, ErrorInv, CallInv, OnGen, Count;
    var s' := StepKill(s, id, choice).value;
    if s.calls[id].pc.KillProcess? && choice.Succeeds? {
      var g := s.cmd.value;
      UpdateKeepsBoth(s, g, s'.children[g]);
      UpdateKeepsCalls(s.calls, s.children, id, s'.calls[id], g, s'.children[g]);
    } else {
      MoveKeepsCalls(s.calls, s.children, id, s'.calls[id]);
    }
  }

  /** A child goes on, with its lines and its failure accounted for. */
  lemma WithChildKeepsInv(s: State, g: nat, c: Child)
    requires Inv(s) && g < |s.children|
    requires Accounts(s.delivered + s.outputs, g, c) && Reports(s.reported + s.errors, g, c)
    requires c.starter == s.children[g].starter && c.waiter.Unspawned? == s.children[g].waiter.Unspawned?
    requires s.children[g].scanner.NoScanner? ==> c.scanner.NoScanner?
    ensures Inv(WithChild(s, g, c))
  {
    hide LineInv, ErrorInv, CallInv, OnGen, Count, Held;
    UpdateKeepsLines(s.delivered + s.outputs, s.children, g, c);
    UpdateKeepsErrors(s.reported + s.errors, s.children, g, c);
    ChildKeepsCalls(s.calls, s.children, g, c);
  }

  lemma WaiterSendKeepsInv(s: State, g: nat)
    requires Inv(s) && g < |s.children| && s.children[g].waiter.Sending? && |s.errors| < CAPACITY
    ensures Inv(StepWaiter(s, g).value)
  {
    AccountsOf(s, g);
    hide LineInv, ErrorInv, CallInv, OnGen, Count;
    var c := s.children[g].(waiter := Finished);
    UpdateKeepsLines(s.delivered + s.outputs, s.children, g, c);
    ChildKeepsCalls(s.calls, s.children, g, c);
    SendKeepsErrors(s.reported + s.errors, s.children, g);
    assert s.reported + s.errors + [g] == s.reported + (s.errors + [g]);
  }

  /** The steps of a waiter before and at its store. */
  lemma WaiterMoves(s: State, g: nat)
    requires g < |s.children| && StepWaiter(s, g).Some? && !s.children[g].waiter.Sending?
    ensures var c := StepWaiter(s, g).value.children[g];
            && c == s.children[g].(waiter := c.waiter)
            && (|| StepWaiter(s, g).value == WithChild(s, g, c)
                || StepWaiter(s, g).value == WithChild(s, g, c).(alive := false))
            && c.waiter.Unspawned? == s.children[g].waiter.Unspawned?
            && (forall lines :: Accounts(lines, g, s.children[g]) ==> Accounts(lines, g, c))
            && (forall errors :: Reports(errors, g, s.children[g]) ==> Reports(errors, g, c))
  {
    hide OnGen, Count;
  }

  /** Nothing but callers looks at the flag. */
  lemma FlagIsFree(s: State)
    requires Inv(s)
    ensures Inv(s.(alive := false))
  {
    hide LineInv, ErrorInv, CallInv, OnGen, Count;
  }

  lemma WaiterKeepsInv(s: State, g: nat)
    requires Inv(s) && g < |s.children| && StepWaiter(s, g).Some?
    ensures Inv(StepWaiter(s, g).value)
  {
    if s.children[g].waiter.Sending? {
      SendingNeedsRoom(s, g);
      hide *;
      WaiterSendKeepsInv(s, g);
    } else {
      hide *;
      var c := StepWaiter(s, g).value.children[g];
      AccountsOf(s, g);
      WaiterMoves(s, g);
      WithChildKeepsInv(s, g, c);
      FlagIsFree(WithChild(s, g, c));
    }
  }

  lemma SendingNeedsRoom(s: State, g: nat)
    requires g < |s.children| && s.children[g].waiter.Sending? && StepWaiter(s, g).Some?
    ensures |s.errors| < CAPACITY
  {
  }

  lemma ScannerSendKeepsInv(s: State, g: nat)
    requires Inv(s) && g < |s.children| && s.children[g].scanner.Blocked? && |s.outputs| < CAPACITY
    ensures Inv(StepChild(s, ScannerSends(g)).value)
  {
    AccountsOf(s, g);
    hide LineInv, ErrorInv, CallInv, OnGen, Count;
    var c, l := s.children[g].(scanner := Scanning), Line(g, s.children[g].scanner.text);
    UpdateKeepsErrors(s.reported + s.errors, s.children, g, c);
    ChildKeepsCalls(s.calls, s.children, g, c);
    SendKeepsLines(s.delivered + s.outputs, s.children, g);
    assert s.delivered + s.outputs + [l] == s.delivered + (s.outputs + [l]);
  }

  lemma ChildKeepsInv(s: State, a: Action)
    requires Inv(s) && !a.Begin? && !a.CallerStep? && !a.WaiterStep? && a.gen < |s.children| && StepChild(s, a).Some?
    ensures Inv(StepChild(s, a).value)
  {
    AccountsOf(s, a.gen);
    hide Inv, OnGen, Count;
    if a.ScannerSends? {
      ScannerSendKeepsInv(s, a.gen);
    } else {
      WithChildKeepsInv(s, a.gen, StepChild(s, a).value.children[a.gen]);
    }
  }

  lemma StepKeepsInv(s: State, a: Action)
    requires Inv(s) && Step(s, a).Some?
    ensures Inv(Step(s, a).value)
  {
    if a.Begin? {
      MoveKeepsCalls(s.calls, s.children, a.id, Step(s, a).value.calls[a.id]);
    } else if a.CallerStep? {
      if InStart(s.calls[a.id].pc) {
        StartKeepsInv(s, a.id, a.choice);
      } else if InKill(s.calls[a.id].pc) {
        KillKeepsInv(s, a.id, a.choice);
      } else {
        InvokeKeepsInv(s, a.id, a.choice);
      }
    } else if a.WaiterStep? {
      WaiterKeepsInv(s, a.gen);
    } else {
      ChildKeepsInv(s, a);
    }
  }

  lemma {:induction false} ReachableInv(acts: seq<Action>)
    requires Run(acts).Some?
    ensures Inv(Run(acts).value)
  {
    if acts != [] {
      ReachableInv(acts[..|acts| - 1]);
      StepKeepsInv(Run(acts[..|acts| - 1]).value, acts[|acts| - 1]);
    }
  }

  /**
   Main result, any run with any number of concurrent callers, kills and restarts: the lines of
   a generation that reached Invokes, followed by the buffered one and the one the scanner
   holds, are a prefix of what that generation wrote.
   */
  lemma {:induction false} LinesReachCallersInOrder(acts: seq<Action>, g: nat)
    requires Run(acts).Some? && g < |Run(acts).value.children|
    ensures var s := Run(acts).value;
            && OnGen(s.delivered, g) + OnGen(s.outputs, g) + Held(s.children[g]) <= s.children[g].wrote
            && OnGen(s.delivered, g) <= s.children[g].wrote
  {
    ReachableInv(acts);
    var s := Run(acts).value;
    assert Accounts(s.delivered + s.outputs, g, s.children[g]);
    OnGenAppend(s.delivered, s.outputs, g);
  }

  lemma {:induction false} OnGenAppend(xs: seq<Line>, ys: seq<Line>, g: nat)
    ensures OnGen(xs + ys, g) == OnGen(xs, g) + OnGen(ys, g)
  {
    if ys == [] {
      assert xs + ys == xs;
    } else {
      var front, l := ys[..|ys| - 1], ys[|ys| - 1];
      assert xs + ys == (xs + front) + [l] && ys == front + [l];
      OnGenAppend(xs, front, g);
      OnGenOne(xs + front, l);
      OnGenOne(front, l);
    }
  }

  /**
   Main result, any run: the failures received, buffered and blocked are the failed children past
   the store, once each.
   */
  lemma {:induction false} FailuresAreConserved(acts: seq<Action>, g: nat)
    requires Run(acts).Some? && g < |Run(acts).value.children|
    ensures var s := Run(acts).value;
            var c := s.children[g];
            Count(s.reported, g) + Count(s.errors, g) + (if c.waiter.Sending? then 1 else 0)
            == (if c.exit == Some(true) && PassedStore(c.waiter) then 1 else 0)
  {
    ReachableInv(acts);
    var s := Run(acts).value;
    assert Reports(s.reported + s.errors, g, s.children[g]);
    CountAppend(s.reported, s.errors, g);
  }
}
