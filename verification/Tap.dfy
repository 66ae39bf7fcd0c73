/**
 The tap middleware (run/middleware/tap) as a state machine: any number of concurrent
 Invokes share one child process through a reader/writer lock, a double-checked `start`
 and one waiter goroutine per child. Children are numbered in the order they start.

 The lock is modelled by its safety only: a writer excludes everyone, readers exclude
 writers. Go also keeps new readers out while a writer waits; that removes interleavings
 and so cannot break what is proved here.
 */
module TapSupervisor {
  import opened Values

  datatype Flags = Flags(configured: bool, tapInput: bool, tapOutput: bool, tapError: bool)

  /** Where an Invoke is; `ok` says that the inner fn returned a nil error. */
  datatype Pc =
    | CheckLock | CheckRead | CheckUnlock(seen: bool)                    // getAlive
    | WantWrite | Recheck | Launch                                       // start
    | StoreCmd(g: nat) | StoreStdin(g: nat) | StoreAlive(g: nat) | SpawnWaiter(g: nat)
    | WriteUnlock(started: bool)
    | WantRead | TapIn | CallFn | TapOut(ok: bool) | TapErr(ok: bool)    // Invoke
    | ReadUnlock(ok: bool)
    | Done(reached: bool, ok: bool, via: Option<nat>)   // `via` records the stdin used, for stating results

  /** Where the waiter of a child is; Unspawned until the goroutine exists. */
  datatype WaiterPc = Unspawned | InWait | WantStore | Storing | WaiterUnlock | Finished

  datatype Actor = Caller(id: nat) | Waiter(gen: nat)

  datatype Line = InputLine | OutputLine | ErrorLine

  /** A line sent to the stdin field, or a call of the inner fn. */
  datatype Event = Wrote(stdin: Option<nat>, id: nat, line: Line) | Called(id: nat, ok: bool)

  datatype State = State(
    flags: Flags,
    alive: bool, cmd: Option<nat>, stdin: Option<nat>,
    readers: set<nat>, writer: Option<Actor>,
    gens: seq<WaiterPc>, calls: map<nat, Pc>, log: seq<Event>)

  function Init(flags: Flags): State {
    State(flags, false, None, None, {}, None, [], map[], [])
  }

  // ---- steps ------------------------------------------------------------------

  /** `choice` decides whether a launch succeeds and whether the inner fn does. */
  datatype Action = Begin(id: nat) | CallerStep(id: nat, choice: bool) | WaiterStep(gen: nat)

  function Step(s: State, a: Action): Option<State> {
    match a
    case Begin(id) =>
      if id in s.calls then None
      else Some(s.(calls := s.calls[id := if s.flags.configured then CheckLock else Done(false, false, None)]))
    case CallerStep(id, choice) => if id in s.calls then StepCaller(s, id, choice) else None
    case WaiterStep(gen) => if gen < |s.gens| then StepWaiter(s, gen) else None
  }

  function At(s: State, id: nat, pc: Pc): State {
    s.(calls := s.calls[id := pc])
  }

  function StepCaller(s: State, id: nat, choice: bool): Option<State>
    requires id in s.calls
  {
    var pc := s.calls[id];
    if InGetAlive(pc) then StepGetAlive(s, id)
    else if InStart(pc) then StepStart(s, id, choice)
    else StepInvoke(s, id, choice)
  }

  predicate InGetAlive(pc: Pc) {
    pc.CheckLock? || pc.CheckRead? || pc.CheckUnlock?
  }

  predicate InStart(pc: Pc) {
    pc.WantWrite? || pc.Recheck? || pc.Launch? || Announced(pc) || pc.SpawnWaiter? || pc.WriteUnlock?
  }

  function StepGetAlive(s: State, id: nat): Option<State>
    requires id in s.calls && InGetAlive(s.calls[id])
  {
    match s.calls[id]
    case CheckLock =>
      if s.writer == None then Some(At(s, id, CheckRead).(readers := s.readers + {id})) else None
    case CheckRead => Some(At(s, id, CheckUnlock(s.alive)))
    case CheckUnlock(seen) =>
      Some(At(s, id, if seen then WantRead else WantWrite).(readers := s.readers - {id}))
  }

  function StepStart(s: State, id: nat, choice: bool): Option<State>
    requires id in s.calls && InStart(s.calls[id])
  {
    match s.calls[id]
    case WantWrite =>
      if s.writer == None && s.readers == {} then Some(At(s, id, Recheck).(writer := Some(Caller(id)))) else None
    case Recheck => Some(At(s, id, if s.alive then WriteUnlock(true) else Launch))
    case Launch =>
      if choice then Some(At(s, id, StoreCmd(|s.gens|)).(gens := s.gens + [Unspawned]))
      else Some(At(s, id, WriteUnlock(false)))
    case StoreCmd(g) => Some(At(s, id, StoreStdin(g)).(cmd := Some(g)))
    case StoreStdin(g) => Some(At(s, id, StoreAlive(g)).(stdin := Some(g)))
    case StoreAlive(g) => Some(At(s, id, SpawnWaiter(g)).(alive := true))
    case SpawnWaiter(g) =>
      if g < |s.gens| then Some(At(s, id, WriteUnlock(true)).(gens := s.gens[g := InWait])) else None
    case WriteUnlock(started) =>
      Some(At(s, id, if started then WantRead else Done(false, false, None)).(writer := None))
  }

  function StepInvoke(s: State, id: nat, choice: bool): Option<State>
    requires id in s.calls && !InGetAlive(s.calls[id]) && !InStart(s.calls[id])
  {
    match s.calls[id]
    case WantRead =>
      if s.writer == None then Some(At(s, id, TapIn).(readers := s.readers + {id})) else None
    case TapIn => Some(At(s, id, CallFn).(log := s.log + WroteIf(s.flags.tapInput, s.stdin, id, InputLine)))
    case CallFn => Some(At(s, id, TapOut(choice)).(log := s.log + [Called(id, choice)]))
    case TapOut(ok) => Some(At(s, id, TapErr(ok)).(log := s.log + WroteIf(s.flags.tapOutput, s.stdin, id, OutputLine)))
    case TapErr(ok) =>
      Some(At(s, id, ReadUnlock(ok)).(log := s.log + WroteIf(!ok && s.flags.tapError, s.stdin, id, ErrorLine)))
    case ReadUnlock(ok) => Some(At(s, id, Done(true, ok, s.stdin)).(readers := s.readers - {id}))
    case Done(_, _, _) => None
  }

  function WroteIf(enabled: bool, stdin: Option<nat>, id: nat, line: Line): seq<Event> {
    if enabled then [Wrote(stdin, id, line)] else []
  }

  function StepWaiter(s: State, g: nat): Option<State>
    requires g < |s.gens|
  {
    match s.gens[g]
    case Unspawned => None
    case InWait => Some(s.(gens := s.gens[g := WantStore]))    // the child has exited and is reaped
    case WantStore =>
      if s.writer == None && s.readers == {}
      then Some(s.(gens := s.gens[g := Storing], writer := Some(Waiter(g)))) else None
    case Storing => Some(s.(gens := s.gens[g := WaiterUnlock], alive := false))
    case WaiterUnlock => Some(s.(gens := s.gens[g := Finished], writer := None))
    case Finished => None
  }

  /** The state after a run, if every step of it was possible. */
  function Run(flags: Flags, acts: seq<Action>): Option<State> {
    if acts == [] then Some(Init(flags)) else
      var before := Run(flags, acts[..|acts| - 1]);
      if before == None then None else Step(before.value, acts[|acts| - 1])
  }

  // ---- what a pc means --------------------------------------------------------

  predicate HoldsRead(pc: Pc) {
    pc.CheckRead? || pc.CheckUnlock? || pc.TapIn? || pc.CallFn? || pc.TapOut? || pc.TapErr? || pc.ReadUnlock?
  }

  predicate HoldsWrite(pc: Pc) {
    pc.Recheck? || pc.Launch? || Announced(pc) || pc.SpawnWaiter? || pc.WriteUnlock?
  }

  /** A child runs, but `alive` does not say so yet. */
  predicate Announced(pc: Pc) {
    pc.StoreCmd? || pc.StoreStdin? || pc.StoreAlive?
  }

  /** Between a successful `start` and the return of Invoke. */
  predicate PastStart(pc: Pc) {
    || (pc.CheckUnlock? && pc.seen) || (pc.WriteUnlock? && pc.started) || pc.WantRead?
    || pc.TapIn? || pc.CallFn? || pc.TapOut? || pc.TapErr? || pc.ReadUnlock?
  }

  /** The waiter has not stored false yet. */
  predicate Pending(w: WaiterPc) {
    w.Unspawned? || w.InWait? || w.WantStore? || w.Storing?
  }

  /** The child has started and `Wait` has not returned for it. */
  predicate Unreaped(w: WaiterPc) {
    w.Unspawned? || w.InWait?
  }

  /** The caller inside the critical section of `start`, with a child it has not announced. */
  predicate Announcing(s: State, g: nat) {
    && CallerWrites(s)
    && var pc := s.calls[s.writer.value.id]; Announced(pc) && pc.g == g
  }

  predicate Spawning(s: State, g: nat) {
    && CallerWrites(s)
    && s.calls[s.writer.value.id] == SpawnWaiter(g)
  }

  // ---- the invariant ---------------------------------------------------------------

  ghost predicate LockInv(s: State) {
    && (forall t :: t in s.readers <==> t in s.calls && HoldsRead(s.calls[t]))
    && (forall t :: t in s.calls ==> (HoldsWrite(s.calls[t]) <==> s.writer == Some(Caller(t))))
    && (forall g :: 0 <= g < |s.gens| ==>
          (s.gens[g].Storing? || s.gens[g].WaiterUnlock? <==> s.writer == Some(Waiter(g))))
    && (s.writer.Some? ==> s.readers == {})
    && (s.writer.Some? && s.writer.value.Caller? ==> s.writer.value.id in s.calls)
    && (s.writer.Some? && s.writer.value.Waiter? ==> s.writer.value.gen < |s.gens|)
  }

  ghost predicate ChildInv(s: State) {
    && (s.alive ==> s.cmd.Some? && s.stdin == s.cmd && s.cmd.value < |s.gens| && Pending(s.gens[s.cmd.value]))
    && (forall g :: 0 <= g < |s.gens| && Pending(s.gens[g]) ==> (s.alive && s.cmd == Some(g)) || Announcing(s, g))
    && (forall g :: 0 <= g < |s.gens| && s.gens[g].Unspawned? ==> Announcing(s, g) || Spawning(s, g))
    && (forall t :: t in s.calls && PastStart(s.calls[t]) ==> s.stdin.Some?)
    && (s.stdin.Some? ==> s.stdin.value < |s.gens|)
    && (CallerWrites(s) ==> WriterInv(s, s.calls[s.writer.value.id]))
  }

  predicate CallerWrites(s: State) {
    s.writer.Some? && s.writer.value.Caller? && s.writer.value.id in s.calls
  }

  /** What holds inside the critical section of `start`. */
  predicate WriterInv(s: State, pc: Pc) {
    && (pc.Launch? || Announced(pc) ==> !s.alive)
    && (Announced(pc) || pc.SpawnWaiter? ==> pc.g < |s.gens| && s.gens[pc.g].Unspawned?)
    && (pc.StoreStdin? ==> s.cmd == Some(pc.g))
    && (pc.StoreAlive? ==> s.cmd == s.stdin == Some(pc.g))
    && (pc.SpawnWaiter? ==> s.alive && s.cmd == s.stdin == Some(pc.g))
  }

  /** The first half of the critical section: up to the launch. */
  predicate Entering(pc: Pc) {
    pc.WantWrite? || pc.Recheck? || pc.Launch?
  }

  lemma GetAliveKeepsLock(s: State, id: nat)
    requires LockInv(s) && id in s.calls && InGetAlive(s.calls[id]) && StepGetAlive(s, id).Some?
    ensures LockInv(StepGetAlive(s, id).value)
  {
  }

  lemma EnterKeepsLock(s: State, id: nat, choice: bool)
    requires LockInv(s) && id in s.calls && Entering(s.calls[id]) && StepStart(s, id, choice).Some?
    ensures LockInv(StepStart(s, id, choice).value)
  {
  }

  lemma AnnounceKeepsLock(s: State, id: nat, choice: bool)
    requires LockInv(s) && id in s.calls && InStart(s.calls[id]) && !Entering(s.calls[id])
    requires StepStart(s, id, choice).Some?
    ensures LockInv(StepStart(s, id, choice).value)
  {
  }

  /** Between the lines an Invoke keeps the reader lock. */
  predicate Reading(pc: Pc) {
    pc.TapIn? || pc.CallFn? || pc.TapOut? || pc.TapErr?
  }

  lemma ReadingKeepsLock(s: State, id: nat, choice: bool)
    requires LockInv(s) && id in s.calls && Reading(s.calls[id]) && StepInvoke(s, id, choice).Some?
    ensures LockInv(StepInvoke(s, id, choice).value)
  {
    hide WroteIf;
  }

  lemma InvokeKeepsLock(s: State, id: nat, choice: bool)
    requires LockInv(s) && id in s.calls && !InGetAlive(s.calls[id]) && !InStart(s.calls[id])
    requires StepInvoke(s, id, choice).Some?
    ensures LockInv(StepInvoke(s, id, choice).value)
  {
    if Reading(s.calls[id]) {
      ReadingKeepsLock(s, id, choice);
    }
  }

  lemma GetAliveKeepsChild(s: State, id: nat)
    requires LockInv(s) && ChildInv(s) && id in s.calls && InGetAlive(s.calls[id]) && StepGetAlive(s, id).Some?
    ensures ChildInv(StepGetAlive(s, id).value)
  {
  }

  lemma LaunchKeepsChild(s: State, id: nat, choice: bool)
    requires LockInv(s) && ChildInv(s) && id in s.calls && s.calls[id].Launch?
    ensures ChildInv(StepStart(s, id, choice).value)
  {
  }

  lemma EnterKeepsChild(s: State, id: nat, choice: bool)
    requires LockInv(s) && ChildInv(s) && id in s.calls && Entering(s.calls[id]) && StepStart(s, id, choice).Some?
    ensures ChildInv(StepStart(s, id, choice).value)
  {
    if s.calls[id].Launch? {
      LaunchKeepsChild(s, id, choice);
    }
  }

  lemma AnnounceKeepsChild(s: State, id: nat, choice: bool)
    requires LockInv(s) && ChildInv(s) && id in s.calls && InStart(s.calls[id]) && !Entering(s.calls[id])
    requires StepStart(s, id, choice).Some?
    ensures ChildInv(StepStart(s, id, choice).value)
  {
  }

  lemma InvokeKeepsChild(s: State, id: nat, choice: bool)
    requires LockInv(s) && ChildInv(s) && id in s.calls && !InGetAlive(s.calls[id]) && !InStart(s.calls[id])
    requires StepInvoke(s, id, choice).Some?
    ensures ChildInv(StepInvoke(s, id, choice).value)
  {
  }

  lemma WaiterKeepsLock(s: State, g: nat)
    requires LockInv(s) && g < |s.gens| && StepWaiter(s, g).Some?
    ensures LockInv(StepWaiter(s, g).value)
  {
  }

  lemma WaiterKeepsChild(s: State, g: nat)
    requires LockInv(s) && ChildInv(s) && g < |s.gens| && StepWaiter(s, g).Some?
    ensures ChildInv(StepWaiter(s, g).value)
  {
  }

  // ---- what each Invoke has said and done -----------------------------------------

  /** The lines and calls of one Invoke, in order. */
  function EventsOf(log: seq<Event>, id: nat): seq<Event> {
    if log == [] then [] else
      var e := log[|log| - 1];
      EventsOf(log[..|log| - 1], id) + (if e.id == id then [e] else [])
  }

  /** What an Invoke that got this far must have said and done, all of it to one process. */
  function Script(flags: Flags, stdin: Option<nat>, id: nat, pc: Pc): seq<Event> {
    var input := WroteIf(flags.tapInput, stdin, id, InputLine);
    match pc
    case CallFn => input
    case TapOut(ok) => input + [Called(id, ok)]
    case TapErr(ok) => input + [Called(id, ok)] + WroteIf(flags.tapOutput, stdin, id, OutputLine)
    case ReadUnlock(ok) => FullScript(flags, stdin, id, ok)
    case Done(reached, ok, via) => if reached then FullScript(flags, via, id, ok) else []
    case _ => []
  }

  /** One complete Invoke: the input, one call, the output, and the error if there was one. */
  function FullScript(flags: Flags, stdin: Option<nat>, id: nat, ok: bool): seq<Event> {
    WroteIf(flags.tapInput, stdin, id, InputLine) + [Called(id, ok)]
    + WroteIf(flags.tapOutput, stdin, id, OutputLine) + WroteIf(!ok && flags.tapError, stdin, id, ErrorLine)
  }

  ghost predicate HistoryInv(s: State) {
    && (forall t :: t in s.calls ==> EventsOf(s.log, t) == Script(s.flags, s.stdin, t, s.calls[t]))
    && (forall t :: t !in s.calls ==> EventsOf(s.log, t) == [])
    && (forall t :: t in s.calls && s.calls[t].Done? && s.calls[t].reached ==>
          s.calls[t].via.Some? && s.calls[t].via.value < |s.gens|)
  }

  lemma EventsOfOne(log: seq<Event>, e: Event)
    ensures forall id :: EventsOf(log + [e], id) == EventsOf(log, id) + (if e.id == id then [e] else [])
  {
    assert (log + [e])[..|log|] == log;
  }

  lemma EventsOfWroteIf(log: seq<Event>, enabled: bool, stdin: Option<nat>, id: nat, line: Line)
    ensures forall t :: EventsOf(log + WroteIf(enabled, stdin, id, line), t) ==
                        EventsOf(log, t) + (if t == id then WroteIf(enabled, stdin, id, line) else [])
  {
    assert log + [] == log;
    EventsOfOne(log, Wrote(stdin, id, line));
  }

  /** A step that only appends what the script of the Invoke says next. */
  lemma LogKeepsHistory(s: State, id: nat, pc: Pc, added: seq<Event>)
    requires HistoryInv(s) && id in s.calls && !pc.Done?
    requires Script(s.flags, s.stdin, id, pc) == Script(s.flags, s.stdin, id, s.calls[id]) + added
    requires forall t :: EventsOf(s.log + added, t) == EventsOf(s.log, t) + (if t == id then added else [])
    ensures HistoryInv(At(s, id, pc).(log := s.log + added))
  {
    hide EventsOf, Script;
    assert forall t :: EventsOf(s.log, t) + [] == EventsOf(s.log, t);
  }

  lemma InvokeKeepsHistory(s: State, id: nat, choice: bool)
    requires ChildInv(s) && HistoryInv(s)
    requires id in s.calls && !InGetAlive(s.calls[id]) && !InStart(s.calls[id]) && StepInvoke(s, id, choice).Some?
    ensures HistoryInv(StepInvoke(s, id, choice).value)
  {
    hide ChildInv, HistoryInv, EventsOf, WroteIf;
    match s.calls[id]
    case TapIn =>
      EventsOfWroteIf(s.log, s.flags.tapInput, s.stdin, id, InputLine);
      LogKeepsHistory(s, id, CallFn, WroteIf(s.flags.tapInput, s.stdin, id, InputLine));
    case CallFn =>
      EventsOfOne(s.log, Called(id, choice));
      LogKeepsHistory(s, id, TapOut(choice), [Called(id, choice)]);
    case TapOut(ok) =>
      EventsOfWroteIf(s.log, s.flags.tapOutput, s.stdin, id, OutputLine);
      LogKeepsHistory(s, id, TapErr(ok), WroteIf(s.flags.tapOutput, s.stdin, id, OutputLine));
    case TapErr(ok) =>
      EventsOfWroteIf(s.log, !ok && s.flags.tapError, s.stdin, id, ErrorLine);
      LogKeepsHistory(s, id, ReadUnlock(ok), WroteIf(!ok && s.flags.tapError, s.stdin, id, ErrorLine));
    case WantRead => EnterReadKeepsHistory(s, id);
    case ReadUnlock(_) =>
      ReaderHasStdin(s, id);
      LeaveKeepsHistory(s, id);
  }

  lemma EnterReadKeepsHistory(s: State, id: nat)
    requires HistoryInv(s) && id in s.calls && s.calls[id].WantRead?
    ensures HistoryInv(At(s, id, TapIn).(readers := s.readers + {id}))
  {
  }

  lemma LeaveKeepsHistory(s: State, id: nat)
    requires HistoryInv(s) && id in s.calls && s.calls[id].ReadUnlock?
    requires s.stdin.Some? && s.stdin.value < |s.gens|
    ensures HistoryInv(At(s, id, Done(true, s.calls[id].ok, s.stdin)).(readers := s.readers - {id}))
  {
  }

  lemma ReaderHasStdin(s: State, id: nat)
    requires ChildInv(s) && id in s.calls && PastStart(s.calls[id])
    ensures s.stdin.Some? && s.stdin.value < |s.gens|
  {
  }

  /** No `start` can replace stdin while an Invoke is between its lines: it holds the reader lock. */
  lemma StartKeepsHistory(s: State, id: nat, choice: bool)
    requires LockInv(s) && HistoryInv(s) && id in s.calls && InStart(s.calls[id]) && StepStart(s, id, choice).Some?
    ensures HistoryInv(StepStart(s, id, choice).value)
  {
    hide EventsOf, WroteIf, FullScript;
    if s.calls[id].StoreStdin? {
      StoreStdinKeepsHistory(s, id);
    } else {
      hide LockInv;
    }
  }

  lemma StoreStdinKeepsHistory(s: State, id: nat)
    requires LockInv(s) && HistoryInv(s) && id in s.calls && s.calls[id].StoreStdin?
    ensures HistoryInv(At(s, id, StoreAlive(s.calls[id].g)).(stdin := Some(s.calls[id].g)))
  {
    hide EventsOf, WroteIf, FullScript;
    var stdin := Some(s.calls[id].g);
    forall t | t in s.calls && t != id
      ensures Script(s.flags, stdin, t, s.calls[t]) == Script(s.flags, s.stdin, t, s.calls[t])
    {
      assert s.writer == Some(Caller(id)) && s.readers == {};
      assert !HoldsRead(s.calls[t]);
    }
  }

  // ---- every reachable state ---------------------------------------------------------

  ghost predicate Inv(s: State) {
    LockInv(s) && ChildInv(s) && HistoryInv(s)
  }

  lemma CallerKeepsInv(s: State, id: nat, choice: bool)
    requires Inv(s) && id in s.calls && StepCaller(s, id, choice).Some?
    ensures Inv(StepCaller(s, id, choice).value)
  {
    hide LockInv, ChildInv, HistoryInv;
    if InGetAlive(s.calls[id]) {
      GetAliveKeepsLock(s, id);
      GetAliveKeepsChild(s, id);
      GetAliveKeepsHistory(s, id);
    } else if InStart(s.calls[id]) {
      StartKeepsHistory(s, id, choice);
      if Entering(s.calls[id]) {
        EnterKeepsLock(s, id, choice);
        EnterKeepsChild(s, id, choice);
      } else {
        AnnounceKeepsLock(s, id, choice);
        AnnounceKeepsChild(s, id, choice);
      }
    } else {
      InvokeKeepsLock(s, id, choice);
      InvokeKeepsChild(s, id, choice);
      InvokeKeepsHistory(s, id, choice);
    }
  }

  lemma GetAliveKeepsHistory(s: State, id: nat)
    requires HistoryInv(s) && id in s.calls && InGetAlive(s.calls[id]) && StepGetAlive(s, id).Some?
    ensures HistoryInv(StepGetAlive(s, id).value)
  {
  }

  lemma BeginKeepsInv(s: State, id: nat)
    requires Inv(s) && Step(s, Begin(id)).Some?
    ensures Inv(Step(s, Begin(id)).value)
  {
    hide ChildInv, HistoryInv;
    BeginKeepsChild(s, id);
    BeginKeepsHistory(s, id);
  }

  lemma BeginKeepsChild(s: State, id: nat)
    requires LockInv(s) && ChildInv(s) && Step(s, Begin(id)).Some?
    ensures ChildInv(Step(s, Begin(id)).value)
  {
  }

  lemma BeginKeepsHistory(s: State, id: nat)
    requires HistoryInv(s) && Step(s, Begin(id)).Some?
    ensures HistoryInv(Step(s, Begin(id)).value)
  {
    hide EventsOf, FullScript;
  }

  lemma WaiterKeepsHistory(s: State, g: nat)
    requires HistoryInv(s) && g < |s.gens| && StepWaiter(s, g).Some?
    ensures HistoryInv(StepWaiter(s, g).value)
  {
    hide EventsOf, Script;
  }

  lemma StepKeepsInv(s: State, a: Action)
    requires Inv(s) && Step(s, a).Some?
    ensures Inv(Step(s, a).value)
    ensures Step(s, a).value.flags == s.flags
  {
    hide LockInv, ChildInv, HistoryInv;
    match a
    case Begin(id) => BeginKeepsInv(s, id);
    case CallerStep(id, choice) => CallerKeepsInv(s, id, choice);
    case WaiterStep(g) =>
      WaiterKeepsLock(s, g);
      WaiterKeepsChild(s, g);
      WaiterKeepsHistory(s, g);
  }

  lemma {:induction false} ReachableInv(flags: Flags, acts: seq<Action>)
    requires Run(flags, acts).Some?
    ensures Inv(Run(flags, acts).value) && Run(flags, acts).value.flags == flags
  {
    if acts != [] {
      var front := acts[..|acts| - 1];
      ReachableInv(flags, front);
      StepKeepsInv(Run(flags, front).value, acts[|acts| - 1]);
    }
  }

  /** The children whose waiter has not stored false. */
  function PendingGens(s: State): set<nat> {
    set g: nat | g < |s.gens| && Pending(s.gens[g])
  }

  /**
   Main result: `alive` holds exactly while one waiter is outstanding, and that waiter is the
   one of `cmd`. The only other time a waiter is outstanding is inside `start`, between the
   launch of a child and the store to `alive`, and then it is the only one.
   */
  lemma {:induction false} AliveIffOneWaiter(flags: Flags, acts: seq<Action>)
    requires Run(flags, acts).Some?
    ensures var s := Run(flags, acts).value;
            && (s.alive ==> s.cmd.Some? && s.stdin == s.cmd && PendingGens(s) == {s.cmd.value})
            && (!s.alive ==> PendingGens(s) == {} || exists g: nat :: Announcing(s, g) && PendingGens(s) == {g})
  {
    ReachableInv(flags, acts);
    var s := Run(flags, acts).value;
    if !s.alive && PendingGens(s) != {} {
      var g :| g in PendingGens(s);
      assert Announcing(s, g);
      assert PendingGens(s) == {g};
    }
  }

  /** Hence at most one child that has been started is not yet reaped. */
  lemma {:induction false} AtMostOneChild(flags: Flags, acts: seq<Action>, g: nat, h: nat)
    requires Run(flags, acts).Some?
    requires var s := Run(flags, acts).value;
             g < |s.gens| && h < |s.gens| && Unreaped(s.gens[g]) && Unreaped(s.gens[h])
    ensures g == h
  {
    AliveIffOneWaiter(flags, acts);
    var s := Run(flags, acts).value;
    assert g in PendingGens(s) && h in PendingGens(s);
  }

  /**
   Main result: an Invoke that returned either never got to the fn and said nothing, or called
   it once and sent its lines, in order and complete, to one child that had been started.
   */
  lemma {:induction false} InvocationTalksToOneChild(flags: Flags, acts: seq<Action>, id: nat)
    requires Run(flags, acts).Some? && id in Run(flags, acts).value.calls
    requires Run(flags, acts).value.calls[id].Done?
    ensures var s := Run(flags, acts).value;
            var pc := s.calls[id];
            if pc.reached then
              && pc.via.Some? && pc.via.value < |s.gens|
              && EventsOf(s.log, id) == FullScript(flags, pc.via, id, pc.ok)
            else EventsOf(s.log, id) == []
  {
    ReachableInv(flags, acts);
  }

  // ---- lock protection -----------------------------------------------------------------

  datatype Field = AliveField | CmdField | StdinField

  /** The fields the next step of an actor may read, and those it writes; StepFollowsTable ties both to Step. */
  function Reads(s: State, a: Actor): set<Field> {
    if a.Caller? && a.id in s.calls then
      var pc := s.calls[a.id];
      if pc.CheckRead? || pc.Recheck? then {AliveField}
      else if pc.TapIn? || pc.TapOut? || pc.TapErr? || pc.ReadUnlock? then {StdinField} else {}
    else {}
  }

  function Writes(s: State, a: Actor): set<Field> {
    if a.Caller? && a.id in s.calls then
      var pc := s.calls[a.id];
      if pc.StoreCmd? then {CmdField} else if pc.StoreStdin? then {StdinField}
      else if pc.StoreAlive? then {AliveField} else {}
    else if a.Waiter? && a.gen < |s.gens| && s.gens[a.gen].Storing? then {AliveField}
    else {}
  }

  function ActorOf(a: Action): Actor {
    match a
    case Begin(id) => Caller(id)
    case CallerStep(id, _) => Caller(id)
    case WaiterStep(gen) => Waiter(gen)
  }

  /** Two states that differ in the three fields only, and agree on `fields`. */
  predicate AgreeOn(fields: set<Field>, s: State, t: State) {
    && t == s.(alive := t.alive, cmd := t.cmd, stdin := t.stdin)
    && (AliveField in fields ==> t.alive == s.alive)
    && (CmdField in fields ==> t.cmd == s.cmd)
    && (StdinField in fields ==> t.stdin == s.stdin)
  }

  /** A step leaves a field alone unless it is in `fields`. */
  predicate ChangesOnly(fields: set<Field>, s: State, s': State) {
    && (AliveField !in fields ==> s'.alive == s.alive)
    && (CmdField !in fields ==> s'.cmd == s.cmd)
    && (StdinField !in fields ==> s'.stdin == s.stdin)
  }

  lemma GetAliveFollowsTable(s: State, t: State, id: nat)
    requires id in s.calls && InGetAlive(s.calls[id]) && AgreeOn(Reads(s, Caller(id)), s, t)
    ensures StepGetAlive(t, id).Some? == StepGetAlive(s, id).Some?
    ensures StepGetAlive(s, id).Some? ==>
              && ChangesOnly(Writes(s, Caller(id)), s, StepGetAlive(s, id).value)
              && AgreeOn(Writes(s, Caller(id)), StepGetAlive(s, id).value, StepGetAlive(t, id).value)
  {
  }

  lemma StartFollowsTable(s: State, t: State, id: nat, choice: bool)
    requires id in s.calls && InStart(s.calls[id]) && AgreeOn(Reads(s, Caller(id)), s, t)
    ensures StepStart(t, id, choice).Some? == StepStart(s, id, choice).Some?
    ensures StepStart(s, id, choice).Some? ==>
              && ChangesOnly(Writes(s, Caller(id)), s, StepStart(s, id, choice).value)
              && AgreeOn(Writes(s, Caller(id)), StepStart(s, id, choice).value, StepStart(t, id, choice).value)
  {
  }

  lemma InvokeFollowsTable(s: State, t: State, id: nat, choice: bool)
    requires id in s.calls && !InGetAlive(s.calls[id]) && !InStart(s.calls[id])
    requires AgreeOn(Reads(s, Caller(id)), s, t)
    ensures StepInvoke(t, id, choice).Some? == StepInvoke(s, id, choice).Some?
    ensures StepInvoke(s, id, choice).Some? ==>
              && ChangesOnly(Writes(s, Caller(id)), s, StepInvoke(s, id, choice).value)
              && AgreeOn(Writes(s, Caller(id)), StepInvoke(s, id, choice).value, StepInvoke(t, id, choice).value)
  {
    hide WroteIf;
  }

  lemma WaiterFollowsTable(s: State, t: State, g: nat)
    requires g < |s.gens| && AgreeOn(Reads(s, Waiter(g)), s, t)
    ensures StepWaiter(t, g).Some? == StepWaiter(s, g).Some?
    ensures StepWaiter(s, g).Some? ==>
              && ChangesOnly(Writes(s, Waiter(g)), s, StepWaiter(s, g).value)
              && AgreeOn(Writes(s, Waiter(g)), StepWaiter(s, g).value, StepWaiter(t, g).value)
  {
  }

  /**
   The table is complete: a step changes no field but those it is said to write, and two states
   that agree on what it is said to read take the same step, to the same result in everything
   but the fields it leaves alone.
   */
  lemma StepFollowsTable(s: State, t: State, a: Action)
    requires AgreeOn(Reads(s, ActorOf(a)), s, t)
    ensures Step(t, a).Some? == Step(s, a).Some?
    ensures Step(s, a).Some? ==>
              && ChangesOnly(Writes(s, ActorOf(a)), s, Step(s, a).value)
              && AgreeOn(Writes(s, ActorOf(a)), Step(s, a).value, Step(t, a).value)
  {
    hide StepGetAlive, StepStart, StepInvoke, StepWaiter, Reads;
    match a
    case Begin(_) =>
    case CallerStep(id, choice) =>
      if id in s.calls {
        if InGetAlive(s.calls[id]) {
          GetAliveFollowsTable(s, t, id);
        } else if InStart(s.calls[id]) {
          StartFollowsTable(s, t, id, choice);
        } else {
          InvokeFollowsTable(s, t, id, choice);
        }
      }
    case WaiterStep(g) =>
      if g < |s.gens| {
        WaiterFollowsTable(s, t, g);
      }
  }

  /** No two actors can be about to touch the same field with one of them writing it. */
  lemma {:induction false} NoDataRace(flags: Flags, acts: seq<Action>, a: Actor, b: Actor)
    requires Run(flags, acts).Some? && a != b
    ensures var s := Run(flags, acts).value;
            Writes(s, a) * (Reads(s, b) + Writes(s, b)) == {}
    ensures var s := Run(flags, acts).value;
            && (Writes(s, a) != {} ==> s.writer == Some(a) && s.readers == {})
            && (Reads(s, a) != {} ==> s.writer == Some(a) || (a.Caller? && a.id in s.readers))
            && (StdinField in Reads(s, a) ==> s.stdin.Some?)
  {
    ReachableInv(flags, acts);
  }
}
