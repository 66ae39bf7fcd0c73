# A verified model of fnrun

fnrun wires a business fn, a stack of middleware and a source together from a configuration tree
and then serves messages. This project models the parts of it that are hard to get right and proves
what they promise: two supervisors that share child processes between goroutines, a bounded pool,
the nested middleware calls, configuration that refers to itself, and sources that must not
acknowledge a message whose fn failed.

## How the model is built

**The outside world.** Everything the runner cannot compute itself (a business fn, a broker, a
library call, a child process) is a query answered by an oracle, a function of the whole history and
the query (`World.dfy`). Answered queries make up the trace. A theorem for every oracle holds for
every behaviour of the outside, including one that changes over time.

**Fns and middleware** are two mutually recursive datatypes with an interpreter,
`Components.InvokeFn`, `InvokeMw` and `InvokeLeaf` (run/fn/middleware/middleware.go:16-18,
run/middleware/pipeline/pipeline.go:27-57, run/fn/loader/loader.go:58-60, run/fn/pool/pool.go:37-46,
and the `Invoke` of each middleware). `Composed` hands `Wrap(b, f)` to `a`, which is a larger fn, so
structural recursion does not apply: the interpreter terminates by the measure `Weight`.
`TwoPass.dfy` gives the reference: a flat list of leaves, a descent through the inputs and an unwinding through the
outputs. `Accounting.dfy` proves what every stack keeps, and `Leaves.dfy` holds the leaves whose Go
code updates variables or fields.

**Configuration** is a family of functions in `Loading.dfy` over configuration values. Loaders, pools
and pipelines are registered under keys of their own (cmd/fnrunner/main.go:58, 59, 71, 79), so a
configuration can nest them in themselves; every nested call takes a smaller value, where nil is
smaller than anything else, and Dafny accepts that as the termination measure for every finite
configuration. `Loaders.dfy` holds the objects that are updated in place.

**Supervisors and the pool** are state machines: `TapSupervisor` (run/middleware/tap/tap.go),
`ServiceSupervisor` (run/fn/cli/service.go), `PoolMachine` (run/fn/pool/pool.go) and `LockRenewal`
(run/source/azure/servicebus/servicebus.go:62-98). A run is any list of possible steps, by any number
of callers, children, scanners and waiters; every access to a shared variable is a step of its own.
`Step` dispatches to one function per Go function: `StepGetAlive` (tap.go:164-169), `StepStart`
(tap.go:125-162, service.go:48-99), `StepInvoke` (tap.go:93-123, service.go:101-125), `StepKill`
(service.go:26-39), `StepWaiter` (tap.go:154-159, service.go:88-96), `StepChild` (service.go:81-86 and
the child itself), `StepHandler` and `StepRenewer` (servicebus.go:83-97 and 68-81).
`SupervisorObjects.dfy` has the Go objects, whose methods make the same steps when undisturbed.
`PooledService` puts services into the pool: the pool guarantees the exclusive use that the service
relies on.

**Sources** are methods over a finite number of polls, turns or rounds, which is what can be observed
of an endless loop. `Delivery.dfy` states what all of them share: an acknowledgement in the trace is
justified if the delivery just before it called the business fn exactly once and that call returned nil.

**Answers and records.** The machines carry records for stating results (what was reported, when a
renewal failed). `ServiceEndings`, `TapAnswers` and `LockRenewalAnswers` tie every answer and every
record to the steps the run took, so that no result rests on a record alone. `Inputs` and `LeafFacts`
say what a business fn is called with and, layer by layer, what is asked around it. `LoadingPlans` is a
second account of configuration, in two phases, to which loading is proved equal.

## What the code does not guarantee

- A service can have two live children. After a timeout the next call starts a new child while the old
  one is not yet reaped; when the old waiter then stores false, the new child looks dead
  (`ServiceChildren.LateWaiterClearsNewerChild`). One child at all times is equivalent to every launch
  finding earlier children reaped (`OneChildIff`), and serial callers are safe until a first kill
  (`NoKillOneChild`). For them the cause is always a kill of the old child or the store of a still
  older waiter (`ServiceOverlap.OverlapHasCause`).
- A line of a killed child can be returned as the reply to a later call
  (`ServiceChildren.StaleLineReachesLaterCall`). Under the assumptions of `ServiceReplies`, all replies
  of a run are right if and only if no line of a given-up generation was taken (`RepliesMatchIff`).
  A right reply is one of the generation the call wrote to: lines carry their generation in the model,
  which callers do not see, and a stale line that happens to have the right text counts as wrong.
- An Invoke of a service can wait for good if its context does not end: a child that exits without an
  error sends none (run/fn/cli/service.go:93-95), so if it has not answered nothing wakes its caller
  (`ServiceLiveness.QuietExitHangs`; `CompletesIff` says exactly when there is a way out).
- `start` of the service stores `alive` without the lock (run/fn/cli/service.go:76), while a late
  waiter may be about to store it. Serial callers can run into that race exactly if they launch before
  an earlier waiter has stored (`ServiceRace.RaceIff`), which takes a kill (`NoKillNoRace`).
- A lock renewal that fails while the fn runs can cancel the context of the settlement although the
  fn succeeded (`LockRenewal.CancelCanReachSettlement`). It does so exactly in the runs in which the
  goroutine cancels before the handler has returned (`SettledCancelledIff`), and it can still happen
  exactly while a renewal can fail or once a renewal error was acted on (`CanEndCancelledIff`).
- `Serve` of the kafka source closes its client and keeps it (run/source/kafka/kafka.go:29-31, 65). With
  messages left and no failing set-up, a Serve consumes nothing if and only if an earlier one closed
  the client (`KafkaSource.Serve`), and the restart loop of cmd/fnrunner/main.go:101-111 serves the same
  source again (`ServeTwice`).
- The lambda source can leave an invocation whose fn succeeded unanswered: exactly if the output is a map
  that cannot be marshalled (`LambdaSource.HandleAccounts`, with an input in `SuccessCanGoUnanswered`).
  It does not look at whether a response could be posted (`ResponsePostIgnored`).

The documentation of sources (README.md:24-26) speaks of marking messages as handled only on success;
that half holds for every source here.

## Model

| member | source | states |
|---|---|---|
| Config.GetSinglePair | run/config/config.go:109-117 | succeeds exactly on maps with one entry, and returns that entry |
| LoadingProps.DispatchSound | run/config/config.go:61-101 | Configure is rejected by type exactly if the target does not take that type (nil: unless it has an empty configurer or does not require configuration); otherwise the value reaches the configurer unchanged |
| Loading.DecodePool | run/fn/pool/pool.go:76-103 | a decoded pool always has room for at least one fn, 0 standing for 8, and keeps its template |
| LoadingProps.LoadedIsBuilt | run/fn/loader/loader.go:19-52 | whatever the nesting, a successful load leaves no loader empty and fills every pool to its configured concurrency |
| LoadingProps.LeafFnsMultiply | run/fn/pool/pool.go:97-110 | a fn built for a list of pool sizes has as many business fns below it as their product |
| LoadingProps.PoolsBuildTheProduct | run/fn/pool/pool.go:61-110 | nested pools build exactly the product of their concurrencies, read off the configuration alone |
| LoadingProps.LoadedSourceIsFilled | run/source/loader/loader.go:17-43 | a source loader that loaded holds a source at every level |
| LoadingProps.EntriesAppend | run/middleware/pipeline/pipeline.go:59-104 | configuring a concatenation of entries: the first error in order wins, otherwise the middleware in order |
| LoadingProps.SplicePreserves | run/middleware/pipeline/pipeline.go:59-104 | replacing a nested pipeline entry by its entries, anywhere in an array, keeps success or the same first error, and the same leaves in the same order |
| LoadingProps.BareEntryIsNothing | run/middleware/pipeline/pipeline.go:63-72 | an entry naming a pipeline without configuration behaves as if deleted |
| LoadingProps.SamePipelineSameInvoke | run/middleware/pipeline/pipeline.go:55-57 | pipelines with the same leaves in the same order answer every Invoke alike, in every world |
| LoadingPlans.FnIsBuiltAsRead | run/fn/loader/loader.go:19-52 | loading a fn at any depth of loaders and pools is first following names through the registry, then asking the configurer of the fn found with its own configuration; the first error in that order is returned |
| LoadingPlans.DecodeFailsIff | run/fn/pool/pool.go:77-100 | a pool configuration is refused exactly for a duration or concurrency of the wrong type, an unreadable duration or a negative concurrency; otherwise a positive concurrency is taken as it is and 0 or none is 8 |
| LoadingPlans.MwIsBuiltAsRead | run/middleware/pipeline/pipeline.go:59-104 | loading middleware at any depth of pipelines gives the leaves in the order in which they appear, each configured by its own value, or the first error |
| LoadingPlans.SourceIsBuiltAsRead | run/source/loader/loader.go:17-43 | the same for sources under source loaders |
| LoadingPlans.RunnerHoldsConfigured | run/runner/runner.go:30-81 | a runner holds the fn, the middleware leaves in order and the source its configuration names, and otherwise reports the first of: no source, no fn, the error of the fn, of the middleware, of the source, where a missing registration is an error of its own |
| Loaders.WrappedFn.ConfigureString | run/fn/loader/loader.go:19-32 | the loader holds what loading the key yields, or reports its error and keeps the fn it had |
| Loaders.WrappedFn.ConfigureMap | run/fn/loader/loader.go:34-52 | the same for a one-entry map, with the error for other maps |
| Loaders.WrappedFn.Invoke | run/fn/loader/loader.go:58-60 | invoking a configured loader means what the interpreter says |
| Loaders.WrappedSource.Configure | run/source/loader/loader.go:17-30 | holds the source found and configured, or reports the error and keeps the one it had |
| Loaders.WrappedSource.ConfigureString | run/source/loader/loader.go:32-34 | as for the fn loader, for sources |
| Loaders.WrappedSource.ConfigureMap | run/source/loader/loader.go:36-43 | as for the fn loader, for sources |
| Loaders.PipelineMiddleware.ConfigureArray | run/middleware/pipeline/pipeline.go:59-104 | the loop yields the right-nested composition of all entries, or the first error with the old middleware kept |
| Loaders.Runner.ConfigureMap | run/runner/runner.go:30-81 | the steps of the object are those of `ConfigureRunner`, which `RunnerHoldsConfigured` describes; on any error the runner keeps the fn and source it had |
| Loaders.RunnerIsReady | run/runner/runner.go:30-81 | a runner that configured itself has every loader filled, every pool full, the product of concurrencies in business fns, and is wrapped exactly if middleware was configured |
| PipelineMw.Compose | run/middleware/pipeline/pipeline.go:40-48 | the backwards loop builds the right-nested middleware, whose leaves are all leaves in order |
| PipelineMw.ComposeAppend | run/middleware/pipeline/pipeline.go:36-48 | compose(a ++ b) means composed(compose a, compose b) |
| PipelineMw.ComposeMonoid | run/middleware/pipeline/pipeline.go:27-57 | identity is a unit on both sides, composition is associative, and a pipeline means what it holds |
| PipelineMw.WrapTwice | run/fn/middleware/middleware.go:16-24 | wrapping twice is wrapping once in the composition |
| TwoPass.LeafIsTwoPass | run/middleware/jq/jq.go:88-100 | every shipped leaf is an input half, at most one call of the inner fn, and an output half |
| TwoPass.InvokeIsLayers | run/middleware/pipeline/pipeline.go:27-57 | any nesting of composed middleware and pipelines means its flat list of leaves, one around the other |
| TwoPass.LayersIsMachine | run/middleware/pipeline/pipeline.go:36-38 | layers around layers compute what the descending and unwinding machine computes |
| TwoPass.InvokeIsTwoPasses | run/middleware/pipeline/pipeline.go:36-57 | Invoke of any middleware refines the two-pass machine over the flat list |
| TwoPass.SameLeavesSameMeaning | run/middleware/pipeline/pipeline.go:36-48 | nesting, grouping and identities carry no meaning |
| TwoPass.HaltIgnoresTheRest | run/middleware/jq/jq.go:88-92 | a layer that fails on the way down makes the fn and all later layers irrelevant |
| Inputs.FnMakes | run/fn/middleware/middleware.go:16-18 | through loaders, pools and any nesting of middleware the business fn is called with the input and context at which the descent through the layers ends, once, and not at all if the descent ends early |
| Inputs.BaseIsAsked | fn/fn.go:12-14 | a business fn is asked with the input, and its answer is the reply |
| Inputs.IdentityReturnsInput | run/fn/identity/identity.go:12-14 | the identity fn hands its input back |
| Inputs.PoolUsesTaken | run/fn/pool/pool.go:37-46 | a pool calls the fn it was handed and hands that one back, or reports the timeout without a call |
| LeafFacts.KeyFacts | run/middleware/key/key.go:27-35 | the fn gets the value under the key, nil if absent; only maps are accepted |
| LeafFacts.DeadlineFacts | run/middleware/timeout/timeout.go:29-34 | the fn runs under a context with the deadline |
| LeafFacts.GateFacts | run/middleware/ratelimiter/ratelimiter.go:40-50 | the fn is called once if the call is admitted, and otherwise the refusal is returned |
| LeafFacts.TapFacts | run/middleware/tap/tap.go:93-123 | what a tap writes before and after the call, as far as it is tapped, in order, and that it returns the fn's own output and error |
| LeafFacts.CollectedFacts | run/middleware/jq/jq.go:44-61 | an iterator stands for its first error, its only value, or the list of its values |
| LeafFacts.JqApplyFacts | run/middleware/jq/jq.go:38-61 | without code nothing is asked; with code the iterator's result replaces the value |
| LeafFacts.JqFacts | run/middleware/jq/jq.go:88-100 | input code before the fn, output code after it, and when neither fn nor output code runs |
| LeafFacts.JsonFacts | run/middleware/json/json.go:55-67 | the same for json, where an error comes without the output |
| LeafFacts.TranscodeFacts | run/middleware/json/json.go:27-53 | what each strategy asks the library and what it returns |
| LeafFacts.InitFacts | run/middleware/kafka/kafka.go:117-121 | the producer is asked for by the first Invoke only, and its answer then stands |
| LeafFacts.PublishFacts | run/middleware/kafka/kafka.go:127-139 | errors go to the error topic and non-nil outputs to the success topic, each if it is set, and what a failed send adds |
| LeafFacts.KafkaFacts | run/middleware/kafka/kafka.go:116-140 | without a producer the fn is not called; with one its result is published |
| Accounting.AfterKeepsErrors | run/middleware/kafka/kafka.go:125-139 | the output half of a leaf may turn success into an error, never an error into success, and calls no fn |
| Accounting.InitOnceIsQuiet | run/middleware/kafka/kafka.go:117-121 | after the first Invoke the producer is never created again, and its first result is kept |
| Accounting.FnAccounted | run/fn/middleware/middleware.go:16-18 | one Invoke of any fn calls at most one business fn, at most once, acknowledges nothing, and succeeds only if that call did |
| Accounting.LayersAccounted | run/middleware/pipeline/pipeline.go:36-48 | the same for any stack of middleware around a fn |
| Accounting.ExactlyOnceOnSuccess | run/fn/middleware/middleware.go:16-18 | success means exactly one business call, and a failed business call always surfaces |
| Accounting.FnIgnoresSettling | run/fn/middleware/middleware.go:16-18 | no fn settles a message: two outside worlds that differ only in how settlements go make every fn answer alike |
| Leaves.Apply | run/middleware/jq/jq.go:38-61 | the iterator loop returns the first error, a single value, or all values as an array |
| Leaves.TranscodeFailsIff | run/middleware/json/json.go:27-53 | transcoding (the method `TranscodeValue`) fails exactly for an unknown strategy, a non-string to read, or a value the library cannot write; it asks the library at most once, and passes unreadable text through without an error |
| Leaves.TranscodeRoundTrip | run/middleware/json/json.go:27-53 | for a value the library writes and reads back as the same value, "deserialize" undoes "serialize" |
| Leaves.JsonLayersCancel | run/middleware/json/json.go:55-67 | a layer that writes inputs and reads outputs, around one that does the opposite: if the input reads back, the fn gets it unchanged and its error comes out; if the output reads back too, so does that |
| Leaves.IntegersShow | run/middleware/json/json.go:55-67 | an integer, which encoding/json reads back as a float, goes through the same two layers and comes out as a float |
| Leaves.KafkaMiddleware.InitializeOnce | run/middleware/kafka/kafka.go:117-121 | the object's fields agree with what the trace says about producer creation |
| Leaves.KafkaMiddleware.SendResult | run/middleware/kafka/kafka.go:125-139 | error topic, wrapped send errors, success topic for non-nil outputs |
| Leaves.KafkaMiddleware.Invoke | run/middleware/kafka/kafka.go:116-140 | the object computes what the interpreter's leaf computes and keeps its fields in agreement |
| TapSupervisor.ReachableInv | run/middleware/tap/tap.go:93-169 | the inductive invariant over lock, fields, children and histories, for any number of threads |
| TapSupervisor.AliveIffOneWaiter | run/middleware/tap/tap.go:125-162 | `alive` holds exactly while one waiter, that of `cmd`, has not stored false; otherwise none is outstanding, or just the child being announced inside `start` |
| TapSupervisor.AtMostOneChild | run/middleware/tap/tap.go:130-159 | never two started and unreaped children |
| TapSupervisor.InvocationTalksToOneChild | run/middleware/tap/tap.go:103-122 | the lines of one returned Invoke went to one child, complete and in order around exactly one call; an Invoke that failed earlier said nothing |
| TapAnswers.AnswerIff | run/middleware/tap/tap.go:93-123 | in any run a call of a configured tap fails before the fn if and only if it met a failed launch, and otherwise returns what its fn returned |
| TapAnswers.ReachedIff | run/middleware/tap/tap.go:93-123 | the same for calls that have returned |
| TapAnswers.UnconfiguredRefuses | run/middleware/tap/tap.go:94-96 | an unconfigured tap fails every Invoke at once, without a child, a line or a call |
| TapAnswers.NoDeadlock | run/middleware/tap/tap.go:93-169 | in no reachable state is an unfinished call stuck together with everybody else |
| TapAnswers.LeftAloneFinishes | run/middleware/tap/tap.go:93-162 | a call left alone with the lock returns, within seventeen steps, and within seven once it has seen `alive` |
| TapAnswers.WaiterGoesOn | run/middleware/tap/tap.go:154-159 | a spawned waiter goes through its store to its end, and waits for nothing but the lock |
| TapAnswers.FirstCallGetsThrough | run/middleware/tap/tap.go:93-162 | a first call of a configured tap can reach its fn and succeed |
| TapSupervisor.StepFollowsTable | run/middleware/tap/tap.go:93-169 | the table of field accesses is complete: a step changes only fields it is said to write, and two states agreeing on the fields it is said to read take the same step to the same result |
| TapSupervisor.NoDataRace | run/middleware/tap/tap.go:103-169 | no write of a field is concurrent with another access to it, every access is under the lock, and stdin is set when it is used |
| TapObject.TapMiddleware.StartLocked | run/middleware/tap/tap.go:130-161 | the critical section as field updates makes exactly the steps of the machine: no second start if alive, nothing changed if the launch fails |
| TapObject.TapMiddleware.StoreDead | run/middleware/tap/tap.go:156-158 | the waiter's store is the machine's step |
| ServiceSupervisor.ReachableInv | run/fn/cli/service.go:26-125 | the invariant on lines, errors and calls, with kills, restarts and any number of callers |
| ServiceSupervisor.LinesReachCallersInOrder | run/fn/cli/service.go:81-113 | per generation, the lines Invokes received, then the buffered one, then the one the scanner holds, are a prefix of what that process wrote |
| ServiceSupervisor.FailuresAreConserved | run/fn/cli/service.go:88-123 | each failed child past the store is reported, buffered or blocked at the send, exactly once |
| ServiceEndings.EndingIff | run/fn/cli/service.go:101-125 | in any run a call returns a failed start, a failed write, a line, the end of its context, a child's failure or a failed kill if and only if that is what it met |
| ServiceEndings.AnswersAreConserved | run/fn/cli/service.go:111-124 | every failure and every line taken from the channels is what exactly one call returns |
| ServiceEndings.ClosedIff | run/fn/cli/service.go:81-86 | a scanner is closed exactly if it has stopped, and scans nothing from then on |
| ServiceSerial.SerialReachable | run/fn/cli/service.go:26-125 | with serial callers `alive` implies that cmd and stdin are one generation, younger than the last kill |
| ServiceSerial.NewGenerationAfterKill | run/fn/cli/service.go:26-99 | after a kill every call that gets past `start` writes to a strictly newer generation, which is also that of `cmd` |
| ServiceSerial.RestartIsNeverBlocked | run/fn/cli/service.go:48-99 | a command that is not alive restarts whatever the channels hold, and leaves both channels alone |
| ServiceReplies.ReplyIsMineIff | run/fn/cli/service.go:111-113 | the line about to be taken answers the caller's own input if and only if its generation is not older than the last kill |
| ServiceReplies.RepliesMatchIff | run/fn/cli/service.go:101-125 | with serial callers and line-by-line children, all replies of a run match their inputs if and only if no line of a given-up generation was ever taken |
| ServiceReplies.RepliesMatchInputs | run/fn/cli/service.go:81-113 | without a kill every reply is the answer to the call's own input, under every interleaving |
| ServiceReplies.StaleIsWrong | run/fn/cli/service.go:111-113 | a stale line goes to a call that wrote to a younger generation, and stays its reply |
| ServiceChildren.OneChildIff | run/fn/cli/service.go:48-99 | for any callers, a run never has two unreaped children if and only if every launch finds all earlier children reaped |
| ServiceOverlap.InChargeIff | run/fn/cli/service.go:26-96 | for serial callers an outstanding child is in charge (alive and in `cmd`, or being announced) if and only if no kill has given it up and no older waiter has cleared its flag |
| ServiceOverlap.OverlapHasCause | run/fn/cli/service.go:48-96 | for serial callers a launch over an unreaped child happens only after a kill of that child or a store by an older waiter while it was in charge |
| ServiceChildren.OrderlyKeepsOneChild | run/fn/cli/service.go:88-96 | if every waiter stores false before the next launch, at most one waiter is outstanding |
| ServiceChildren.NoKillOneChild | run/fn/cli/service.go:48-99 | serial callers have one child until a first kill, and `alive` or a running `start` accounts for it |
| ServiceChildren.LateWaiterClearsNewerChild | run/fn/cli/service.go:88-92 | a run in which two children live and a late waiter clears the flag of the newer one |
| ServiceChildren.StaleLineReachesLaterCall | run/fn/cli/service.go:111-113 | a run in which a line of a killed child is the reply to a later call |
| ServiceLiveness.CompletesIff | run/fn/cli/service.go:81-124 | a waiting call of a serial run can return without its context if and only if a line or an error is buffered, or some generation can still bring one |
| ServiceLiveness.QuietExitHangs | run/fn/cli/service.go:88-96 | a run in which the child exits without an error and without an answer, and its caller waits for good unless its context ends |
| ServiceRace.RaceIff | run/fn/cli/service.go:74-92 | a serial caller about to launch can come to store `alive` while a waiter is about to store it too, if and only if the waiter of an earlier child has not stored yet |
| ServiceRace.RaceHasCause | run/fn/cli/service.go:74-92 | with serial callers the waiter of such a race belongs to a child given up by a kill, or overtaken by an older waiter |
| ServiceRace.NoKillNoRace | run/fn/cli/service.go:74-92 | until a first kill serial callers are free of the race |
| ServiceRace.RaceIsReachable | run/fn/cli/service.go:74-92 | a serial run that is in the race after one timeout |
| ServiceObject.Service.Start | run/fn/cli/service.go:48-99 | `start` as field updates makes exactly the steps of the machine, or changes nothing |
| ServiceObject.Service.Kill | run/fn/cli/service.go:26-39 | `kill` clears the flag and then kills the process of `cmd`, as the machine's two steps |
| ServiceObject.Service.TakeReply | run/fn/cli/service.go:112-113 | receiving takes the oldest line and nothing else |
| PoolObject.PoolFn.ConfigureMap | run/fn/pool/pool.go:76-113 | the fill loop leaves the channel exactly full with fns of the template, or reports the first error |
| PoolObject.PoolFn.FullShowsInit | run/fn/pool/pool.go:102-110 | a filled channel is the first state of the concurrent pool |
| PoolObject.PoolFn.Acquire | run/fn/pool/pool.go:38-45 | the first half of any Invoke, with others in progress: receives the fn at the head or times out, as a step of the concurrent pool |
| PoolObject.PoolFn.HandBack | run/fn/pool/pool.go:41 | the second half: there is room for the fn, so the send does not block, and it is a step of the concurrent pool |
| PoolObject.PoolFn.Invoke | run/fn/pool/pool.go:37-46 | an Invoke with no other in progress: a timeout changes nothing; otherwise the first fn is used and put last, and the channel is as full as before |
| PoolMachine.PoolConserves | run/fn/pool/pool.go:37-46 | idle and held fns together are always the configured ones, no fn is held twice, and a hand-back never blocks |
| PoolMachine.CanTakeIff | run/fn/pool/pool.go:38-45 | a caller can take a fn exactly if fewer than all are out, and can time out at any time |
| PoolMachine.KthInvokeUsesFnKModN | run/fn/pool/pool.go:37-46 | Invokes that do not overlap use the fns in turn, timeouts not counting |
| PooledService.HolderIsAlone | run/fn/pool/pool.go:39-42 | whoever holds a member finds all earlier Invokes of it returned |
| PooledService.MembersRunSerially | run/fn/pool/pool.go:37-46 | under any concurrent use of the pool each member's history is a serial run of the service |
| PooledService.HolderCan | run/fn/pool/pool.go:37-46 | nothing but the pool and the member itself stands in the way: who can take, invoke, proceed and hand back |
| PooledService.PooledRepliesMatch | run/fn/cli/service.go:101-125 | hence the reply theorem holds for every member, with no assumption on the callers of the pool |
| PooledService.PooledOneChild | run/fn/cli/service.go:48-99 | hence every member has one child until its first kill |
| LockRenewal.RenewalStops | run/source/azure/servicebus/servicebus.go:68-81 | after `running` is false at most one more RenewLocks starts; a context is cancelled, or about to be, exactly if a renewal error was acted on while running; no interval, no renewal |
| LockRenewal.RenewerWindsDown | run/source/azure/servicebus/servicebus.go:68-81 | once `running` is false every step of the goroutine is one of its last four, and the last one stops it |
| LockRenewal.SettledExactlyOnce | run/source/azure/servicebus/servicebus.go:83-97 | every returned handler settled its message exactly once, Complete if and only if the fn returned nil |
| LockRenewalAnswers.RecordsAreTrue | run/source/azure/servicebus/servicebus.go:68-97 | what the model records of a message is what its steps met: the fn's result, a settlement error, a failed RenewLocks, an error acted on |
| LockRenewalAnswers.CancelNeedsFailedRenewal | run/source/azure/servicebus/servicebus.go:73-78 | a context is cancelled only after a RenewLocks of that message failed and the goroutine saw it while the fn was running |
| LockRenewalAnswers.SettledByTheFn | run/source/azure/servicebus/servicebus.go:83-97 | a returned message was completed if and only if its fn returned nil, and abandoned if and only if it returned an error |
| LockRenewalAnswers.AtMostOneLateRenewal | run/source/azure/servicebus/servicebus.go:70-81 | of each message at most one RenewLocks of the run starts after `running` became false |
| LockRenewalAnswers.EndsIff | run/source/azure/servicebus/servicebus.go:62-104 | the loop ends exactly when a reception or a settlement fails, and receives nothing afterwards |
| LockRenewalAnswers.HandlerFinishes | run/source/azure/servicebus/servicebus.go:83-97 | a handler is through after its three steps, whatever its goroutine does |
| LockRenewalAnswers.RenewerGoesRound | run/source/azure/servicebus/servicebus.go:70-80 | while the fn runs the goroutine renews once a round, and cancels exactly in a round whose renewal fails |
| LockRenewal.SettledCancelledIff | run/source/azure/servicebus/servicebus.go:76-94 | in every run a message is settled on a cancelled context if and only if its goroutine called cancel before its handler had returned |
| LockRenewal.CanEndCancelledIff | run/source/azure/servicebus/servicebus.go:66-94 | a message at work can still come to be settled on a cancelled context if and only if a renewal error was acted on, or its fn is running and its lock is being renewed; once `running` is false only the former decides |
| LockRenewal.CancelCanReachSettlement | run/source/azure/servicebus/servicebus.go:76-94 | a run in which a successful message is completed on a cancelled context |
| Delivery.DeliverAccounts | run/source/kafka/consumer.go:25-27 | a delivery records one receipt, settles nothing and keeps earlier acknowledgements justified, for every fn |
| Delivery.DeliverMakes | run/source/kafka/consumer.go:25-27 | a delivery calls the business fn with what the layers make of the delivered input |
| Delivery.DeliverToBase | run/source/kafka/consumer.go:25-27 | without layers it is called with the delivered input itself, and its answer is the outcome |
| Delivery.ReportIsJustified | run/source/sqs/sqs.go:99-112 | acknowledging right after a delivery that returned nil is justified by exactly one business call with a nil error, whatever middleware is around it |
| KafkaSource.CreateInput | run/source/kafka/consumer.go:38-49 | the six fields of a message |
| KafkaSource.MessageAsks | run/source/kafka/consumer.go:25-33 | everything one message asks, written out: a call with the six fields under the consumer's context, and a mark unless it fails and errors count |
| KafkaSource.MessageMakes | run/source/kafka/consumer.go:25-27 | any fn is called with what its layers make of those fields |
| KafkaSource.VisibleIs | run/source/kafka/consumer.go:25 | a session sees the messages from the mark on, none left out, and not more than it gets |
| KafkaSource.Session.MarkMessage | run/source/kafka/consumer.go:32 | a mark only moves forward |
| KafkaSource.Consumer.ConsumeClaim | run/source/kafka/consumer.go:24-36 | for any claim: every message up to the first whose fn fails is tried and marked, and none after it; one failing at index i marked exactly the first i and tried exactly the first i + 1, and the mark is past the highest offset marked; with errors ignored it never fails; otherwise all marks are justified; a fn without layers was called with the fields of exactly the messages tried, in order |
| KafkaSource.KafkaSource.SetUpConsumerGroup | run/source/kafka/kafka.go:28-48 | a client is made once and kept, even when closed |
| KafkaSource.KafkaSource.ConsumeSession | run/source/kafka/kafka.go:72-75 | a session consumes the claim from the mark on, exactly as far as its fn lets it: one message at least if there is one to see, all of them if errors are ignored; the order of marks and of first tries is kept, in a log whose offsets may have gaps |
| KafkaSource.KafkaSource.Consume | run/source/kafka/kafka.go:63-77 | an open client consumes session after session up to the round that ends it, and is closed then; a closed client consumes nothing and returns at the first round |
| KafkaSource.KafkaSource.Serve | run/source/kafka/kafka.go:50-80 | if there is a message to see and a client could be made, nothing is consumed if and only if the client had been closed by an earlier Serve; however the rounds go, marks are in order and once each, first tries leave out no message of the log and lead the mark by at most one, and all marks are justified |
| KafkaSource.KafkaSource.ServeTwice | cmd/fnrunner/main.go:101-111 | the restart loop twice around: after a Serve that had a client and returned, the next one consumes nothing, whatever is left in the log |
| KafkaSource.ProgressComposes | run/source/kafka/kafka.go:50-80 | what one Serve achieved and what a later one with a fresh client adds from the mark on is together what one Serve would achieve: nothing skipped, nothing marked twice |
| KafkaSource.MarkPastStretch | run/source/kafka/consumer.go:24-36 | marking a stretch of the log, gaps or not, puts the resume position right behind it |
| KafkaSource.StretchInOrder | run/source/kafka/consumer.go:24-36 | resuming at or before the frontier keeps first tries in order and without gaps |
| KafkaSource.MarkedMeansHandled | run/source/kafka/consumer.go:25-33 | from any starting trace and offset: every message between the start and the mark was marked since, by a delivery with exactly one business call, which returned nil |
| SqsSource.CreateInput | run/source/sqs/sqs.go:116-123 | the id and the body of a message |
| SqsSource.HandleAsks | run/source/sqs/sqs.go:99-112 | everything one message asks, written out: a call with the id and the body, and a delete if it returned nil |
| SqsSource.HandleMakes | run/source/sqs/sqs.go:99-101 | any fn is called with what its layers make of that input |
| SqsSource.HandleAccounts | run/source/sqs/sqs.go:99-112 | a message is deleted exactly if its fn returned nil and the delete was confirmed; a failed fn leaves it alone and is no error |
| SqsSource.HandleMessage | run/source/sqs/sqs.go:99-112 | the loop body computes that, and an error is always that of a delete |
| SqsSource.ServeBatch | run/source/sqs/sqs.go:99-112 | a failing message never stops later ones; a failing delete is the last thing that happens and the rest of the batch is untouched; the queue moves on in step |
| SqsSource.Serve | run/source/sqs/sqs.go:82-113 | whether it goes on or stops, the messages received are all those of the completed batches in order and the first ones of the batch it stopped in; it stops on a failed poll or a failed delete, which is then the last event; all deletes are justified; a fn without layers was called with exactly those messages, in order |
| SqsSource.LeavesIff | run/source/sqs/sqs.go:99-112 | a queued message leaves the queue exactly if it is the one handled, its fn returned nil and its delete was confirmed |
| SqsSource.PollsKeepPartition | run/source/sqs/sqs.go:82-113 | over any sequence of arrivals and polls of queued messages, the sent messages are the disjoint union of the deleted and the queued ones, the deleted ones being those the trace confirms |
| SqsSource.MessageLeavesIff | run/source/sqs/sqs.go:82-113 | over a whole run from an empty queue, a sent message is no longer queued if and only if some delivery of it called the business fn exactly once, got nil, and was followed by a confirmed delete |
| SqsSource.DeletedMeansHandled | run/source/sqs/sqs.go:99-112 | a deleted message had a delivery with exactly one business call, which returned nil |
| ServiceBusSource.HandledAccounts | run/source/azure/servicebus/servicebus.go:83-97 | one receipt and one settlement per message, Complete exactly if the fn returned nil and Abandon otherwise |
| ServiceBusSource.HandledAsks | run/source/azure/servicebus/servicebus.go:83-97 | everything one message asks, written out: a call with the content type and the data, then Complete or Abandon by its error |
| ServiceBusSource.HandledMakes | run/source/azure/servicebus/servicebus.go:83 | any fn is called with what its layers make of that input |
| ServiceBusSource.AllHandledCalls | run/source/azure/servicebus/servicebus.go:62-134 | over any sequence of messages a fn without layers is called once for each, in order |
| ServiceBusSource.CompletedMeansHandled | run/source/azure/servicebus/servicebus.go:91-94 | a completed message had a delivery with exactly one business call, which returned nil |
| ServiceBusSource.AllHandledAccounts | run/source/azure/servicebus/servicebus.go:62-134 | over any sequence of messages, settlements follow receipts one to one, and completions are justified |
| ServiceBusSource.HandleQueued | run/source/azure/servicebus/servicebus.go:64-98 | the queue handler makes that one settlement on its cancellable context and returns only its error |
| ServiceBusSource.HandleDeadLetter | run/source/azure/servicebus/servicebus.go:113-128 | the dead-letter handler settles the same way |
| ServiceBusSource.ServeQueue | run/source/azure/servicebus/servicebus.go:62-104 | the first failed receive or failed settlement ends the loop, nothing else does, and all messages before that are handled |
| ServiceBusSource.ServeDLQ | run/source/azure/servicebus/servicebus.go:106-134 | only a failed receive ends the loop |
| LambdaSource.CreateInput | run/source/lambda/lambda.go:87-122 | the input map built step by step is the one with a key per present header |
| LambdaSource.InputShowsResponse | run/source/lambda/lambda.go:95-119 | every header is found under its own key, and absent or empty ones leave no key |
| LambdaSource.HandleNext | run/source/lambda/lambda.go:61-83 | errors are posted as errors, outputs as responses, under the id fetched |
| LambdaSource.HandleAccounts | run/source/lambda/lambda.go:44-84 | an invocation is answered, with exactly one post, if and only if its fn failed or its output is no map or could be marshalled; responses are justified |
| LambdaSource.HandleAsks | run/source/lambda/lambda.go:61-83 | everything one invocation asks, written out: a call with the headers and the event, then its error posted as an error or its output as a response, a map as marshalled |
| LambdaSource.HandleMakes | run/source/lambda/lambda.go:61 | any fn is called with what its layers make of that input |
| LambdaSource.TurnEndsIff | run/source/lambda/lambda.go:44-84 | the error a turn ends Serve with: an ended context, a failed fetch, an unreadable body, a failed error post or a failed marshalling, and no other |
| LambdaSource.RespondedMeansHandled | run/source/lambda/lambda.go:69-83 | a posted response had a delivery with exactly one business call, which returned nil |
| LambdaSource.SuccessCanGoUnanswered | run/source/lambda/lambda.go:73-81 | an invocation whose fn succeeds and which is never answered, because its output cannot be marshalled |
| LambdaSource.ResponsePostIgnored | run/source/lambda/lambda.go:83 | whether the response could be posted changes neither the error of the turn nor anything recorded before |
| LambdaSource.IdsDiffer | run/source/lambda/lambda.go:54-69 | posts name the invocation by the header of the fetch, and different headers are different invocations |
| LambdaSource.Serve | run/source/lambda/lambda.go:44-84 | goes through the turns one by one up to the first that ends it, has fetched exactly their invocations, and stops for that turn's error; at every moment posts are a prefix of fetches and at most one invocation is unanswered |
| LambdaSource.TurnAccounts | run/source/lambda/lambda.go:44-84 | one turn fetches at most one invocation, and leaves none unanswered if it does not end Serve |
| LambdaSource.PostCarriesLastId | run/source/lambda/lambda.go:55-83 | every post carries the id fetched last |

## Left out

- Real processes, pipes and stderr logging: a child is a producer of lines that may exit at any time, and its scanner may stop at any time. A write of one line to a child either reaches it or fails as a whole.
- Fairness of `sync.RWMutex` (Go keeps readers out while a writer waits): only its safety is modelled, which allows more runs. Memory is taken to be sequentially consistent, also for the unprotected `cmd` and `stdin` of the service and for `running` of the servicebus handler.
- The objects in `Loaders`, `Leaves`, `PoolObject` and `SupervisorObjects` run one method at a time; interleavings are in the state machines. Two first Invokes racing for the kafka middleware's `sync.Once` are not modelled.
- PoolObject.PoolFn.Invoke: covers Invokes that do not overlap; for any overlap its two halves are the methods `Acquire` and `HandBack`, each a step of `PoolMachine`, where a wait is a nondeterministic timeout without its duration.
- LockRenewal.SettledCancelledIff: the settlement and the return of the handler are one step, so a cancellation while Complete or Abandon is under way is not modelled.
- LoadingProps.LoadedIsBuilt: configuring a component of the outside (a base fn, a leaf, a plain source) is a function of the component and its configuration, so the fns of one pool configure alike.
- Loading.DecodePool: mapstructure is reduced to exact keys of exact types; its weak conversions and case folding are not modelled. A negative concurrency, on which Go panics, is an error outcome.
- Panics: a loader that was never configured and a gate that is not ready are error outcomes.
- Error texts: errors are told apart by where they come from; wrapping keeps both causes.
- LambdaSource.HandleAsks: an output that is not a map is posted as it is; its formatting as text is not modelled.
- JSON encoding, jq evaluation, duration parsing and base64 are answers of the outside. jq iterators are finite.
- Inside the circuit breaker and the rate limiter: both are a gate that refuses or forwards once. `debug` and `healthcheck` forward; `timeout` derives a context whose expiry is up to the fn.
- The http source and fn, the cron source, `run/fn/cli/script.go`, TLS, YAML, environment expansion and the registry maps would only add plumbing.
- KafkaSource.KafkaSource.Serve: follows one partition with rising offsets, whose log does not change while it is followed, takes the mark as the offset a later session resumes at, and assumes that a closed client returns an error without consuming. Producers and rebalancing are not part of this model.
- SqsSource.PollsKeepPartition: a poll offers messages the queue holds, any number of times, and a delete that reports an error has not deleted; visibility timeouts are not modelled.
- Loading.Library: a leaf is known by its factory and configuration, so two kafka entries configured alike get one producer id and share its `once`, where the Go factory makes an object for each entry.
- The restart loop of cmd/fnrunner/main.go:101-111 and the `Serve` methods' set-up calls (queue URLs, namespaces, listeners).
- ServiceReplies.RepliesMatchIff: assumes children that answer at most one line per input line; the contents of an answer may depend on all earlier inputs of that process.
