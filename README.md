# Aerodramus callbacks and promises, modelled in Dafny

Aerodramus is a Swift library with two core pieces:

- **The callback list (`Callbacks`).** It stores subscribers and invokes them when an argument is fired. Three options shape its behaviour:
  - `.once` lets the list fire only once;
  - `.memory` remembers the last argument and replays it to late subscribers;
  - `.stopOnFalse` ends a delivery when a subscriber returns `false`.
- **The promise (`Promise`).** It is built from three such lists: done and fail lists with `[.once, .memory]`, and a progress list with `[.memory]`. The operation handed to the promise settles it at most once through a deferred that can `resolve`, `reject` and `notify`. Chaining (`then`) and aggregation (`when`) build new promises from existing ones.

The project has four layers:

- **Value model:** `CallbacksSpec` and `PromiseSpec` model each layer as a state value, with one function per operation.
- **Properties:** `CallbacksProperties` and `PromiseSpec` prove what the library promises of these values.
- **Classes:** `CallbackList.Callbacks` and `PromiseObject.Promise` have the source's fields and update them in place. Each method is proved to compute the function that models it, so every property of the value model holds of the objects.
- **Chaining and aggregation:** `PromiseChain` models the two `then` overloads and `PromiseWhen` models `when`.
  - Both drive the new promise's deferred with the calls made by the closures they subscribe to the upstream promises.
  - `PromiseWhen.WhenAggregate` holds the `remaining` counter and the `results` array that the closures of `when` share and update in place.

Modelling choices:

- **Subscribers.** A subscriber is an opaque `CallbackId`. What it returns (`false`, `true` or a non-`Bool` value) comes from a map fixed at construction.
- **Re-entrant calls.** A subscriber may fire, add, remove all, lock or disable the same list while it runs. These calls are a finite script consumed one per invocation.
- **Replay on `add`.** `add` sets the cursor to the new subscriber (Callbacks.swift:144), but the dispatch loop resets it to 0 (line 103). The model follows the code: a replay re-invokes every stored subscriber (`MemoryReplayReinvokesEverySubscriber`).
  - On a promise this shows only on the progress list, where a late progress subscriber makes the earlier ones run again with the last progress value. The done and fail lists empty their storage after settling.
- **Traces.** The invocations made and the arguments whose dispatch started are kept as ghost traces (`log`, `started`). They are what the delivery properties talk about.

## Model

| member | source | states |
|---|---|---|
| CallbacksSpec.Description | Aerodramus/Aerodramus/Callbacks/Callbacks.swift:33-46 | the description of an option set is bracketed by `[` and `]` |
| CallbacksSpec.DescriptionOfExtremes | Aerodramus/Aerodramus/Callbacks/Callbacks.swift:33-46 | the empty set renders as `[]`; the full set renders its names in table order, joined by `\|` |
| CallbacksSpec.DescriptionLength | Aerodramus/Aerodramus/Callbacks/Callbacks.swift:33-46 | the description's length is fixed by which options are contained |
| CallbacksSpec.DescriptionInjective | Aerodramus/Aerodramus/Callbacks/Callbacks.swift:33-46 | two option sets built from the three named options with the same description are equal |
| CallbacksSpec.Invoke | Aerodramus/Aerodramus/Callbacks/Callbacks.swift:108-117 | one pass of the inner loop:<br>• logs exactly one invocation, of the subscriber at the cursor with the argument;<br>• never unlocks, and leaves fired/firing alone;<br>• consumes one step of the re-entry script |
| CallbacksSpec.Deliver | Aerodramus/Aerodramus/Callbacks/Callbacks.swift:107-118 | the inner loop:<br>• ends with the cursor past the live storage;<br>• only extends the log and never unlocks;<br>• keeps the rule that released storage means locked;<br>• without re-entry leaves storage and queue unchanged |
| CallbacksSpec.Drain | Aerodramus/Aerodramus/Callbacks/Callbacks.swift:102-119 | the outer loop empties the queue, never unlocks, and only extends the log |
| CallbacksSpec.Dispatch | Aerodramus/Aerodramus/Callbacks/Callbacks.swift:95-132 | the private `fire()`:<br>• leaves the list fired, not firing, with an empty queue;<br>• `.once` locks;<br>• without `.memory` the argument is forgotten;<br>• a locked list keeps an empty storage exactly when an argument is remembered, and releases it otherwise |
| CallbacksSpec.Add | Aerodramus/Aerodramus/Callbacks/Callbacks.swift:136-151 | `add` only extends the log; on released storage it changes nothing |
| CallbacksSpec.FireWith | Aerodramus/Aerodramus/Callbacks/Callbacks.swift:199-207 | `fire(with:)` only extends the log; on a locked list it changes nothing |
| CallbacksProperties.InitialIsQuiescent | Aerodramus/Aerodramus/Callbacks/Callbacks.swift:78-92 | a new list is quiescent, not fired and empty |
| CallbacksProperties.QuiescentIsInvariant | Aerodramus/Aerodramus/Callbacks/Callbacks.swift:136-207 | every public operation keeps a list quiescent:<br>• not firing, empty queue;<br>• released storage implies locked and nothing remembered;<br>• a locked list holds an empty storage or none |
| CallbacksProperties.FireWithEnqueuesOrIgnores | Aerodramus/Aerodramus/Callbacks/Callbacks.swift:199-207 | a locked list ignores `fire(with:)`; a firing list only enqueues; an idle list dispatches to an empty queue |
| CallbacksProperties.AddWhileFiringOnlyAppends | Aerodramus/Aerodramus/Callbacks/Callbacks.swift:136-151 | `add` during a dispatch only appends to the live storage |
| CallbacksProperties.DeliverReachesLiveEnd | Aerodramus/Aerodramus/Callbacks/Callbacks.swift:107-118 | when no subscriber stops or shrinks the list, the inner loop invokes every subscriber from the cursor to the end of the live storage, those appended meanwhile included, in order |
| CallbacksProperties.FireDeliversInOrder | Aerodramus/Aerodramus/Callbacks/Callbacks.swift:199-207 | firing a quiet list invokes each subscriber once, in insertion order, with the argument |
| CallbacksProperties.AddedWhileFiringGetsCurrentArgument | Aerodramus/Aerodramus/Callbacks/Callbacks.swift:136-151 | when the first subscriber to run adds `c` and nothing else re-enters, `c` is invoked after the stored subscribers with the argument being delivered; any number of additions is covered by `DeliverReachesLiveEnd` |
| CallbacksProperties.DeliverConservesArguments | Aerodramus/Aerodramus/Callbacks/Callbacks.swift:107-118 | while nobody locks, the inner loop only moves re-entrantly fired arguments to the tail of the queue |
| CallbacksProperties.DrainStartsInQueueOrder | Aerodramus/Aerodramus/Callbacks/Callbacks.swift:102-119 | the outer loop starts dispatching arguments in FIFO order: first the queue, then re-entrant fires in the order made |
| CallbacksProperties.FireDispatchesFifo | Aerodramus/Aerodramus/Callbacks/Callbacks.swift:199-207 | on a list without `.once`, the argument and every re-entrant fire are dispatched one after the other, first come first served |
| CallbacksProperties.DeliverLogsOnlyItsArgument | Aerodramus/Aerodramus/Callbacks/Callbacks.swift:107-118 | every invocation the inner loop makes carries the argument being delivered |
| CallbacksProperties.DeliverWhileLockedShrinksQueue | Aerodramus/Aerodramus/Callbacks/Callbacks.swift:107-118 | on a locked list subscribers can only shorten the queue |
| CallbacksProperties.OnceDeliversOnlyFirstArgument | Aerodramus/Aerodramus/Callbacks/Callbacks.swift:97-101 | a `.once` list locks before its first dispatch, delivers only the first argument, and ignores every later fire |
| CallbacksProperties.DeliverStopsAtFirstFalse | Aerodramus/Aerodramus/Callbacks/Callbacks.swift:110-115 | with `.stopOnFalse`, the inner loop when no subscriber re-enters the list, invokes subscribers up to and including the first that returns `false`, and forgets the argument |
| CallbacksProperties.StopOnFalseSkipsRemaining | Aerodramus/Aerodramus/Callbacks/Callbacks.swift:110-115 | when no subscriber re-enters the list, a fire stops at the first `false`; because the argument is forgotten, a later `add` replays nothing |
| CallbacksProperties.WithoutMemoryAddNeverReplays | Aerodramus/Aerodramus/Callbacks/Callbacks.swift:122-124 | without `.memory`, nothing is remembered after a fire and `add` invokes nothing |
| CallbacksProperties.MemoryReplayReinvokesEverySubscriber | Aerodramus/Aerodramus/Callbacks/Callbacks.swift:142-147 | `add` on an idle list that remembers an argument re-invokes every stored subscriber plus the new one, because the dispatch resets the cursor to 0 |
| CallbacksProperties.LockedOnceMemoryReplaysOnlyNew | Aerodramus/Aerodramus/Callbacks/Callbacks.swift:126-131 | a fired `.once`+`.memory` list keeps an empty storage, so a late subscriber alone is invoked, exactly once, with the remembered argument |
| CallbacksProperties.DisableSilencesList | Aerodramus/Aerodramus/Callbacks/Callbacks.swift:169-175 | `disable` locks, forgets, empties the queue and releases the storage; afterwards `add` and `fire(with:)` do nothing |
| CallbacksProperties.LockDisablesOnlyWithoutMemory | Aerodramus/Aerodramus/Callbacks/Callbacks.swift:185-191 | `lock` locks, and releases the storage exactly when nothing is remembered |
| CallbacksProperties.RemoveAllKeepsFlags | Aerodramus/Aerodramus/Callbacks/Callbacks.swift:155-158 | `removeAll` empties the storage, changes no flag, and leaves released storage released |
| CallbacksProperties.FireQuietly | Aerodramus/Aerodramus/Callbacks/Callbacks.swift:95-132 | the exact list after firing an unlocked list whose subscribers never re-enter or return `false` |
| CallbacksProperties.AddQuietly | Aerodramus/Aerodramus/Callbacks/Callbacks.swift:136-151 | the exact list after `add` on a quiet list that remembers an argument |
| CallbacksProperties.ArgumentsToDeliveries | Aerodramus/Aerodramus/Callbacks/Callbacks.swift:107-118 | a delivery reaches a subscriber as many times as it is stored (none, or once) |
| CallbackList.Callbacks.constructor | Aerodramus/Aerodramus/Callbacks/Callbacks.swift:78-92 | the new object's state is the initial list |
| CallbackList.Callbacks.RemoveAll | Aerodramus/Aerodramus/Callbacks/Callbacks.swift:155-158 | the object's new state is `removeAll` of the old |
| CallbackList.Callbacks.Disable | Aerodramus/Aerodramus/Callbacks/Callbacks.swift:169-175 | the object's new state is `disable` of the old |
| CallbackList.Callbacks.Lock | Aerodramus/Aerodramus/Callbacks/Callbacks.swift:185-191 | the object's new state is `lock` of the old |
| CallbackList.Callbacks.InvokeNext | Aerodramus/Aerodramus/Callbacks/Callbacks.swift:108-117 | one in-place pass of the inner loop computes `Invoke` |
| CallbackList.Callbacks.DeliverAll | Aerodramus/Aerodramus/Callbacks/Callbacks.swift:107-118 | the in-place inner `while` loop computes `Deliver` |
| CallbackList.Callbacks.Fire | Aerodramus/Aerodramus/Callbacks/Callbacks.swift:95-132 | the in-place private `fire()` computes `Dispatch` |
| CallbackList.Callbacks.Add | Aerodramus/Aerodramus/Callbacks/Callbacks.swift:136-151 | the object's new state is `add` of the old |
| CallbackList.Callbacks.FireWith | Aerodramus/Aerodramus/Callbacks/Callbacks.swift:199-207 | the object's new state is `fire(with:)` of the old |
| PromiseSpec.QueriesAgree | Aerodramus/Aerodramus/Promise/Promise.swift:160-189 | pending, resolved and rejected are exclusive and exhaustive; settled is not pending; rejected is settled and not resolved; the description starts with `.pending`, `.resolved(` or `.rejected(` exactly when the matching query holds |
| PromiseSpec.StateAgreesWithLists | Aerodramus/Aerodramus/Promise/Promise.swift:72-86 | a promise is settled exactly when its done or fail list is locked, resolved exactly when the done list has fired, and rejected exactly when the fail list has fired |
| PromiseSpec.InitIsWellformed | Aerodramus/Aerodramus/Promise/Promise.swift:58-79 | a new promise is pending and well formed |
| PromiseSpec.WellformedIsInvariant | Aerodramus/Aerodramus/Promise/Promise.swift:72-109 | every deferred call and every subscription keeps the promise well formed |
| PromiseSpec.FirstSettlementWins | Aerodramus/Aerodramus/Promise/Promise.swift:73-83 | resolving a pending promise records the value and disables the fail list (rejecting is the mirror); on a settled promise both are no-ops |
| PromiseSpec.ResolveInvokesEachDoneSubscriberOnce | Aerodramus/Aerodramus/Promise/Promise.swift:82 | resolving a pending promise invokes each done subscriber once, in order, with the value, and no fail or progress subscriber |
| PromiseSpec.NotifyAfterSettlementIgnored | Aerodramus/Aerodramus/Promise/Promise.swift:75-84 | after settlement `notify` changes nothing |
| PromiseSpec.LateProgressReplaysLastValue | Aerodramus/Aerodramus/Promise/Promise.swift:100-104 | after settlement, a new progress subscriber receives the last progress value, together with the subscribers stored before it; with no progress before settlement nothing happens |
| PromiseSpec.LateDoneInvokedOnce | Aerodramus/Aerodramus/Promise/Promise.swift:88-92 | a done subscriber added after resolution is invoked at once, exactly once, with the value; a late fail subscriber is never invoked |
| PromiseSpec.LateFailInvokedOnce | Aerodramus/Aerodramus/Promise/Promise.swift:94-98 | the mirror of the done case for a fail subscriber after rejection |
| PromiseSpec.DriveSettledIsIdentity | Aerodramus/Aerodramus/Promise/Promise.swift:81-85 | nothing the deferred does changes a settled promise |
| PromiseSpec.DriveSettlesOnFirstCall | Aerodramus/Aerodramus/Promise/Promise.swift:72-86 | whatever the operation calls, the promise stays well formed and settles with its first `resolve` or `reject`; progress subscribers get the values notified before it |
| PromiseSpec.InitWithResultOrError | Aerodramus/Aerodramus/Promise/Promise.swift:229-235 | `init(result:)` is resolved with the result and `init(error:)` is rejected with the error |
| PromiseSpec.SubscriberSeesFirstSettlement | Aerodramus/Aerodramus/Promise/Promise.swift:88-104 | a subscriber on all three lists of a pending promise receives every progress value notified before settlement, then the value once (done side) or the error once (fail side), never both |
| PromiseSpec.AlwaysCalledOnceWithOneArgument | Aerodramus/Aerodramus/Promise/Promise.swift:106-109 | whether attached before or after settlement, the `always` filter is called exactly once, with (value, nil) or (nil, error), or not at all while pending |
| PromiseObject.Promise.constructor | Aerodramus/Aerodramus/Promise/Promise.swift:58-79 | the new object is valid and models a new promise |
| PromiseObject.Promise.WithResult | Aerodramus/Aerodramus/Promise/Promise.swift:229-231 | the new object models `init(result:)` |
| PromiseObject.Promise.WithError | Aerodramus/Aerodramus/Promise/Promise.swift:233-235 | the new object models `init(error:)` |
| PromiseObject.Promise.Resolve | Aerodramus/Aerodramus/Promise/Promise.swift:73-82 | the in-place `resolve` stays valid and computes its model |
| PromiseObject.Promise.Reject | Aerodramus/Aerodramus/Promise/Promise.swift:77-83 | the in-place `reject` stays valid and computes its model |
| PromiseObject.Promise.Notify | Aerodramus/Aerodramus/Promise/Promise.swift:84 | the in-place `notify` stays valid and computes its model |
| PromiseObject.Promise.Done | Aerodramus/Aerodramus/Promise/Promise.swift:88-92 | the in-place `done` stays valid and computes its model |
| PromiseObject.Promise.Fail | Aerodramus/Aerodramus/Promise/Promise.swift:94-98 | the in-place `fail` stays valid and computes its model |
| PromiseObject.Promise.Progress | Aerodramus/Aerodramus/Promise/Promise.swift:100-104 | the in-place `progress` stays valid and computes its model |
| PromiseObject.Promise.Always | Aerodramus/Aerodramus/Promise/Promise.swift:106-109 | the in-place `always` stays valid and computes its model |
| PromiseChain.SignalsAreWhatSubscribersSee | Aerodramus/Aerodramus/Promise/Promise.swift:88-104 | as long as no progress subscriber is added later, the signals a closure subscribed to a pending promise from the start receives are the progress notified before settlement, then the settlement, and nothing after |
| PromiseChain.SignalsSettleAsCalls | Aerodramus/Aerodramus/Promise/Promise.swift:88-104 | under the same condition, those signals carry the promise's first settlement and the progress before it, settle at most once, and have no late progress |
| PromiseChain.FirstSettlementOfAppend | Aerodramus/Aerodramus/Promise/Promise.swift:81-85 | the first settlement of a concatenation of calls, and the progress before it, are decided by its first part when that part settles |
| PromiseChain.ThenForwards | Aerodramus/Aerodramus/Promise/Promise.swift:111-130 | for any signals the closures receive, replayed ones included, the promise returned by `then`:<br>• resolves with `doneFilter(value)`, or rejects with the error it throws;<br>• rejects with `failFilter(error)`;<br>• stays pending while no settlement arrives;<br>• is notified of `progressFilter(p)` for each progress value received before the settlement, and of nothing received after it |
| PromiseChain.RelayOfSignals | Aerodramus/Aerodramus/Promise/Promise.swift:140-142 | relaying signals settles with the first settlement among them and notifies the progress received before it |
| PromiseChain.FlatCallsOfSettlement | Aerodramus/Aerodramus/Promise/Promise.swift:136-150 | from the upstream's settlement on, the calls made settle the new promise as `FlatSettlement` says and notify the adopted promise's progress, then the upstream's filtered late progress if the new promise is still pending |
| PromiseChain.ThenFlatAdopts | Aerodramus/Aerodramus/Promise/Promise.swift:132-153 | for any upstream signals that settle at most once, replayed progress included, the promise returned by the flattening `then`:<br>• adopts the settlement of the inner promise `doneFilter` returns;<br>• rejects with the thrown error or `failFilter(error)`;<br>• is notified of the upstream's filtered progress, then the inner promise's progress, then, while still pending, the upstream's filtered late progress |
| PromiseWhen.Range | Aerodramus/Aerodramus/Promise/Promise.swift:206 | the subordinate indices are exactly 0 to n-1, and there are n of them |
| PromiseWhen.CompleteBySize | Aerodramus/Aerodramus/Promise/Promise.swift:211-212 | counting resolved subordinates down to zero is the same as every subordinate having resolved |
| PromiseWhen.RunCounts | Aerodramus/Aerodramus/Promise/Promise.swift:205-214 | the closures keep:<br>• `remaining` equal to the number of subordinates not yet resolved;<br>• `results[i]` equal to the value subordinate i resolved with (nil until then) |
| PromiseWhen.RunMeetsOutcome | Aerodramus/Aerodramus/Promise/Promise.swift:203-222 | the calls the closures make settle the new promise exactly as the reference outcome says, and notify the progress reported before it |
| PromiseWhen.WhenSettlesAsOutcome | Aerodramus/Aerodramus/Promise/Promise.swift:203-222 | the promise `when` returns is well formed, settles as the reference outcome says, and its progress subscribers see the subordinates' progress up to then |
| PromiseWhen.NothingAfterAllResolved | Aerodramus/Aerodramus/Promise/Promise.swift:209-214 | once every subordinate has resolved, every later signal is progress |
| PromiseWhen.ProgressKeepsCollected | Aerodramus/Aerodramus/Promise/Promise.swift:217-218 | a progress signal changes neither which subordinates have resolved nor their recorded values |
| PromiseWhen.ResolvedHasValue | Aerodramus/Aerodramus/Promise/Promise.swift:209-210 | a resolved subordinate has its value recorded |
| PromiseWhen.OutcomeHasCause | Aerodramus/Aerodramus/Promise/Promise.swift:209-216 | the outcome is decided only by a failure or by every subordinate resolving |
| PromiseWhen.OutcomeIsFinal | Aerodramus/Aerodramus/Promise/Promise.swift:203-222 | once decided, the outcome never changes |
| PromiseWhen.ResolvedMeansAllResolved | Aerodramus/Aerodramus/Promise/Promise.swift:209-214 | the new promise resolves only when every subordinate has resolved, and then with the values of all of them in subordinate order, none nil |
| PromiseWhen.AllResolvedResolves | Aerodramus/Aerodramus/Promise/Promise.swift:209-214 | if every subordinate resolves and none fails, the new promise resolves with all their values |
| PromiseWhen.FirstFailureRejects | Aerodramus/Aerodramus/Promise/Promise.swift:215-216 | a failure before every subordinate has resolved rejects the new promise with the first such error |
| PromiseWhen.NoSubordinatesStaysPending | Aerodramus/Aerodramus/Promise/Promise.swift:205-208 | with no subordinates nothing is subscribed; the counter starts at zero and the new promise stays pending |
| PromiseWhen.WhenAggregate.constructor | Aerodramus/Aerodramus/Promise/Promise.swift:205-206 | the counter starts at n and the array holds n nils |
| PromiseWhen.WhenAggregate.OnDone | Aerodramus/Aerodramus/Promise/Promise.swift:209-214 | the in-place done closure stores the value, counts down, and resolves with the array once the count reaches zero |
| PromiseWhen.WhenAggregate.OnFail | Aerodramus/Aerodramus/Promise/Promise.swift:215-216 | the fail closure rejects with the error and changes nothing else |
| PromiseWhen.WhenAggregate.OnProgress | Aerodramus/Aerodramus/Promise/Promise.swift:217-218 | the progress closure notifies and changes nothing else |
| PromiseWhen.WhenAggregate.Receive | Aerodramus/Aerodramus/Promise/Promise.swift:208-220 | a signal from a subordinate runs the closure it reaches, as the value model's `React` |

## Left out

- Threads and locking. The library takes no locks, and the model is sequential.
- Object lifetime: `weak self` captures and deinitialisation.
- `debugDescription` of both classes. It prints a pointer address.
- The promise's `description`. It prints the state with a pointer address; the state part is modelled.
- `Foundation.Progress`. A progress value is an opaque type parameter.
- Swift string interpolation of values and errors. It is a parameter of the description functions.
- Subscribers are opaque ids, and a subscriber's re-entrant calls are a finite script.
  - A subscriber that re-enters the list forever, making dispatch loop without end, is not modelled.
  - Each invocation makes at most one re-entrant call. A subscriber that makes several in one invocation, such as adding a subscriber and then firing, is not modelled.
- `CallbacksSpec.Invoke`: under `.stopOnFalse`, a subscriber that disables the list and then returns `false` makes the source force-unwrap a released storage (Callbacks.swift:113), which traps. The model reads the count as 0 there and goes on.
- The promise's internal subscribers (Promise.swift:73-79) are not stored in the done and fail lists. They are performed by `Resolve` and `Reject` before the user subscribers run, which is the order the source runs them in.
  - So `isEmpty()` of a promise's lists does not count them.
  - In the source they are the first three subscribers.
- `PromiseSpec.Resolve`, `PromiseSpec.Reject`: a promise's lists are modelled with an empty re-entry script, so user subscribers never re-enter them. In the source a done subscriber may, for instance, subscribe again or settle the deferred from inside its closure; those runs are not modelled.
- `PromiseChain` and `PromiseWhen` feed the closures a trace of signals instead of running live closures.
  - A closure on the lists of a pending promise from the start receives `Signals(calls)` as long as no progress subscriber is added later (`SubscriberSeesFirstSettlement`, `SignalsAreWhatSubscribersSee`). A closure subscribed later, or any closure once a later progress subscriber is added, also receives replays, such as the last progress value again. `ThenForwards` holds for any trace, and `ThenFlatAdopts` for any trace that settles at most once.
  - `PromiseWhen` assumes each subordinate settles at most once and may send progress before and after that (`SubordinateTrace`). It does not derive this from the subordinates' own models.
- `PromiseChain.SignalsAreWhatSubscribersSee`: a progress subscriber added later makes the progress list replay its last value to every stored progress subscriber (Callbacks.swift:103, 144), while the promise is pending and after it settles. Those duplicates are not part of `Signals(calls)`; they are covered by `PromiseSpec.LateProgressReplaysLastValue` and by `ThenForwards` and `ThenFlatAdopts`, which take any trace.
- `CallbacksSpec.DescriptionInjective`: option sets are modelled as the three named flags. The source's option set is a raw `UInt` (Callbacks.swift:11-28) whose other bits `description` does not print, so two such sets differing only in those bits share a description; those bits are not modelled.
- `PromiseChain.ThenFlatAdopts`: the inner promise returned by `doneFilter` is modelled by the signals its relaying closures receive. Upstream progress replayed after the upstream settled is placed after all of those signals. In the source it can interleave with the inner promise's later notifications; that interleaving is not modelled.
- `PromiseSpec.AlwaysCalledOnceWithOneArgument`: `always` subscribes its two wrapper closures as one id in both lists. The pair sequence it reads back is what the filter receives.
- `PromiseSpec.LateProgressReplaysLastValue`: on a settled promise whose progress list still holds subscribers, the replay re-invokes those too. This is stated, not hidden.
- Promise+After (timed settlement), the URLSession and UIKit extensions, and the sample app are not part of this model. They need clocks, the network and the UI.
- The query predicates of both classes (`IsEmpty`, `IsDisabled`, `IsLocked`, `IsFired`, `IsPending`, `IsSettled`, `IsResolved`, `IsRejected`) have no contracts of their own. Their properties are proved of the value model's predicates they mirror.
