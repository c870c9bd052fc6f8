/** What Callbacks.swift promises about its callback list, proved of the value
    model in CallbacksSpec. */
module CallbacksProperties {
  import opened CallbacksSpec

  // ---------------------------------------------------------------------
  // The state between two public calls
  // ---------------------------------------------------------------------

  /** A list that no dispatch is running on.  Every public operation keeps it. */
  predicate Quiescent<A>(s: ListState<A>)
  {
    && !s.flags.firing
    && s.queue == []
    && (s.last.Some? ==> s.flags.fired && s.options.memory)
    && (s.options.once && s.flags.fired ==> s.flags.locked)
    && (s.callbacks.None? ==> s.flags.locked && s.last.None?)
    && (s.flags.locked ==> (s.callbacks.Some? <==> s.last.Some?))
    && (s.options.once && s.flags.fired ==> s.callbacks == (if s.last.Some? then Some([]) else None))
  }

  /** A public call on the list. */
  datatype ListOp<A> = AddOp(id: CallbackId) | FireOp(argument: A) | RemoveAllOp | DisableOp | LockOp

  function Perform<A>(s: ListState<A>, op: ListOp<A>): ListState<A>
  {
    match op
    case AddOp(id) => Add(s, id)
    case FireOp(x) => FireWith(s, x)
    case RemoveAllOp => RemoveAll(s)
    case DisableOp => Disable(s)
    case LockOp => Lock(s)
  }

  lemma InitialIsQuiescent<A>(options: CallbacksOptions, results: map<CallbackId, Returns>,
                              script: seq<Effect<A>>)
    ensures Quiescent(Initial(options, results, script))
    ensures !IsFired(Initial(options, results, script)) && IsEmpty(Initial(options, results, script))
  {
  }

  /** Every public operation keeps a quiescent list quiescent. */
  lemma QuiescentIsInvariant<A>(s: ListState<A>, op: ListOp<A>)
    requires Quiescent(s)
    ensures Quiescent(Perform(s, op))
  {
    match op
    case AddOp(id) =>
      if s.callbacks.Some? && s.last.Some? {
        var appended := s.(callbacks := Some(s.callbacks.value + [id]));
        var t := appended.(index := |appended.callbacks.value| - 1, queue := appended.queue + [s.last.value]);
        assert Add(s, id) == Dispatch(t);
      }
    case FireOp(x) =>
    case RemoveAllOp =>
    case DisableOp =>
    case LockOp =>
  }

  // ---------------------------------------------------------------------
  // fire(with:) (Callbacks.swift:199-207)
  // ---------------------------------------------------------------------

  /** A fire on a locked list changes nothing; otherwise it enqueues, and a
      fire made while firing only enqueues: it is exactly the re-entrant call
      the dispatch loop models, never a nested dispatch. */
  lemma FireWithEnqueuesOrIgnores<A>(s: ListState<A>, x: A)
    ensures s.flags.locked ==> FireWith(s, x) == s
    ensures !s.flags.locked && s.flags.firing ==>
              FireWith(s, x) == s.(queue := s.queue + [x]) == Reenter(s, FireAgain(x))
    ensures !s.flags.locked && !s.flags.firing ==> FireWith(s, x).flags.fired && FireWith(s, x).queue == []
  {
  }

  /** An `add` made while firing only appends: the re-entrant call the
      dispatch loop models. */
  lemma AddWhileFiringOnlyAppends<A>(s: ListState<A>, id: CallbackId)
    requires s.flags.firing
    ensures Add(s, id) == Reenter(s, AddCallback(id))
    ensures s.callbacks.Some? ==> Add(s, id).callbacks == Some(s.callbacks.value + [id])
  {
  }

  // ---------------------------------------------------------------------
  // Delivery order and re-entrancy (Callbacks.swift:102-118, 137-142)
  // ---------------------------------------------------------------------

  /** One invocation per subscriber, in the order of `ids`. */
  function Deliveries<A>(ids: seq<CallbackId>, argument: A): seq<Invocation<A>>
  {
    if ids == [] then [] else [Invocation(ids[0], argument)] + Deliveries(ids[1..], argument)
  }

  /** Subscribers whose re-entrant calls never shrink the storage. */
  predicate KeepsCallbacks<A>(script: seq<Effect<A>>)
  {
    forall k :: 0 <= k < |script| ==> script[k].NoEffect? || script[k].FireAgain? || script[k].AddCallback?
  }

  /** No subscriber can end a delivery early. */
  predicate NeverStops<A>(s: ListState<A>)
  {
    !s.options.stopOnFalse || forall id :: id in s.results ==> s.results[id] != ReturnsFalse
  }

  /** The inner loop delivers its argument to every subscriber from the
      cursor to the LIVE end of the storage, subscribers added meanwhile
      included, in insertion order. */
  lemma {:induction false} DeliverReachesLiveEnd<A>(s: ListState<A>, a: A)
    requires s.callbacks.Some? && s.index <= |s.callbacks.value|
    requires KeepsCallbacks(s.script) && NeverStops(s)
    ensures Deliver(s, a).callbacks.Some?
    ensures s.callbacks.value <= Deliver(s, a).callbacks.value
    ensures Deliver(s, a).log == s.log + Deliveries(Deliver(s, a).callbacks.value[s.index..], a)
    decreases |s.script|, Remaining(s)
  {
    var r := Deliver(s, a);
    if s.index < |s.callbacks.value| {
      var t := Invoke(s, a);
      InvokeKeepingCallbacks(s, a);
      DeliverReachesLiveEnd(t, a);
      assert r == Deliver(t, a);
      LiveEndStep(s.callbacks.value, t.callbacks.value, r.callbacks.value, s.index, s.log, t.log, r.log, a);
    } else {
      assert r == s;
      assert r.callbacks.value[s.index..] == [];
    }
  }

  /** One invocation followed by the rest of the delivery, on the storages
      and logs before, between and after. */
  lemma LiveEndStep<A>(before: seq<CallbackId>, between: seq<CallbackId>, after: seq<CallbackId>, i: nat,
                       logBefore: seq<Invocation<A>>, logBetween: seq<Invocation<A>>, logAfter: seq<Invocation<A>>, a: A)
    requires i < |before| && before <= between && between <= after
    requires logBetween == logBefore + [Invocation(before[i], a)]
    requires logAfter == logBetween + Deliveries(after[i + 1..], a)
    ensures before <= after
    ensures logAfter == logBefore + Deliveries(after[i..], a)
  {
    assert after[i] == before[i];
    assert after[i..][1..] == after[i + 1..];
  }

  /** What the clean-up after the loops (lines 121-131) leaves alone. */
  lemma DispatchKeepsTrace<A>(s: ListState<A>)
    ensures Dispatch(s).log == Drain(Begin(s)).log
    ensures Dispatch(s).started == Drain(Begin(s)).started
    ensures Dispatch(s).script == Drain(Begin(s)).script
  {
  }

  /** One invocation by a subscriber that neither stops the delivery nor
      shrinks the storage. */
  lemma InvokeKeepingCallbacks<A>(s: ListState<A>, a: A)
    requires s.callbacks.Some? && s.index < |s.callbacks.value|
    requires KeepsCallbacks(s.script) && NeverStops(s)
    ensures Invoke(s, a).callbacks.Some?
    ensures s.callbacks.value <= Invoke(s, a).callbacks.value
    ensures Invoke(s, a).index == s.index + 1
    ensures KeepsCallbacks(Invoke(s, a).script) && NeverStops(Invoke(s, a))
  {
    var id := s.callbacks.value[s.index];
    assert ResultOf(s, id) != ReturnsFalse || !s.options.stopOnFalse;
    if s.script != [] {
      assert s.script[0] in s.script;
    }
  }

  /** Firing a list whose subscribers do not re-enter invokes each of them
      once with the argument, in insertion order. */
  lemma FireDeliversInOrder<A>(s: ListState<A>, x: A)
    requires Quiescent(s) && !s.flags.locked && s.script == [] && NeverStops(s)
    ensures s.callbacks.Some?
    ensures FireWith(s, x).log == s.log + Deliveries(s.callbacks.value, x)
  {
    var queued := s.(queue := s.queue + [x]);
    DispatchKeepsTrace(queued);
    var begun := Begin(queued);
    var popped := Pop(begun);
    DeliverReachesLiveEnd(popped, x);
    var d := Deliver(popped, x);
    assert d.callbacks == s.callbacks && d.queue == [];
    assert Drain(begun) == Drain(d) == d;
  }

  /** A subscriber added by a running subscriber is still invoked with the
      argument being delivered. */
  lemma AddedWhileFiringGetsCurrentArgument<A>(s: ListState<A>, x: A, c: CallbackId)
    requires Quiescent(s) && !s.flags.locked && s.script == [AddCallback(c)] && NeverStops(s)
    requires s.callbacks.Some? && s.callbacks.value != []
    ensures FireWith(s, x).log == s.log + Deliveries(s.callbacks.value + [c], x)
  {
    var queued := s.(queue := s.queue + [x]);
    DispatchKeepsTrace(queued);
    var begun := Begin(queued);
    var popped := Pop(begun);
    var t := Invoke(popped, x);
    assert t.callbacks == Some(s.callbacks.value + [c]) && t.script == [] && t.queue == [];
    assert Deliver(popped, x) == Deliver(t, x);
    DeliverReachesLiveEnd(popped, x);
    assert Drain(begun) == Deliver(popped, x);
  }

  /** Subscribers that never lock or disable the list. */
  predicate NoLocking<A>(script: seq<Effect<A>>)
  {
    forall k :: 0 <= k < |script| ==> !script[k].DisableList? && !script[k].LockList?
  }

  lemma FiredArgumentsOfTail<A>(script: seq<Effect<A>>)
    requires script != []
    ensures FiredArguments(script) ==
      (if script[0].FireAgain? then [script[0].argument] else []) + FiredArguments(script[1..])
  {
  }

  /** While no one locks the list, an invocation only moves an argument from
      the script of re-entrant fires to the tail of the queue. */
  lemma InvokeConservesArguments<A>(s: ListState<A>, a: A)
    requires s.index < Count(s.callbacks)
    requires !s.flags.locked && NoLocking(s.script)
    ensures !Invoke(s, a).flags.locked && NoLocking(Invoke(s, a).script)
    ensures Invoke(s, a).queue + FiredArguments(Invoke(s, a).script) == s.queue + FiredArguments(s.script)
  {
    var t := Invoke(s, a);
    if s.script != [] {
      FiredArgumentsOfTail(s.script);
      assert NoLocking(t.script);
      if s.script[0].FireAgain? {
        assert t.queue == s.queue + [s.script[0].argument];
      } else {
        assert t.queue == s.queue;
      }
    }
  }

  /** The same for the whole inner loop. */
  lemma {:induction false} DeliverConservesArguments<A>(s: ListState<A>, a: A)
    requires !s.flags.locked && NoLocking(s.script)
    ensures !Deliver(s, a).flags.locked && NoLocking(Deliver(s, a).script)
    ensures Deliver(s, a).queue + FiredArguments(Deliver(s, a).script) == s.queue + FiredArguments(s.script)
    decreases |s.script|, Remaining(s)
  {
    if s.index < Count(s.callbacks) {
      InvokeConservesArguments(s, a);
      DeliverConservesArguments(Invoke(s, a), a);
    }
  }

  /** The outer loop begins dispatching arguments in FIFO order: first the
      queued ones, then those that subscribers fired re-entrantly, in the
      order they were fired. */
  lemma {:induction false} DrainStartsInQueueOrder<A>(s: ListState<A>)
    requires !s.flags.locked && NoLocking(s.script)
    ensures Drain(s).started + FiredArguments(Drain(s).script) == s.started + s.queue + FiredArguments(s.script)
    decreases 2 * |s.script| + |s.queue|
  {
    if s.queue != [] {
      var d := Deliver(Pop(s), s.queue[0]);
      assert Drain(s) == Drain(d);
      PopThenDeliverConserves(s);
      DrainStartsInQueueOrder(d);
    }
  }

  lemma PopThenDeliverConserves<A>(s: ListState<A>)
    requires s.queue != [] && !s.flags.locked && NoLocking(s.script)
    ensures var d := Deliver(Pop(s), s.queue[0]);
      && !d.flags.locked && NoLocking(d.script)
      && d.started + d.queue + FiredArguments(d.script) == s.started + s.queue + FiredArguments(s.script)
  {
    var p := Pop(s);
    assert p.started + p.queue == s.started + s.queue;
    DeliverConservesArguments(p, s.queue[0]);
    var d := Deliver(p, s.queue[0]);
    assert d.started == p.started;
    calc {
      d.started + d.queue + FiredArguments(d.script);
      p.started + (d.queue + FiredArguments(d.script));
      p.started + (p.queue + FiredArguments(p.script));
      s.started + s.queue + FiredArguments(s.script);
    }
  }

  /** `fire(with:)` on a list that is not once-only: the argument and every
      argument fired re-entrantly meanwhile are dispatched one after the
      other, first come first served. */
  lemma FireDispatchesFifo<A>(s: ListState<A>, x: A)
    requires Quiescent(s) && !s.flags.locked && !s.options.once && NoLocking(s.script)
    ensures FireWith(s, x).started + FiredArguments(FireWith(s, x).script) ==
            s.started + [x] + FiredArguments(s.script)
  {
    var begun := s.(queue := [x], flags := Flags(true, true, false));
    DrainStartsInQueueOrder(begun);
  }

  // ---------------------------------------------------------------------
  // .once (Callbacks.swift:97-101, 200, 210-212)
  // ---------------------------------------------------------------------

  /** Every invocation made by the inner loop carries its argument. */
  lemma {:induction false} DeliverLogsOnlyItsArgument<A>(s: ListState<A>, a: A)
    ensures forall k :: |s.log| <= k < |Deliver(s, a).log| ==> Deliver(s, a).log[k].argument == a
    decreases |s.script|, Remaining(s)
  {
    if s.index < Count(s.callbacks) {
      var t := Invoke(s, a);
      DeliverLogsOnlyItsArgument(t, a);
    }
  }

  /** On a locked list, subscribers can only shorten the queue. */
  lemma {:induction false} DeliverWhileLockedShrinksQueue<A>(s: ListState<A>, a: A)
    requires s.flags.locked
    ensures Deliver(s, a).queue <= s.queue
    decreases |s.script|, Remaining(s)
  {
    if s.index < Count(s.callbacks) {
      var t := Invoke(s, a);
      assert t.queue <= s.queue;
      DeliverWhileLockedShrinksQueue(t, a);
    }
  }

  /** A once-only list locks before its first dispatch: it delivers only the
      first argument, even when subscribers fire re-entrantly, it is marked
      fired, and every later fire is ignored. */
  lemma OnceDeliversOnlyFirstArgument<A>(s: ListState<A>, x: A, y: A)
    requires Quiescent(s) && s.options.once && !s.flags.locked
    ensures IsLocked(FireWith(s, x)) && IsFired(FireWith(s, x))
    ensures FireWith(s, x).started == s.started + [x]
    ensures forall k :: |s.log| <= k < |FireWith(s, x).log| ==> FireWith(s, x).log[k].argument == x
    ensures FireWith(FireWith(s, x), y) == FireWith(s, x)
  {
    var begun := s.(queue := [x], flags := Flags(true, true, true));
    var popped := Pop(begun);
    DeliverWhileLockedShrinksQueue(popped, x);
    DeliverLogsOnlyItsArgument(popped, x);
    var d := Deliver(popped, x);
    assert d.queue == [];
    assert Drain(begun) == d;
  }

  // ---------------------------------------------------------------------
  // .stopOnFalse (Callbacks.swift:110-115)
  // ---------------------------------------------------------------------

  lemma {:induction false} DeliverStopsAtFirstFalse<A>(s: ListState<A>, a: A, k: nat)
    requires s.callbacks.Some? && s.index <= k < |s.callbacks.value|
    requires s.script == [] && s.options.stopOnFalse
    requires ResultOf(s, s.callbacks.value[k]) == ReturnsFalse
    requires forall j :: s.index <= j < k ==> ResultOf(s, s.callbacks.value[j]) != ReturnsFalse
    ensures Deliver(s, a).log == s.log + Deliveries(s.callbacks.value[s.index..k + 1], a)
    ensures Deliver(s, a).last == None && Deliver(s, a).queue == s.queue
    decreases k - s.index
  {
    var t := Invoke(s, a);
    var ids := s.callbacks.value;
    assert ids[s.index..k + 1] == [ids[s.index]] + ids[s.index + 1..k + 1];
    if s.index == k {
      assert Deliver(t, a) == t;
      assert ids[s.index + 1..k + 1] == [];
    } else {
      assert t.index == s.index + 1 && t.callbacks == s.callbacks;
      DeliverStopsAtFirstFalse(t, a, k);
    }
  }

  /** With `.stopOnFalse`, a subscriber returning Bool false ends the delivery:
      later subscribers are skipped and the argument is forgotten, so a later
      `add` does not replay it.  Non-Bool results count as true. */
  lemma StopOnFalseSkipsRemaining<A>(s: ListState<A>, x: A, k: nat, id: CallbackId)
    requires Quiescent(s) && !s.flags.locked && s.options.stopOnFalse && s.script == []
    requires s.callbacks.Some? && k < |s.callbacks.value|
    requires ResultOf(s, s.callbacks.value[k]) == ReturnsFalse
    requires forall j :: 0 <= j < k ==> ResultOf(s, s.callbacks.value[j]) != ReturnsFalse
    ensures FireWith(s, x).log == s.log + Deliveries(s.callbacks.value[..k + 1], x)
    ensures FireWith(s, x).last == None
    ensures Add(FireWith(s, x), id).log == FireWith(s, x).log
  {
    var begun := s.(queue := [x], flags := Flags(true, true, s.options.once));
    var popped := Pop(begun);
    DeliverStopsAtFirstFalse(popped, x, k);
    assert Drain(begun) == Deliver(popped, x);
    assert s.callbacks.value[0..k + 1] == s.callbacks.value[..k + 1];
  }

  // ---------------------------------------------------------------------
  // .memory and replay (Callbacks.swift:103, 122-124, 127-131, 142-147)
  // ---------------------------------------------------------------------

  /** Without `.memory` nothing is remembered after a dispatch, so `add`
      never invokes anything. */
  lemma WithoutMemoryAddNeverReplays<A>(s: ListState<A>, id: CallbackId, x: A)
    requires Quiescent(s) && !s.options.memory
    ensures FireWith(s, x).last == None
    ensures Add(s, id).log == s.log && Add(s, id).flags == s.flags
  {
  }

  /** With `.memory`, `add` on a list that is not firing dispatches the
      remembered argument at once, and because dispatch restarts its cursor
      at 0, every subscriber is invoked again, not only the new one. */
  lemma MemoryReplayReinvokesEverySubscriber<A>(s: ListState<A>, id: CallbackId)
    requires Quiescent(s) && s.last.Some? && s.callbacks.Some? && s.script == [] && NeverStops(s)
    ensures s.options.memory
    ensures Add(s, id).log == s.log + Deliveries(s.callbacks.value + [id], s.last.value)
  {
    var v := s.last.value;
    var appended := s.(callbacks := Some(s.callbacks.value + [id]));
    var t := appended.(index := |appended.callbacks.value| - 1, queue := [v]);
    var begun := t.(flags := Flags(true, true, s.flags.locked || s.options.once));
    var popped := Pop(begun);
    DeliverReachesLiveEnd(popped, v);
    assert Drain(begun) == Deliver(popped, v);
  }

  /** A once-and-memory list that has fired keeps an empty storage, so a late
      subscriber is replayed the remembered argument alone, exactly once. */
  lemma LockedOnceMemoryReplaysOnlyNew<A>(s: ListState<A>, id: CallbackId)
    requires Quiescent(s) && s.options.once && s.flags.fired && s.last.Some? && s.script == []
    ensures s.callbacks == Some([])
    ensures Add(s, id).log == s.log + [Invocation(id, s.last.value)]
    ensures Quiescent(Add(s, id))
  {
    var v := s.last.value;
    var appended := s.(callbacks := Some(s.callbacks.value + [id]));
    var t := appended.(index := |appended.callbacks.value| - 1, queue := appended.queue + [v]);
    assert Add(s, id) == Dispatch(t);
    assert s.callbacks.value == [] && s.queue == [];
    assert t.callbacks.value == [] + [id] == [id];
    assert t.queue == [] + [v] == [v];
    DispatchKeepsTrace(t);
    var begun := Begin(t);
    var popped := Pop(begun);
    var i := Invoke(popped, v);
    assert Deliver(popped, v) == Deliver(i, v) == i;
    assert i.queue == [];
    assert Drain(begun) == Drain(i) == i;
    QuiescentIsInvariant(s, AddOp(id));
  }

  // ---------------------------------------------------------------------
  // disable, lock and removeAll (Callbacks.swift:155-191)
  // ---------------------------------------------------------------------

  /** `disable()` locks, forgets the argument, drops the queue and releases the
      storage; afterwards `add` and `fire(with:)` do nothing. */
  lemma DisableSilencesList<A>(s: ListState<A>, id: CallbackId, x: A)
    ensures IsLocked(Disable(s)) && IsDisabled(Disable(s)) && IsEmpty(Disable(s))
    ensures Disable(s).last == None && Disable(s).queue == []
    ensures Add(Disable(s), id) == Disable(s) && FireWith(Disable(s), x) == Disable(s)
  {
  }

  /** `lock()` locks, and releases the storage exactly when nothing is
      remembered; a remembered argument keeps the list soft-locked. */
  lemma LockDisablesOnlyWithoutMemory<A>(s: ListState<A>)
    requires Quiescent(s)
    ensures IsLocked(Lock(s))
    ensures IsDisabled(Lock(s)) <==> s.last.None?
    ensures s.last.Some? ==> Lock(s).callbacks == s.callbacks && Lock(s).last == s.last
  {
  }

  /** `removeAll()` empties the storage and changes no flag. */
  lemma RemoveAllKeepsFlags<A>(s: ListState<A>)
    ensures RemoveAll(s).flags == s.flags && IsEmpty(RemoveAll(s))
    ensures IsDisabled(RemoveAll(s)) <==> IsDisabled(s)
  {
  }

  // ---------------------------------------------------------------------
  // Quiet subscribers: the whole new state of fire(with:) and add
  // ---------------------------------------------------------------------

  /** When no subscriber re-enters the list or returns Bool false, the inner
      loop invokes every subscriber from the cursor to the end, once each,
      and changes nothing else but the cursor. */
  lemma {:induction false} DeliverQuietly<A>(s: ListState<A>, a: A)
    requires s.script == [] && NeverStops(s)
    requires s.callbacks.Some? && s.index <= |s.callbacks.value|
    ensures Deliver(s, a) ==
            s.(index := |s.callbacks.value|, log := s.log + Deliveries(s.callbacks.value[s.index..], a))
    decreases Remaining(s)
  {
    var ids := s.callbacks.value;
    if s.index < |ids| {
      var t := Invoke(s, a);
      assert ResultOf(s, ids[s.index]) != ReturnsFalse || !s.options.stopOnFalse;
      assert t == s.(index := s.index + 1, log := s.log + [Invocation(ids[s.index], a)]);
      DeliverQuietly(t, a);
      assert ids[s.index..][1..] == ids[s.index + 1..];
    } else {
      assert ids[s.index..] == [];
    }
  }

  /** `fire(with:)` on an unlocked, quiet list: every subscriber is invoked
      once with `x`, in insertion order; the list is marked fired, locked
      when once-only, remembers `x` only with `.memory`, and a locked list
      keeps an empty storage only when it remembers something. */
  lemma FireQuietly<A>(s: ListState<A>, x: A)
    requires Quiescent(s) && !s.flags.locked && s.script == [] && NeverStops(s)
    ensures s.callbacks.Some?
    ensures FireWith(s, x) ==
      s.(flags := Flags(true, false, s.options.once),
         callbacks := if s.options.once then (if s.options.memory then Some([]) else None) else s.callbacks,
         last := if s.options.memory then Some(x) else None,
         index := |s.callbacks.value|,
         log := s.log + Deliveries(s.callbacks.value, x),
         started := s.started + [x])
  {
    var queued := s.(queue := s.queue + [x]);
    var begun := Begin(queued);
    var popped := Pop(begun);
    assert popped.callbacks.value[0..] == s.callbacks.value;
    DeliverQuietly(popped, x);
    var d := Deliver(popped, x);
    assert d.queue == [];
    assert Drain(begun) == Drain(d) == d;
  }

  /** `add` on a quiet list that remembers an argument: the argument is
      replayed to every subscriber in the storage, the new one last, and a
      locked list then empties its storage again. */
  lemma AddQuietly<A>(s: ListState<A>, id: CallbackId)
    requires Quiescent(s) && s.last.Some? && s.callbacks.Some? && s.script == [] && NeverStops(s)
    ensures Add(s, id) ==
      s.(callbacks := if s.flags.locked then Some([]) else Some(s.callbacks.value + [id]),
         index := |s.callbacks.value| + 1,
         log := s.log + Deliveries(s.callbacks.value + [id], s.last.value),
         started := s.started + [s.last.value])
  {
    var v := s.last.value;
    var appended := s.(callbacks := Some(s.callbacks.value + [id]));
    var t := appended.(index := |appended.callbacks.value| - 1, queue := appended.queue + [v]);
    assert Add(s, id) == Dispatch(t);
    var begun := Begin(t);
    assert begun.flags == s.flags.(firing := true);
    var popped := Pop(begun);
    assert popped.callbacks.value[0..] == s.callbacks.value + [id];
    DeliverQuietly(popped, v);
    var d := Deliver(popped, v);
    assert d.queue == [];
    assert Drain(begun) == Drain(d) == d;
  }

  // ---------------------------------------------------------------------
  // What one subscriber receives
  // ---------------------------------------------------------------------

  /** The arguments subscriber `id` was invoked with, in order. */
  function ArgumentsTo<A>(log: seq<Invocation<A>>, id: CallbackId): seq<A>
  {
    if log == [] then []
    else (if log[0].id == id then [log[0].argument] else []) + ArgumentsTo(log[1..], id)
  }

  lemma {:induction false} ArgumentsToAppend<A>(a: seq<Invocation<A>>, b: seq<Invocation<A>>, id: CallbackId)
    ensures ArgumentsTo(a + b, id) == ArgumentsTo(a, id) + ArgumentsTo(b, id)
    decreases |a|
  {
    if a == [] {
      assert a + b == b;
    } else {
      var head := if a[0].id == id then [a[0].argument] else [];
      assert (a + b)[0] == a[0] && (a + b)[1..] == a[1..] + b;
      assert ArgumentsTo(a + b, id) == head + ArgumentsTo(a[1..] + b, id);
      ArgumentsToAppend(a[1..], b, id);
      assert ArgumentsTo(a, id) == head + ArgumentsTo(a[1..], id);
    }
  }

  /** A delivery to `ids` reaches `id` as often as `id` is stored there. */
  lemma {:induction false} ArgumentsToDeliveries<A>(ids: seq<CallbackId>, a: A, id: CallbackId)
    ensures multiset(ids)[id] == 0 ==> ArgumentsTo(Deliveries(ids, a), id) == []
    ensures multiset(ids)[id] == 1 ==> ArgumentsTo(Deliveries(ids, a), id) == [a]
    decreases |ids|
  {
    if ids != [] {
      assert ids == [ids[0]] + ids[1..];
      assert multiset(ids) == multiset{ids[0]} + multiset(ids[1..]);
      ArgumentsToDeliveries(ids[1..], a, id);
    }
  }
}
