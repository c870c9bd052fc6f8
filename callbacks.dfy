/** The `Callbacks` class of Callbacks.swift: an object whose methods update
    its fields in place.  Each method is proved to compute the function of
    CallbacksSpec that models it, so every property proved there holds of
    the object. */
module CallbackList {
  import opened CallbacksSpec

  class Callbacks<A> {
    /** Fixed at construction (line 71). */
    const options: CallbacksOptions
    /** What each subscriber returns. */
    const results: map<CallbackId, Returns>

    var flags: Flags
    /** `nil` is `None`: the released storage. */
    var callbacks: Option<seq<CallbackId>>
    var queue: seq<A>
    var last: Option<A>
    var index: nat
    /** The re-entrant calls the subscribers will make, one per invocation. */
    var script: seq<Effect<A>>
    ghost var log: seq<Invocation<A>>
    ghost var started: seq<A>

    ghost function State(): ListState<A>
      reads this
    {
      ListState(options, results, flags, callbacks, queue, last, index, script, log, started)
    }

    /** `init(options:)` */
    constructor (options: CallbacksOptions, results: map<CallbackId, Returns>, script: seq<Effect<A>>)
      ensures State() == Initial(options, results, script)
    {
      this.options := options;
      this.results := results;
      flags := Flags(false, false, false);
      callbacks := Some([]);
      queue := [];
      last := None;
      index := 0;
      this.script := script;
      log := [];
      started := [];
    }

    /** `removeAll()` */
    method RemoveAll()
      modifies this
      ensures State() == CallbacksSpec.RemoveAll(old(State()))
    {
      if callbacks.Some? {
        callbacks := Some([]);
      }
    }

    /** `disable()` */
    method Disable()
      modifies this
      ensures State() == CallbacksSpec.Disable(old(State()))
    {
      flags := flags.(locked := true);
      last := None;
      callbacks := None;
      queue := [];
    }

    /** `lock()` */
    method Lock()
      modifies this
      ensures State() == CallbacksSpec.Lock(old(State()))
    {
      flags := flags.(locked := true);
      if last.None? {
        Disable();
      }
    }

    /** The call a running subscriber makes back into this list. */
    method Reenter(effect: Effect<A>)
      modifies this
      ensures State() == CallbacksSpec.Reenter(old(State()), effect)
    {
      match effect
      case NoEffect =>
      case FireAgain(x) =>
        if !flags.locked {
          queue := queue + [x];
        }
      case AddCallback(id) =>
        if callbacks.Some? {
          callbacks := Some(callbacks.value + [id]);
        }
      case RemoveAllCallbacks => RemoveAll();
      case DisableList => Disable();
      case LockList => Lock();
    }

    /** One pass of the inner loop (lines 108-117). */
    method InvokeNext(memory: A)
      requires index < Count(callbacks)
      modifies this
      ensures State() == Invoke(old(State()), memory)
    {
      var id := callbacks.value[index];
      log := log + [Invocation(id, memory)];
      var effect := if script == [] then NoEffect else script[0];
      script := if script == [] then [] else script[1..];
      Reenter(effect);
      var result := if id in results then results[id] else ReturnsOther;
      if result == ReturnsFalse && options.stopOnFalse {
        index := Count(callbacks);
        last := None;
      }
      index := index + 1;
    }

    /** The inner loop of the private `fire()` (lines 107-118): the cursor
        runs over the live, growable storage. */
    method DeliverAll(memory: A)
      modifies this
      ensures State() == Deliver(old(State()), memory)
    {
      ghost var target := Deliver(State(), memory);
      while index < Count(callbacks)
        invariant Deliver(State(), memory) == target
        decreases |script|, Remaining(State())
      {
        InvokeNext(memory);
      }
    }

    /** The private `fire()` (lines 95-132); its outer loop drains the queue. */
    method Fire()
      modifies this
      ensures State() == CallbacksSpec.Dispatch(old(State()))
    {
      flags := Flags(true, true, flags.locked || options.once);
      ghost var target := Drain(State());
      while queue != []
        invariant Drain(State()) == target
        decreases 2 * |script| + |queue|
      {
        ghost var before := State();
        index := 0;
        var memory := queue[0];
        queue := queue[1..];
        last := Some(memory);
        started := started + [memory];
        assert State() == Pop(before);
        DeliverAll(memory);
      }
      flags := flags.(firing := false);
      if !options.memory {
        last := None;
      }
      if flags.locked {
        callbacks := if last.Some? then Some([]) else None;
      }
    }

    /** `add(_:)` */
    method Add(id: CallbackId)
      modifies this
      ensures State() == CallbacksSpec.Add(old(State()), id)
    {
      if callbacks.Some? {
        callbacks := Some(callbacks.value + [id]);
        if !flags.firing && last.Some? {
          index := |callbacks.value| - 1;
          queue := queue + [last.value];
          Fire();
        }
      }
    }

    /** `fire(with:)` */
    method FireWith(x: A)
      modifies this
      ensures State() == CallbacksSpec.FireWith(old(State()), x)
    {
      if !flags.locked {
        queue := queue + [x];
        if !flags.firing {
          Fire();
        }
      }
    }

    /** `isEmpty()` */
    predicate IsEmpty()
      reads this
    {
      callbacks.None? || callbacks.value == []
    }

    /** `isDisable()` */
    predicate IsDisabled()
      reads this
    {
      callbacks.None?
    }

    /** `isLocked()` */
    predicate IsLocked()
      reads this
    {
      flags.locked
    }

    /** `isFired()` */
    predicate IsFired()
      reads this
    {
      flags.fired
    }
  }
}
