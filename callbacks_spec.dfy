/** A value model of the callback list of Callbacks.swift.

    The whole state of a `Callbacks` object (its flags, the subscriber storage,
    the argument queue, the remembered argument and the firing cursor) is one
    `ListState` value, and every operation of the class is a function from the
    old state to the new one.  The class in module CallbackList is proved to
    compute exactly these functions; the lemmas below state what the source
    promises about them.

    Subscribers are closures in the source.  Here a subscriber is an opaque
    `CallbackId`; what it returns is looked up in `results` (Bool false, Bool
    true, or a value of another type), and the calls it makes back into the
    same list while it runs are the next entry of `script`, one entry consumed
    per invocation.  The ghost-like fields `log` (every invocation, in order)
    and `started` (every argument whose dispatch began, in order) exist only
    to state the properties. */
module CallbacksSpec {

  datatype Option<T> = None | Some(value: T)

  // ---------------------------------------------------------------------
  // Options and their description (Callbacks.swift:11-48)
  // ---------------------------------------------------------------------

  /** The option set fixed when the list is created, as its three named
      options. */
  datatype CallbacksOptions = CallbacksOptions(once: bool, memory: bool, stopOnFalse: bool)

  const NoOptions := CallbacksOptions(false, false, false)

  /** `parts` joined with `separator` between neighbours. */
  function Join(parts: seq<string>, separator: string): string
  {
    if |parts| == 0 then ""
    else if |parts| == 1 then parts[0]
    else parts[0] + separator + Join(parts[1..], separator)
  }

  /** The names of the contained options, in the fixed table order. */
  function ContainedNames(o: CallbacksOptions): seq<string>
  {
    (if o.once then [".once"] else [])
    + (if o.memory then [".memory"] else [])
    + (if o.stopOnFalse then [".stopOnFalse"] else [])
  }

  /** `description`: "[" + names joined by "|" + "]". */
  function Description(o: CallbacksOptions): (r: string)
    ensures |r| >= 2 && r[0] == '[' && r[|r| - 1] == ']'
  {
    "[" + Join(ContainedNames(o), "|") + "]"
  }

  /** The empty set and the full set render as the source's table dictates. */
  lemma DescriptionOfExtremes()
    ensures Description(NoOptions) == "[]"
    ensures Description(CallbacksOptions(true, true, true)) == "[.once|.memory|.stopOnFalse]"
  {
    assert ContainedNames(CallbacksOptions(true, true, true)) == [".once", ".memory", ".stopOnFalse"];
  }

  function TotalLength(parts: seq<string>): nat
  {
    if parts == [] then 0 else |parts[0]| + TotalLength(parts[1..])
  }

  lemma {:induction false} TotalLengthAppend(a: seq<string>, b: seq<string>)
    ensures TotalLength(a + b) == TotalLength(a) + TotalLength(b)
  {
    if a != [] {
      assert (a + b)[1..] == a[1..] + b;
      TotalLengthAppend(a[1..], b);
    } else {
      assert a + b == b;
    }
  }

  lemma {:induction false} JoinLength(parts: seq<string>, separator: string)
    ensures |Join(parts, separator)| ==
      TotalLength(parts) + (if parts == [] then 0 else (|parts| - 1) * |separator|)
  {
    if |parts| > 1 {
      JoinLength(parts[1..], separator);
    }
  }

  /** The length of the description determines the option set: the eight
      renderings have the pairwise different lengths 2, 7, 9, 14, 15, 20, 22, 28. */
  lemma DescriptionLength(o: CallbacksOptions)
    ensures |Description(o)| ==
      2 + (if o.once then 5 else 0) + (if o.memory then 7 else 0) + (if o.stopOnFalse then 12 else 0)
      + (var c := (if o.once then 1 else 0) + (if o.memory then 1 else 0) + (if o.stopOnFalse then 1 else 0);
         if c == 0 then 0 else c - 1)
  {
    var names := ContainedNames(o);
    JoinLength(names, "|");
    assert TotalLength(names) ==
      (if o.once then 5 else 0) + (if o.memory then 7 else 0) + (if o.stopOnFalse then 12 else 0) by {
      var a := if o.once then [".once"] else [];
      var b := if o.memory then [".memory"] else [];
      var c := if o.stopOnFalse then [".stopOnFalse"] else [];
      TotalLengthAppend(a + b, c);
      TotalLengthAppend(a, b);
    }
  }

  /** Two option sets with the same description are the same set. */
  lemma DescriptionInjective(a: CallbacksOptions, b: CallbacksOptions)
    requires Description(a) == Description(b)
    ensures a == b
  {
    DescriptionLength(a);
    DescriptionLength(b);
  }

  // ---------------------------------------------------------------------
  // State (Callbacks.swift:50-92)
  // ---------------------------------------------------------------------

  /** `CallbacksFlags`: fired, firing and locked. */
  datatype Flags = Flags(fired: bool, firing: bool, locked: bool)

  /** A subscriber, identified by an opaque number. */
  type CallbackId = nat

  /** What a subscriber returns: Bool false, Bool true, or a non-Bool value. */
  datatype Returns = ReturnsFalse | ReturnsTrue | ReturnsOther

  /** The call a subscriber makes back into the same list while it runs. */
  datatype Effect<A> =
    | NoEffect
    | FireAgain(argument: A)
    | AddCallback(id: CallbackId)
    | RemoveAllCallbacks
    | DisableList
    | LockList

  /** One invocation of a subscriber with an argument. */
  datatype Invocation<A> = Invocation(id: CallbackId, argument: A)

  /** `callbacks == None` is the released storage (`callbackList = nil`),
      distinct from `Some([])`. */
  datatype ListState<A> = ListState(
    options: CallbacksOptions,
    results: map<CallbackId, Returns>,
    flags: Flags,
    callbacks: Option<seq<CallbackId>>,
    queue: seq<A>,
    last: Option<A>,
    index: nat,
    script: seq<Effect<A>>,
    log: seq<Invocation<A>>,
    started: seq<A>)

  /** A new list (`init(options:)`). */
  function Initial<A>(options: CallbacksOptions, results: map<CallbackId, Returns>,
                      script: seq<Effect<A>>): ListState<A>
  {
    ListState(options, results, Flags(false, false, false), Some([]), [], None, 0, script, [], [])
  }

  /** `callbackList?.count ?? 0` */
  function Count(callbacks: Option<seq<CallbackId>>): nat
  {
    if callbacks.Some? then |callbacks.value| else 0
  }

  /** What subscriber `id` returns; a subscriber not listed returns a non-Bool. */
  function ResultOf<A>(s: ListState<A>, id: CallbackId): Returns
  {
    if id in s.results then s.results[id] else ReturnsOther
  }

  // ---------------------------------------------------------------------
  // Queries (Callbacks.swift:161-163, 177-179, 193-195, 210-212)
  // ---------------------------------------------------------------------

  predicate IsEmpty<A>(s: ListState<A>) { s.callbacks.None? || s.callbacks.value == [] }
  predicate IsDisabled<A>(s: ListState<A>) { s.callbacks.None? }
  predicate IsLocked<A>(s: ListState<A>) { s.flags.locked }
  predicate IsFired<A>(s: ListState<A>) { s.flags.fired }

  // ---------------------------------------------------------------------
  // Operations that never dispatch (Callbacks.swift:155-191)
  // ---------------------------------------------------------------------

  /** `removeAll()`: empties live storage, leaves released storage and every flag alone. */
  function RemoveAll<A>(s: ListState<A>): ListState<A>
  {
    if s.callbacks.Some? then s.(callbacks := Some([])) else s
  }

  /** `disable()` */
  function Disable<A>(s: ListState<A>): ListState<A>
  {
    s.(flags := s.flags.(locked := true), last := None, callbacks := None, queue := [])
  }

  /** `lock()` */
  function Lock<A>(s: ListState<A>): ListState<A>
  {
    var locked := s.(flags := s.flags.(locked := true));
    if locked.last.None? then Disable(locked) else locked
  }

  /** The call `e` a subscriber makes back into the list while `firing` is set:
      `fire(with:)` only enqueues and `add` only appends, because both start a
      dispatch only when the list is not firing. */
  function Reenter<A>(s: ListState<A>, e: Effect<A>): ListState<A>
  {
    match e
    case NoEffect => s
    case FireAgain(x) => if s.flags.locked then s else s.(queue := s.queue + [x])
    case AddCallback(id) => if s.callbacks.Some? then s.(callbacks := Some(s.callbacks.value + [id])) else s
    case RemoveAllCallbacks => RemoveAll(s)
    case DisableList => Disable(s)
    case LockList => Lock(s)
  }

  // ---------------------------------------------------------------------
  // Dispatch, the private `fire()` (Callbacks.swift:95-132)
  // ---------------------------------------------------------------------

  /** The arguments that `FireAgain` effects of `script` enqueue, in order. */
  function FiredArguments<A>(script: seq<Effect<A>>): seq<A>
  {
    if script == [] then []
    else (if script[0].FireAgain? then [script[0].argument] else []) + FiredArguments(script[1..])
  }

  function Remaining<A>(s: ListState<A>): nat
  {
    if s.index <= Count(s.callbacks) then Count(s.callbacks) - s.index else 0
  }

  /** One pass of the inner loop (lines 108-117): run the subscriber at the
      cursor, apply its re-entrant call, stop early on a Bool false when
      `.stopOnFalse` is set, and advance the cursor. */
  function Invoke<A>(s: ListState<A>, argument: A): (r: ListState<A>)
    requires s.index < Count(s.callbacks)
    ensures r.options == s.options && r.results == s.results
    ensures r.flags.fired == s.flags.fired && r.flags.firing == s.flags.firing
    ensures s.flags.locked ==> r.flags.locked
    ensures r.started == s.started
    ensures r.log == s.log + [Invocation(s.callbacks.value[s.index], argument)]
    ensures s.script == [] ==>
              r.script == [] && r.callbacks == s.callbacks && r.queue == s.queue && r.flags == s.flags && r.index > s.index
    ensures s.script != [] ==> r.script == s.script[1..]
  {
    var id := s.callbacks.value[s.index];
    var effect := if s.script == [] then NoEffect else s.script[0];
    var called := s.(log := s.log + [Invocation(id, argument)],
                     script := if s.script == [] then [] else s.script[1..]);
    var after := Reenter(called, effect);
    var stopped :=
      if ResultOf(s, id) == ReturnsFalse && s.options.stopOnFalse
      then after.(index := Count(after.callbacks), last := None)
      else after;
    stopped.(index := stopped.index + 1)
  }

  /** The inner loop (lines 107-118): deliver `argument` from the cursor to
      the live end of the subscriber storage. */
  function Deliver<A>(s: ListState<A>, argument: A): (r: ListState<A>)
    ensures r.options == s.options && r.results == s.results
    ensures r.flags.fired == s.flags.fired && r.flags.firing == s.flags.firing
    ensures s.flags.locked ==> r.flags.locked
    ensures (s.callbacks.None? ==> s.flags.locked) ==> (r.callbacks.None? ==> r.flags.locked)
    ensures 2 * |r.script| + |r.queue| <= 2 * |s.script| + |s.queue|
    ensures r.started == s.started && s.log <= r.log
    ensures r.index >= Count(r.callbacks)
    ensures s.script == [] ==> r.script == [] && r.callbacks == s.callbacks && r.queue == s.queue
    decreases |s.script|, Remaining(s)
  {
    if s.index < Count(s.callbacks) then
      var t := Invoke(s, argument);
      assert 2 * |t.script| + |t.queue| <= 2 * |s.script| + |s.queue| by {
        ReenterMeasure(s, argument);
      }
      assert (s.callbacks.None? ==> s.flags.locked) ==> (t.callbacks.None? ==> t.flags.locked) by {
        ReenterKeepsStorage(s, argument);
      }
      Deliver(t, argument)
    else s
  }

  lemma ReenterMeasure<A>(s: ListState<A>, argument: A)
    requires s.index < Count(s.callbacks)
    ensures var t := Invoke(s, argument); 2 * |t.script| + |t.queue| <= 2 * |s.script| + |s.queue|
  {
  }

  lemma ReenterKeepsStorage<A>(s: ListState<A>, argument: A)
    requires s.index < Count(s.callbacks)
    ensures var t := Invoke(s, argument); t.callbacks.None? ==> t.flags.locked
  {
  }

  /** Start dispatching the oldest queued argument (lines 103-105). */
  function Pop<A>(s: ListState<A>): ListState<A>
    requires s.queue != []
  {
    s.(index := 0, last := Some(s.queue[0]), queue := s.queue[1..], started := s.started + [s.queue[0]])
  }

  /** The outer loop (lines 102-119): dispatch queued arguments, including
      the ones subscribers enqueue meanwhile, until the queue is empty. */
  function Drain<A>(s: ListState<A>): (r: ListState<A>)
    ensures r.queue == []
    ensures r.options == s.options && r.results == s.results
    ensures r.flags.fired == s.flags.fired && r.flags.firing == s.flags.firing
    ensures s.flags.locked ==> r.flags.locked
    ensures (s.callbacks.None? ==> s.flags.locked) ==> (r.callbacks.None? ==> r.flags.locked)
    ensures s.log <= r.log
    decreases 2 * |s.script| + |s.queue|
  {
    if s.queue == [] then s else Drain(Deliver(Pop(s), s.queue[0]))
  }

  /** Lines 97-101: `.once` locks before anything is delivered. */
  function Begin<A>(s: ListState<A>): ListState<A>
  {
    s.(flags := Flags(true, true, s.flags.locked || s.options.once))
  }

  /** The private `fire()`. */
  function Dispatch<A>(s: ListState<A>): (r: ListState<A>)
    ensures r.queue == [] && !r.flags.firing && r.flags.fired
    ensures r.options == s.options && r.results == s.results
    ensures s.options.once || s.flags.locked ==> r.flags.locked
    ensures !s.options.memory ==> r.last == None
    ensures r.flags.locked ==> r.callbacks == (if r.last.Some? then Some([]) else None)
    ensures (s.callbacks.None? ==> s.flags.locked) ==> (r.callbacks.None? ==> r.flags.locked && r.last.None?)
    ensures s.log <= r.log
  {
    var drained := Drain(Begin(s));
    var stopped := drained.(flags := drained.flags.(firing := false));
    var forgotten := if !s.options.memory then stopped.(last := None) else stopped;
    if forgotten.flags.locked
    then forgotten.(callbacks := if forgotten.last.Some? then Some([]) else None)
    else forgotten
  }

  // ---------------------------------------------------------------------
  // Public operations that may dispatch (Callbacks.swift:136-151, 199-207)
  // ---------------------------------------------------------------------

  /** `add(_:)` */
  function Add<A>(s: ListState<A>, id: CallbackId): (r: ListState<A>)
    ensures s.log <= r.log
    ensures s.callbacks.None? ==> r == s
  {
    if s.callbacks.None? then s
    else
      var appended := s.(callbacks := Some(s.callbacks.value + [id]));
      if !s.flags.firing && s.last.Some?
      then Dispatch(appended.(index := |appended.callbacks.value| - 1,
                              queue := appended.queue + [s.last.value]))
      else appended
  }

  /** `fire(with:)` */
  function FireWith<A>(s: ListState<A>, x: A): (r: ListState<A>)
    ensures s.log <= r.log
    ensures s.flags.locked ==> r == s
  {
    if s.flags.locked then s
    else
      var queued := s.(queue := s.queue + [x]);
      if !s.flags.firing then Dispatch(queued) else queued
  }
}
