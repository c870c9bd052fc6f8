/** `when` of Promise.swift (lines 203-222).  The new promise's operation
    captures a `remaining` counter and a `results` array and subscribes
    three closures to every subordinate; the done closures update both in
    place.  The closures are modelled as the methods of `WhenAggregate`, the
    deferred by the calls they make on it, and the interleaving of the
    subordinates' signals as a trace of events. */
module PromiseWhen {
  import opened CallbacksSpec
  import opened PromiseSpec
  import opened PromiseChain

  /** Subordinate `index` delivers `signal` to its closures. */
  datatype Event<T, E, P> = Event(index: nat, signal: Signal<T, E, P>)

  /** The captured variables and the calls made on the new promise's deferred. */
  datatype Aggregate<T, E, P> = Aggregate(remaining: int, results: seq<Option<T>>,
                                          calls: seq<DeferredCall<seq<Option<T>>, E, P>>)

  /** Lines 205-206. */
  function Start<T, E, P>(n: nat): Aggregate<T, E, P>
  {
    Aggregate(n, seq(n, _ => None), [])
  }

  /** The closure of subordinate `ev.index` that `ev.signal` reaches
      (lines 209-219): a done
      closure records its value and counts down, resolving the new promise
      when the count reaches zero. */
  function React<T, E, P>(w: Aggregate<T, E, P>, ev: Event<T, E, P>): Aggregate<T, E, P>
    requires ev.index < |w.results|
  {
    match ev.signal
    case DoneSignal(v) =>
      var results := w.results[ev.index := Some(v)];
      var remaining := w.remaining - 1;
      Aggregate(remaining, results, if remaining == 0 then w.calls + [ResolveCall(results)] else w.calls)
    case FailSignal(e) => w.(calls := w.calls + [RejectCall(e)])
    case ProgressSignal(p) => w.(calls := w.calls + [NotifyCall(p)])
  }

  predicate Indexed<T, E, P>(n: nat, trace: seq<Event<T, E, P>>)
  {
    forall k :: 0 <= k < |trace| ==> trace[k].index < n
  }

  /** The aggregate after the closures have received `trace`. */
  function Run<T, E, P>(n: nat, trace: seq<Event<T, E, P>>): (w: Aggregate<T, E, P>)
    requires Indexed(n, trace)
    ensures |w.results| == n
    decreases |trace|
  {
    if trace == [] then Start(n)
    else React(Run(n, trace[..|trace| - 1]), trace[|trace| - 1])
  }

  /** The new promise (line 204) driven by the calls the closures make. */
  function When<T, E, P>(n: nat, trace: seq<Event<T, E, P>>): PromiseModel<seq<Option<T>>, E, P>
    requires Indexed(n, trace)
  {
    Drive(Init(), Run(n, trace).calls)
  }

  // ---------------------------------------------------------------------
  // The reference: what `when` promises
  // ---------------------------------------------------------------------

  /** Each subordinate is a promise: it settles at most once, so of two of
      its signals at least one is progress.  Progress may come before the
      settlement and, replayed to a later progress subscriber, after it. */
  predicate SubordinateTrace<T, E, P>(n: nat, trace: seq<Event<T, E, P>>)
  {
    && Indexed(n, trace)
    && forall j, k :: 0 <= j < k < |trace| && trace[j].index == trace[k].index ==>
         trace[j].signal.ProgressSignal? || trace[k].signal.ProgressSignal?
  }

  /** The subordinates that have resolved. */
  function DoneIndices<T, E, P>(trace: seq<Event<T, E, P>>): set<nat>
  {
    set k | 0 <= k < |trace| && trace[k].signal.DoneSignal? :: trace[k].index
  }

  /** The value subordinate `i` resolved with, if it has. */
  function ValueOf<T, E, P>(trace: seq<Event<T, E, P>>, i: nat): Option<T>
  {
    if trace == [] then None
    else if trace[|trace| - 1].index == i && trace[|trace| - 1].signal.DoneSignal?
    then Some(trace[|trace| - 1].signal.value)
    else ValueOf(trace[..|trace| - 1], i)
  }

  /** The value of every subordinate, in subordinate order. */
  function Collected<T, E, P>(n: nat, trace: seq<Event<T, E, P>>): seq<Option<T>>
  {
    seq(n, i requires 0 <= i < n => ValueOf(trace, i))
  }

  predicate AllResolved<T, E, P>(n: nat, trace: seq<Event<T, E, P>>)
  {
    forall i :: 0 <= i < n ==> i in DoneIndices(trace)
  }

  /** The settlement `when` promises, decided at the first event that either
      is a failure or completes the set of resolved subordinates. */
  function WhenOutcome<T, E, P>(n: nat, trace: seq<Event<T, E, P>>): Option<PromiseSettled<seq<Option<T>>, E>>
    decreases |trace|
  {
    if trace == [] then None
    else
      var before := WhenOutcome(n, trace[..|trace| - 1]);
      if before.Some? then before
      else match trace[|trace| - 1].signal
        case FailSignal(e) => Some(Rejected(e))
        case DoneSignal(_) => if n > 0 && AllResolved(n, trace) then Some(Resolved(Collected(n, trace))) else None
        case ProgressSignal(_) => None
  }

  /** The progress the subordinates report before the outcome is decided. */
  function ProgressBeforeOutcome<T, E, P>(n: nat, trace: seq<Event<T, E, P>>): seq<P>
    decreases |trace|
  {
    if trace == [] then []
    else
      var prefix := trace[..|trace| - 1];
      var ev := trace[|trace| - 1];
      if WhenOutcome(n, prefix).Some? || !ev.signal.ProgressSignal? then ProgressBeforeOutcome(n, prefix)
      else ProgressBeforeOutcome(n, prefix) + [ev.signal.progress]
  }

  // ---------------------------------------------------------------------
  // The closures meet the reference
  // ---------------------------------------------------------------------

  /** The subordinate indices. */
  function Range(n: nat): (r: set<nat>)
    ensures forall i :: i in r <==> 0 <= i < n
    ensures |r| == n
  {
    if n == 0 then {} else Range(n - 1) + {n - 1}
  }

  /** A set of subordinate indices is complete exactly when it has `n` members. */
  lemma CompleteBySize(n: nat, done: set<nat>)
    requires done <= Range(n)
    ensures |done| == n <==> forall i :: 0 <= i < n ==> i in done
  {
    if |done| == n {
      var missing := Range(n) - done;
      assert |missing| == 0;
      assert missing == {};
      forall i | 0 <= i < n
        ensures i in done
      {
        assert i in Range(n);
      }
    }
    if forall i :: 0 <= i < n ==> i in done {
      assert done == Range(n);
    }
  }

  lemma DoneIndicesOfSnoc<T, E, P>(trace: seq<Event<T, E, P>>)
    requires trace != []
    ensures var last := trace[|trace| - 1];
      DoneIndices(trace) == DoneIndices(trace[..|trace| - 1]) + (if last.signal.DoneSignal? then {last.index} else {})
  {
    var prefix := trace[..|trace| - 1];
    forall k | 0 <= k < |prefix|
      ensures prefix[k] == trace[k]
    {
    }
  }

  lemma PrefixIsSubordinateTrace<T, E, P>(n: nat, trace: seq<Event<T, E, P>>)
    requires trace != [] && SubordinateTrace(n, trace)
    ensures SubordinateTrace(n, trace[..|trace| - 1])
  {
    var prefix := trace[..|trace| - 1];
    forall k | 0 <= k < |prefix| ensures prefix[k] == trace[k] { }
  }

  /** Each subordinate resolves at most once. */
  lemma ResolvesOnce<T, E, P>(n: nat, trace: seq<Event<T, E, P>>)
    requires trace != [] && SubordinateTrace(n, trace)
    ensures trace[|trace| - 1].signal.DoneSignal? ==> trace[|trace| - 1].index !in DoneIndices(trace[..|trace| - 1])
  {
    var prefix := trace[..|trace| - 1];
    forall k | 0 <= k < |prefix| ensures prefix[k] == trace[k] { }
  }

  /** The closures keep `remaining` at the number of unresolved subordinates
      and `results[i]` at the value subordinate i resolved with. */
  lemma {:induction false} RunCounts<T, E, P>(n: nat, trace: seq<Event<T, E, P>>)
    requires SubordinateTrace(n, trace)
    ensures DoneIndices(trace) <= Range(n)
    ensures Run(n, trace).remaining == n - |DoneIndices(trace)|
    ensures Run(n, trace).results == Collected(n, trace)
    decreases |trace|
  {
    if trace != [] {
      var prefix := trace[..|trace| - 1];
      PrefixIsSubordinateTrace(n, trace);
      RunCounts(n, prefix);
      DoneIndicesOfSnoc(trace);
      ResolvesOnce(n, trace);
      var r := Run(n, trace);
      forall i | 0 <= i < n
        ensures r.results[i] == Collected(n, trace)[i]
      {
      }
    }
  }

  /** The calls a done closure makes: a resolve with every value exactly
      when its subordinate is the last to resolve. */
  lemma DoneStepCalls<T, E, P>(n: nat, trace: seq<Event<T, E, P>>)
    requires trace != [] && SubordinateTrace(n, trace) && trace[|trace| - 1].signal.DoneSignal?
    ensures Indexed(n, trace[..|trace| - 1])
    ensures Run(n, trace).calls == Run(n, trace[..|trace| - 1]).calls +
              (if AllResolved(n, trace) then [ResolveCall(Collected(n, trace))] else [])
  {
    var prefix := trace[..|trace| - 1];
    PrefixIsSubordinateTrace(n, trace);
    RunCounts(n, prefix);
    RunCounts(n, trace);
    DoneIndicesOfSnoc(trace);
    ResolvesOnce(n, trace);
    CompleteBySize(n, DoneIndices(trace));
  }

  /** The calls a fail or progress closure makes: one reject or notify. */
  lemma OtherStepCalls<T, E, P>(n: nat, trace: seq<Event<T, E, P>>)
    requires trace != [] && Indexed(n, trace) && !trace[|trace| - 1].signal.DoneSignal?
    ensures Indexed(n, trace[..|trace| - 1])
    ensures var signal := trace[|trace| - 1].signal;
      Run(n, trace).calls == Run(n, trace[..|trace| - 1]).calls +
        [if signal.FailSignal? then RejectCall(signal.error) else NotifyCall(signal.progress)]
  {
  }

  /** The closures settle the new promise exactly as `WhenOutcome` says and
      forward the subordinates' progress until then. */
  lemma {:induction false} RunMeetsOutcome<T, E, P>(n: nat, trace: seq<Event<T, E, P>>)
    requires SubordinateTrace(n, trace)
    ensures FirstSettlement(Run(n, trace).calls) == WhenOutcome(n, trace)
    ensures ProgressBeforeSettlement(Run(n, trace).calls) == ProgressBeforeOutcome(n, trace)
    decreases |trace|
  {
    if trace != [] {
      var prefix := trace[..|trace| - 1];
      PrefixIsSubordinateTrace(n, trace);
      RunMeetsOutcome(n, prefix);
      var before := Run(n, prefix).calls;
      var added: seq<DeferredCall<seq<Option<T>>, E, P>>;
      if trace[|trace| - 1].signal.DoneSignal? {
        DoneStepCalls(n, trace);
        added := if AllResolved(n, trace) then [ResolveCall(Collected(n, trace))] else [];
      } else {
        OtherStepCalls(n, trace);
        var signal := trace[|trace| - 1].signal;
        added := [if signal.FailSignal? then RejectCall(signal.error) else NotifyCall(signal.progress)];
      }
      assert Run(n, trace).calls == before + added;
      FirstSettlementOfAppend(before, added);
    }
  }

  /** The new promise: well-formed, settled as `WhenOutcome` says, and its
      progress subscribers have seen the progress reported before that. */
  lemma WhenSettlesAsOutcome<T, E, P>(n: nat, trace: seq<Event<T, E, P>>)
    requires SubordinateTrace(n, trace)
    ensures Wellformed(When(n, trace))
    ensures When(n, trace).state == Settle(Pending, WhenOutcome(n, trace))
    ensures When(n, trace).progress.started == ProgressBeforeOutcome(n, trace)
  {
    InitIsWellformed<seq<Option<T>>, E, P>();
    DriveSettlesOnFirstCall(Init(), Run(n, trace).calls);
    RunMeetsOutcome(n, trace);
  }

  // ---------------------------------------------------------------------
  // What the outcome is
  // ---------------------------------------------------------------------

  predicate NoFailure<T, E, P>(trace: seq<Event<T, E, P>>)
  {
    forall k :: 0 <= k < |trace| ==> !trace[k].signal.FailSignal?
  }

  /** Once every subordinate has resolved, they signal nothing but
      progress. */
  lemma NothingAfterAllResolved<T, E, P>(n: nat, trace: seq<Event<T, E, P>>, k: nat)
    requires SubordinateTrace(n, trace) && k <= |trace| && AllResolved(n, trace[..k])
    ensures forall j :: k <= j < |trace| ==> trace[j].signal.ProgressSignal?
  {
    forall j | k <= j < |trace|
      ensures trace[j].signal.ProgressSignal?
    {
      assert trace[j].index in DoneIndices(trace[..k]);
      var m :| 0 <= m < k && trace[..k][m].signal.DoneSignal? && trace[..k][m].index == trace[j].index;
      assert trace[m] == trace[..k][m];
    }
  }

  /** Progress changes neither the resolved subordinates nor their values. */
  lemma ProgressKeepsCollected<T, E, P>(n: nat, trace: seq<Event<T, E, P>>)
    requires trace != [] && trace[|trace| - 1].signal.ProgressSignal?
    ensures AllResolved(n, trace) == AllResolved(n, trace[..|trace| - 1])
    ensures Collected(n, trace) == Collected(n, trace[..|trace| - 1])
  {
    DoneIndicesOfSnoc(trace);
  }

  /** A resolved subordinate has a value. */
  lemma {:induction false} ResolvedHasValue<T, E, P>(trace: seq<Event<T, E, P>>, i: nat)
    requires i in DoneIndices(trace)
    ensures ValueOf(trace, i).Some?
    decreases |trace|
  {
    DoneIndicesOfSnoc(trace);
    var prefix := trace[..|trace| - 1];
    if i in DoneIndices(prefix) {
      ResolvedHasValue(prefix, i);
    }
  }

  /** The outcome is decided only by a failure or by the last subordinate
      resolving. */
  lemma {:induction false} OutcomeHasCause<T, E, P>(n: nat, trace: seq<Event<T, E, P>>)
    requires WhenOutcome(n, trace).Some?
    ensures !NoFailure(trace) || AllResolved(n, trace)
    decreases |trace|
  {
    var prefix := trace[..|trace| - 1];
    DoneIndicesOfSnoc(trace);
    forall k | 0 <= k < |prefix| ensures prefix[k] == trace[k] { }
    if WhenOutcome(n, prefix).Some? {
      OutcomeHasCause(n, prefix);
    }
  }

  /** Once decided, the outcome does not change. */
  lemma {:induction false} OutcomeIsFinal<T, E, P>(n: nat, trace: seq<Event<T, E, P>>, k: nat)
    requires k <= |trace| && WhenOutcome(n, trace[..k]).Some?
    ensures WhenOutcome(n, trace) == WhenOutcome(n, trace[..k])
    decreases |trace| - k
  {
    if k < |trace| {
      var prefix := trace[..|trace| - 1];
      assert prefix[..k] == trace[..k];
      OutcomeIsFinal(n, prefix, k);
    } else {
      assert trace[..k] == trace;
    }
  }

  /** The new promise resolves only when every subordinate has resolved,
      with `results[i]` holding the value of subordinate i. */
  lemma {:induction false} ResolvedMeansAllResolved<T, E, P>(n: nat, trace: seq<Event<T, E, P>>)
    requires SubordinateTrace(n, trace) && WhenOutcome(n, trace).Some? && WhenOutcome(n, trace).value.Resolved?
    ensures n > 0 && AllResolved(n, trace)
    ensures WhenOutcome(n, trace).value.value == Collected(n, trace)
    ensures forall i :: 0 <= i < n ==> Collected(n, trace)[i].Some?
    decreases |trace|
  {
    var prefix := trace[..|trace| - 1];
    if WhenOutcome(n, prefix).Some? {
      PrefixIsSubordinateTrace(n, trace);
      ResolvedMeansAllResolved(n, prefix);
      assert trace[..|prefix|] == prefix;
      NothingAfterAllResolved(n, trace, |prefix|);
      ProgressKeepsCollected(n, trace);
    } else {
      forall i | 0 <= i < n
        ensures Collected(n, trace)[i].Some?
      {
        ResolvedHasValue(trace, i);
      }
    }
  }

  /** If every subordinate resolves and none fails, the new promise resolves
      with all their values. */
  lemma {:induction false} AllResolvedResolves<T, E, P>(n: nat, trace: seq<Event<T, E, P>>)
    requires SubordinateTrace(n, trace) && n > 0 && NoFailure(trace) && AllResolved(n, trace)
    ensures WhenOutcome(n, trace) == Some(Resolved(Collected(n, trace)))
    decreases |trace|
  {
    var prefix := trace[..|trace| - 1];
    assert 0 in DoneIndices(trace);
    DoneIndicesOfSnoc(trace);
    forall k | 0 <= k < |prefix| ensures prefix[k] == trace[k] { }
    if AllResolved(n, prefix) {
      assert trace[..|prefix|] == prefix;
      NothingAfterAllResolved(n, trace, |prefix|);
      ProgressKeepsCollected(n, trace);
      PrefixIsSubordinateTrace(n, trace);
      AllResolvedResolves(n, prefix);
    } else {
      if WhenOutcome(n, prefix).Some? {
        OutcomeHasCause(n, prefix);
      }
    }
  }

  /** A failure of a subordinate before all have resolved rejects the new
      promise with the first such error. */
  lemma FirstFailureRejects<T, E, P>(n: nat, trace: seq<Event<T, E, P>>, k: nat)
    requires k < |trace| && trace[k].signal.FailSignal?
    requires NoFailure(trace[..k]) && !AllResolved(n, trace[..k])
    ensures WhenOutcome(n, trace) == Some(Rejected(trace[k].signal.error))
  {
    if WhenOutcome(n, trace[..k]).Some? {
      OutcomeHasCause(n, trace[..k]);
    }
    assert trace[..k + 1][..k] == trace[..k];
    OutcomeIsFinal(n, trace, k + 1);
  }

  /** An event names one of the `n` subordinates, so there is none when
      there are no subordinates. */
  lemma EventsNeedSubordinates<T, E, P>(n: nat, trace: seq<Event<T, E, P>>)
    requires Indexed(n, trace)
    ensures trace == [] || n > 0
  {
    if trace != [] {
      assert trace[0].index < n;
    }
  }

  /** With no subordinates nothing is ever subscribed: the counter starts at
      zero and the new promise stays pending. */
  lemma NoSubordinatesStaysPending<T, E, P>(trace: seq<Event<T, E, P>>)
    requires Indexed(0, trace)
    ensures trace == [] && Run(0, trace).remaining == 0
    ensures When(0, trace) == Init()
  {
    EventsNeedSubordinates(0, trace);
  }

  // ---------------------------------------------------------------------
  // The captured variables, updated in place
  // ---------------------------------------------------------------------

  /** `remaining` and `results` as the closures share them, and the calls
      they have made on the new promise's deferred. */
  class WhenAggregate<T, E, P> {
    var remaining: int
    const results: array<Option<T>>
    var calls: seq<DeferredCall<seq<Option<T>>, E, P>>

    ghost function Model(): Aggregate<T, E, P>
      reads this, results
    {
      Aggregate(remaining, results[..], calls)
    }

    /** Lines 205-206. */
    constructor (n: nat)
      ensures Model() == Start(n) && fresh(results)
    {
      remaining := n;
      results := new Option<T>[n](_ => None);
      calls := [];
    }

    /** The done closure of subordinate `index` (lines 209-214). */
    method OnDone(index: nat, v: T)
      requires index < results.Length
      modifies this, results
      ensures Model() == React(old(Model()), Event(index, DoneSignal(v)))
    {
      results[index] := Some(v);
      remaining := remaining - 1;
      if remaining == 0 {
        calls := calls + [ResolveCall(results[..])];
      }
    }

    /** The fail closure (lines 215-216). */
    method OnFail(e: E)
      modifies this
      ensures Model() == old(Model()).(calls := old(calls) + [RejectCall(e)])
    {
      calls := calls + [RejectCall(e)];
    }

    /** The progress closure (lines 217-218). */
    method OnProgress(p: P)
      modifies this
      ensures Model() == old(Model()).(calls := old(calls) + [NotifyCall(p)])
    {
      calls := calls + [NotifyCall(p)];
    }

    /** Subordinate `ev.index` delivers `ev.signal` to the closure it reaches. */
    method Receive(ev: Event<T, E, P>)
      requires ev.index < results.Length
      modifies this, results
      ensures Model() == React(old(Model()), ev)
    {
      match ev.signal
      case DoneSignal(v) => OnDone(ev.index, v);
      case FailSignal(e) => OnFail(e);
      case ProgressSignal(p) => OnProgress(p);
    }
  }
}
