/** The two `then` overloads of Promise.swift (lines 111-153).  Each returns a
    new promise whose operation subscribes three closures to the upstream
    promise; the closures hold no state of their own and only call the new
    promise's deferred.  The model is therefore the calls the closures make
    on the downstream deferred for the signals they receive, and the
    downstream promise is a fresh promise driven by those calls. */
module PromiseChain {
  import opened CallbacksSpec
  import opened PromiseSpec

  // ---------------------------------------------------------------------
  // What the closures of a subscriber receive
  // ---------------------------------------------------------------------

  /** What a closure subscribed to a promise receives. */
  datatype Signal<R, E, P> = DoneSignal(value: R) | FailSignal(error: E) | ProgressSignal(progress: P)

  /** The signals a subscriber on all three lists of a pending promise
      receives while the promise's deferred makes `calls`. */
  function Signals<R, E, P>(calls: seq<DeferredCall<R, E, P>>): seq<Signal<R, E, P>>
  {
    if calls == [] then []
    else match calls[0]
      case NotifyCall(p) => [ProgressSignal(p)] + Signals(calls[1..])
      case ResolveCall(v) => [DoneSignal(v)]
      case RejectCall(e) => [FailSignal(e)]
  }

  function ProgressSignals<R, E, P>(ps: seq<P>): seq<Signal<R, E, P>>
  {
    if ps == [] then [] else [ProgressSignal(ps[0])] + ProgressSignals(ps[1..])
  }

  function SettlementSignal<R, E, P>(first: Option<PromiseSettled<R, E>>): seq<Signal<R, E, P>>
  {
    match first
    case None => []
    case Some(Resolved(v)) => [DoneSignal(v)]
    case Some(Rejected(e)) => [FailSignal(e)]
  }

  /** `Signals` is what SubscriberSeesFirstSettlement proves a subscriber
      receives as long as no later progress subscriber makes the progress
      list replay: every progress value notified before settlement, in
      order, then the settlement, if any, and nothing after it. */
  lemma {:induction false} SignalsAreWhatSubscribersSee<R, E, P>(calls: seq<DeferredCall<R, E, P>>)
    ensures Signals(calls) ==
            ProgressSignals(ProgressBeforeSettlement(calls)) + SettlementSignal(FirstSettlement(calls))
    decreases |calls|
  {
    if calls != [] && calls[0].NotifyCall? {
      SignalsAreWhatSubscribersSee(calls[1..]);
      var ps := ProgressBeforeSettlement(calls[1..]);
      assert ProgressBeforeSettlement(calls) == [calls[0].progress] + ps;
      assert ([calls[0].progress] + ps)[1..] == ps;
    }
  }

  /** A deferred call never depends on what follows it: the first
      settlement and the progress before it, of a concatenation. */
  lemma {:induction false} FirstSettlementOfAppend<R, E, P>(a: seq<DeferredCall<R, E, P>>, b: seq<DeferredCall<R, E, P>>)
    ensures FirstSettlement(a + b) == if FirstSettlement(a).Some? then FirstSettlement(a) else FirstSettlement(b)
    ensures ProgressBeforeSettlement(a + b) ==
            ProgressBeforeSettlement(a) + (if FirstSettlement(a).Some? then [] else ProgressBeforeSettlement(b))
    decreases |a|
  {
    if a == [] {
      assert a + b == b;
    } else {
      assert (a + b)[0] == a[0] && (a + b)[1..] == a[1..] + b;
      FirstSettlementOfAppend(a[1..], b);
    }
  }

  /** The first settlement among the signals a closure receives. */
  function SignalSettlement<R, E, P>(signals: seq<Signal<R, E, P>>): Option<PromiseSettled<R, E>>
  {
    if signals == [] then None
    else match signals[0]
      case DoneSignal(v) => Some(Resolved(v))
      case FailSignal(e) => Some(Rejected(e))
      case ProgressSignal(_) => SignalSettlement(signals[1..])
  }

  /** The progress received before that settlement. */
  function SignalProgress<R, E, P>(signals: seq<Signal<R, E, P>>): seq<P>
  {
    if signals == [] || !signals[0].ProgressSignal? then []
    else [signals[0].progress] + SignalProgress(signals[1..])
  }

  /** The progress received after that settlement, such as the last value a
      progress list replays when a later progress subscriber is added. */
  function LateProgress<R, E, P>(signals: seq<Signal<R, E, P>>): seq<P>
  {
    if signals == [] then []
    else if signals[0].ProgressSignal? then LateProgress(signals[1..])
    else SignalProgress(signals[1..])
  }

  /** A promise settles at most once: of two signals, one is progress. */
  predicate SettlesOnce<R, E, P>(signals: seq<Signal<R, E, P>>)
  {
    forall j, k :: 0 <= j < k < |signals| ==> signals[j].ProgressSignal? || signals[k].ProgressSignal?
  }

  /** The signals of a subscriber that was on the lists from the start carry
      the promise's first settlement and the progress before it, settle once
      and have nothing late. */
  lemma {:induction false} SignalsSettleAsCalls<R, E, P>(calls: seq<DeferredCall<R, E, P>>)
    ensures SignalSettlement(Signals(calls)) == FirstSettlement(calls)
    ensures SignalProgress(Signals(calls)) == ProgressBeforeSettlement(calls)
    ensures LateProgress(Signals(calls)) == []
    ensures SettlesOnce(Signals(calls))
    decreases |calls|
  {
    if calls != [] && calls[0].NotifyCall? {
      SignalsSettleAsCalls(calls[1..]);
      var rest := Signals(calls[1..]);
      assert Signals(calls) == [ProgressSignal(calls[0].progress)] + rest;
      assert ([ProgressSignal(calls[0].progress)] + rest)[1..] == rest;
      forall j, k | 0 <= j < k < |Signals(calls)|
        ensures Signals(calls)[j].ProgressSignal? || Signals(calls)[k].ProgressSignal?
      {
        if 0 < j {
          assert Signals(calls)[j] == rest[j - 1] && Signals(calls)[k] == rest[k - 1];
        }
      }
    }
  }

  /** The first settlement and the progress before it, of calls headed by a
      notification. */
  lemma NotifyHead<T, E, P>(p: P, calls: seq<DeferredCall<T, E, P>>)
    ensures FirstSettlement([NotifyCall(p)] + calls) == FirstSettlement(calls)
    ensures ProgressBeforeSettlement([NotifyCall(p)] + calls) == [p] + ProgressBeforeSettlement(calls)
  {
    assert ([NotifyCall(p)] + calls)[1..] == calls;
  }

  lemma MapProgressCons<P>(p: P, ps: seq<P>, f: P -> P)
    ensures MapProgress([p] + ps, f) == [f(p)] + MapProgress(ps, f)
  {
    assert ([p] + ps)[1..] == ps;
  }

  // ---------------------------------------------------------------------
  // then with a value-returning filter (lines 111-130)
  // ---------------------------------------------------------------------

  /** What a throwing filter does: return a value or throw an error. */
  datatype Outcome<T, E> = Returned(value: T) | Threw(error: E)

  /** The call one closure makes on the downstream deferred (lines 116-128). */
  function ThenReaction<R, E, P, T>(sig: Signal<R, E, P>, doneFilter: R -> Outcome<T, E>,
                                    failFilter: E -> E, progressFilter: P -> P): DeferredCall<T, E, P>
  {
    match sig
    case DoneSignal(v) =>
      (match doneFilter(v)
       case Returned(t) => ResolveCall(t)
       case Threw(e) => RejectCall(e))
    case FailSignal(e) => RejectCall(failFilter(e))
    case ProgressSignal(p) => NotifyCall(progressFilter(p))
  }

  function ThenCalls<R, E, P, T>(signals: seq<Signal<R, E, P>>, doneFilter: R -> Outcome<T, E>,
                                 failFilter: E -> E, progressFilter: P -> P): seq<DeferredCall<T, E, P>>
  {
    if signals == [] then []
    else [ThenReaction(signals[0], doneFilter, failFilter, progressFilter)]
         + ThenCalls(signals[1..], doneFilter, failFilter, progressFilter)
  }

  /** The downstream promise of `then` whose closures receive `signals`
      from the upstream. */
  function Then<R, E, P, T>(signals: seq<Signal<R, E, P>>, doneFilter: R -> Outcome<T, E>,
                            failFilter: E -> E, progressFilter: P -> P): PromiseModel<T, E, P>
  {
    Drive(Init(), ThenCalls(signals, doneFilter, failFilter, progressFilter))
  }

  function MapProgress<P>(ps: seq<P>, f: P -> P): seq<P>
  {
    if ps == [] then [] else [f(ps[0])] + MapProgress(ps[1..], f)
  }

  /** How the upstream's settlement settles the downstream promise. */
  function ThenSettlement<R, E, T>(first: Option<PromiseSettled<R, E>>, doneFilter: R -> Outcome<T, E>,
                                   failFilter: E -> E): Option<PromiseSettled<T, E>>
  {
    match first
    case None => None
    case Some(Resolved(v)) =>
      (match doneFilter(v)
       case Returned(t) => Some(Resolved(t))
       case Threw(e) => Some(Rejected(e)))
    case Some(Rejected(e)) => Some(Rejected(failFilter(e)))
  }

  lemma {:induction false} ThenCallsOfSignals<R, E, P, T>(signals: seq<Signal<R, E, P>>,
                                                          doneFilter: R -> Outcome<T, E>,
                                                          failFilter: E -> E, progressFilter: P -> P)
    ensures var down := ThenCalls(signals, doneFilter, failFilter, progressFilter);
      && FirstSettlement(down) == ThenSettlement(SignalSettlement(signals), doneFilter, failFilter)
      && ProgressBeforeSettlement(down) == MapProgress(SignalProgress(signals), progressFilter)
    decreases |signals|
  {
    if signals != [] && signals[0].ProgressSignal? {
      var p := signals[0].progress;
      ThenCallsOfSignals(signals[1..], doneFilter, failFilter, progressFilter);
      NotifyHead(progressFilter(p), ThenCalls(signals[1..], doneFilter, failFilter, progressFilter));
      MapProgressCons(p, SignalProgress(signals[1..]), progressFilter);
    }
  }

  /** The downstream promise of `then`, whatever signals its closures
      receive, replays after the upstream settled included:
      it resolves with `doneFilter(value)` or rejects with what it throws,
      rejects with `failFilter(error)` when the upstream rejects, stays
      pending while the upstream does, and is notified of `progressFilter(p)`
      for every progress value received before the settlement. */
  lemma ThenForwards<R, E, P, T>(signals: seq<Signal<R, E, P>>, doneFilter: R -> Outcome<T, E>,
                                 failFilter: E -> E, progressFilter: P -> P)
    ensures Wellformed(Then(signals, doneFilter, failFilter, progressFilter))
    ensures Then(signals, doneFilter, failFilter, progressFilter).state ==
            Settle(Pending, ThenSettlement(SignalSettlement(signals), doneFilter, failFilter))
    ensures Then(signals, doneFilter, failFilter, progressFilter).progress.started ==
            MapProgress(SignalProgress(signals), progressFilter)
  {
    InitIsWellformed<T, E, P>();
    ThenCallsOfSignals(signals, doneFilter, failFilter, progressFilter);
    DriveSettlesOnFirstCall(Init<T, E, P>(), ThenCalls(signals, doneFilter, failFilter, progressFilter));
  }

  // ---------------------------------------------------------------------
  // then with a promise-returning filter (lines 132-153)
  // ---------------------------------------------------------------------

  /** The closures subscribed to the inner promise (lines 140-142) forward
      each signal unchanged. */
  function Relay<T, E, P>(signals: seq<Signal<T, E, P>>): seq<DeferredCall<T, E, P>>
  {
    if signals == [] then []
    else
      [match signals[0]
       case DoneSignal(t) => ResolveCall(t)
       case FailSignal(e) => RejectCall(e)
       case ProgressSignal(p) => NotifyCall(p)]
      + Relay(signals[1..])
  }

  /** The calls made on the downstream deferred.  `doneFilter` returns the
      inner promise as the signals its relaying closures receive, or
      throws. */
  function FlatCalls<R, E, P, T>(signals: seq<Signal<R, E, P>>,
                                 doneFilter: R -> Outcome<seq<Signal<T, E, P>>, E>,
                                 failFilter: E -> E, progressFilter: P -> P): seq<DeferredCall<T, E, P>>
  {
    if signals == [] then []
    else
      (match signals[0]
       case DoneSignal(v) =>
         (match doneFilter(v)
          case Returned(inner) => Relay(inner)
          case Threw(e) => [RejectCall(e)])
       case FailSignal(e) => [RejectCall(failFilter(e))]
       case ProgressSignal(p) => [NotifyCall(progressFilter(p))])
      + FlatCalls(signals[1..], doneFilter, failFilter, progressFilter)
  }

  function ThenFlat<R, E, P, T>(signals: seq<Signal<R, E, P>>,
                                doneFilter: R -> Outcome<seq<Signal<T, E, P>>, E>,
                                failFilter: E -> E, progressFilter: P -> P): PromiseModel<T, E, P>
  {
    Drive(Init(), FlatCalls(signals, doneFilter, failFilter, progressFilter))
  }

  /** How the upstream's settlement settles the downstream promise: a
      returned inner promise is adopted. */
  function FlatSettlement<R, E, P, T>(first: Option<PromiseSettled<R, E>>,
                                      doneFilter: R -> Outcome<seq<Signal<T, E, P>>, E>,
                                      failFilter: E -> E): Option<PromiseSettled<T, E>>
  {
    match first
    case None => None
    case Some(Resolved(v)) =>
      (match doneFilter(v)
       case Returned(inner) => SignalSettlement(inner)
       case Threw(e) => Some(Rejected(e)))
    case Some(Rejected(e)) => Some(Rejected(failFilter(e)))
  }

  /** The progress of the adopted inner promise before it settles. */
  function AdoptedProgress<R, E, P, T>(first: Option<PromiseSettled<R, E>>,
                                       doneFilter: R -> Outcome<seq<Signal<T, E, P>>, E>): seq<P>
  {
    if first.Some? && first.value.Resolved? && doneFilter(first.value.value).Returned?
    then SignalProgress(doneFilter(first.value.value).value)
    else []
  }

  /** Relaying signals settles with the first settlement among them and
      notifies the progress before it. */
  lemma {:induction false} RelayOfSignals<T, E, P>(inner: seq<Signal<T, E, P>>)
    ensures FirstSettlement(Relay(inner)) == SignalSettlement(inner)
    ensures ProgressBeforeSettlement(Relay(inner)) == SignalProgress(inner)
    decreases |inner|
  {
    if inner != [] && inner[0].ProgressSignal? {
      RelayOfSignals(inner[1..]);
      NotifyHead(inner[0].progress, Relay(inner[1..]));
    }
  }

  lemma FlatCallsCons<R, E, P, T>(signals: seq<Signal<R, E, P>>,
                                  doneFilter: R -> Outcome<seq<Signal<T, E, P>>, E>,
                                  failFilter: E -> E, progressFilter: P -> P)
    requires signals != []
    ensures FlatCalls(signals, doneFilter, failFilter, progressFilter) ==
            FlatCalls([signals[0]], doneFilter, failFilter, progressFilter)
            + FlatCalls(signals[1..], doneFilter, failFilter, progressFilter)
  {
    assert [signals[0]][1..] == [];
  }

  /** Upstream progress alone is forwarded, filtered, and settles nothing. */
  lemma {:induction false} FlatCallsOfProgress<R, E, P, T>(signals: seq<Signal<R, E, P>>,
                                                           doneFilter: R -> Outcome<seq<Signal<T, E, P>>, E>,
                                                           failFilter: E -> E, progressFilter: P -> P)
    requires forall k :: 0 <= k < |signals| ==> signals[k].ProgressSignal?
    ensures FirstSettlement(FlatCalls(signals, doneFilter, failFilter, progressFilter)) == None
    ensures ProgressBeforeSettlement(FlatCalls(signals, doneFilter, failFilter, progressFilter)) ==
            MapProgress(SignalProgress(signals), progressFilter)
    decreases |signals|
  {
    if signals != [] {
      var p := signals[0].progress;
      assert signals[0].ProgressSignal?;
      FlatCallsCons(signals, doneFilter, failFilter, progressFilter);
      FlatCallsOfProgress(signals[1..], doneFilter, failFilter, progressFilter);
      NotifyHead(progressFilter(p), FlatCalls(signals[1..], doneFilter, failFilter, progressFilter));
      MapProgressCons(p, SignalProgress(signals[1..]), progressFilter);
    }
  }

  lemma {:induction false} FlatCallsOfSignals<R, E, P, T>(signals: seq<Signal<R, E, P>>,
                                                          doneFilter: R -> Outcome<seq<Signal<T, E, P>>, E>,
                                                          failFilter: E -> E, progressFilter: P -> P)
    requires SettlesOnce(signals)
    ensures FirstSettlement(FlatCalls(signals, doneFilter, failFilter, progressFilter)) ==
            FlatSettlement(SignalSettlement(signals), doneFilter, failFilter)
    ensures ProgressBeforeSettlement(FlatCalls(signals, doneFilter, failFilter, progressFilter)) ==
            MapProgress(SignalProgress(signals), progressFilter)
            + AdoptedProgress(SignalSettlement(signals), doneFilter)
            + (if FlatSettlement(SignalSettlement(signals), doneFilter, failFilter).None?
               then MapProgress(LateProgress(signals), progressFilter) else [])
    decreases |signals|
  {
    if signals != [] && signals[0].ProgressSignal? {
      var p := signals[0].progress;
      var rest := signals[1..];
      FlatCallsCons(signals, doneFilter, failFilter, progressFilter);
      forall j, k | 0 <= j < k < |rest| ensures rest[j].ProgressSignal? || rest[k].ProgressSignal? {
        assert rest[j] == signals[j + 1] && rest[k] == signals[k + 1];
      }
      FlatCallsOfSignals(rest, doneFilter, failFilter, progressFilter);
      NotifyHead(progressFilter(p), FlatCalls(rest, doneFilter, failFilter, progressFilter));
      MapProgressCons(p, SignalProgress(rest), progressFilter);
    } else if signals != [] {
      FlatCallsOfSettlement(signals, doneFilter, failFilter, progressFilter);
    }
  }

  /** The calls made from the upstream's settlement on: the reaction to the
      settlement, then the filtered late progress. */
  lemma FlatCallsOfSettlement<R, E, P, T>(signals: seq<Signal<R, E, P>>,
                                          doneFilter: R -> Outcome<seq<Signal<T, E, P>>, E>,
                                          failFilter: E -> E, progressFilter: P -> P)
    requires signals != [] && SettlesOnce(signals) && !signals[0].ProgressSignal?
    ensures FirstSettlement(FlatCalls(signals, doneFilter, failFilter, progressFilter)) ==
            FlatSettlement(SignalSettlement(signals), doneFilter, failFilter)
    ensures ProgressBeforeSettlement(FlatCalls(signals, doneFilter, failFilter, progressFilter)) ==
            AdoptedProgress(SignalSettlement(signals), doneFilter)
            + (if FlatSettlement(SignalSettlement(signals), doneFilter, failFilter).None?
               then MapProgress(LateProgress(signals), progressFilter) else [])
  {
    var rest := signals[1..];
    FlatCallsCons(signals, doneFilter, failFilter, progressFilter);
    var reaction := FlatCalls([signals[0]], doneFilter, failFilter, progressFilter);
    var tail := FlatCalls(rest, doneFilter, failFilter, progressFilter);
    AfterSettlementOnlyProgress(signals);
    FlatCallsOfProgress(rest, doneFilter, failFilter, progressFilter);
    if signals[0].DoneSignal? && doneFilter(signals[0].value).Returned? {
      var inner := doneFilter(signals[0].value).value;
      assert reaction == Relay(inner);
      RelayOfSignals(inner);
    } else {
      assert FirstSettlement(reaction).Some? && ProgressBeforeSettlement(reaction) == [];
    }
    FirstSettlementOfAppend(reaction, tail);
  }

  /** After a settlement a promise delivers nothing but progress. */
  lemma AfterSettlementOnlyProgress<R, E, P>(signals: seq<Signal<R, E, P>>)
    requires signals != [] && SettlesOnce(signals) && !signals[0].ProgressSignal?
    ensures forall k :: 0 <= k < |signals[1..]| ==> signals[1..][k].ProgressSignal?
    ensures LateProgress(signals) == SignalProgress(signals[1..])
  {
    forall k | 0 <= k < |signals[1..]| ensures signals[1..][k].ProgressSignal? {
      assert signals[1..][k] == signals[k + 1];
    }
  }

  /** The downstream promise of the flattening `then` adopts the inner
      promise's settlement when `doneFilter` returns one, rejects with what it
      throws, rejects with `failFilter(error)` when the upstream rejects, and
      stays pending while the upstream, or the adopted promise, does.  It is
      notified of the upstream's filtered progress, then of the adopted
      promise's progress, then, while still pending, of the upstream's
      progress replayed after the upstream settled. */
  lemma ThenFlatAdopts<R, E, P, T>(signals: seq<Signal<R, E, P>>,
                                   doneFilter: R -> Outcome<seq<Signal<T, E, P>>, E>,
                                   failFilter: E -> E, progressFilter: P -> P)
    requires SettlesOnce(signals)
    ensures Wellformed(ThenFlat(signals, doneFilter, failFilter, progressFilter))
    ensures ThenFlat(signals, doneFilter, failFilter, progressFilter).state ==
            Settle(Pending, FlatSettlement(SignalSettlement(signals), doneFilter, failFilter))
    ensures ThenFlat(signals, doneFilter, failFilter, progressFilter).progress.started ==
            MapProgress(SignalProgress(signals), progressFilter)
            + AdoptedProgress(SignalSettlement(signals), doneFilter)
            + (if FlatSettlement(SignalSettlement(signals), doneFilter, failFilter).None?
               then MapProgress(LateProgress(signals), progressFilter) else [])
  {
    InitIsWellformed<T, E, P>();
    FlatCallsOfSignals(signals, doneFilter, failFilter, progressFilter);
    DriveSettlesOnFirstCall(Init<T, E, P>(), FlatCalls(signals, doneFilter, failFilter, progressFilter));
  }
}
