/** The `Promise` class of Promise.swift: a state field and three callback
    lists that its methods update in place.  Each method is proved to
    compute the function of PromiseSpec that models it. */
module PromiseObject {
  import opened CallbacksSpec
  import opened CallbackList
  import opened PromiseSpec

  class Promise<R, E, P> {
    var state: PromiseStates<R, E>
    /** `tuples` (lines 60-64). */
    const doneFilters: Callbacks<R>
    const failFilters: Callbacks<E>
    const progressFilters: Callbacks<P>

    ghost function Model(): PromiseModel<R, E, P>
      reads this, doneFilters, failFilters, progressFilters
    {
      PromiseModel(state, doneFilters.State(), failFilters.State(), progressFilters.State())
    }

    /** The three lists are distinct objects and the model is well-formed. */
    ghost predicate Valid()
      reads this, doneFilters, failFilters, progressFilters
    {
      && doneFilters as object != failFilters as object
      && doneFilters as object != progressFilters as object
      && failFilters as object != progressFilters as object
      && Wellformed(Model())
    }

    /** `init(_:)` up to the point where the operation is called
        (lines 58-64, 72-79). */
    constructor ()
      ensures Valid() && Model() == Init()
      ensures fresh(doneFilters) && fresh(failFilters) && fresh(progressFilters)
    {
      state := Pending;
      doneFilters := new Callbacks(OnceMemory, map[], []);
      failFilters := new Callbacks(OnceMemory, map[], []);
      progressFilters := new Callbacks(MemoryOnly, map[], []);
      new;
      InitIsWellformed<R, E, P>();
    }

    /** `init(result:)` (lines 229-231) */
    constructor WithResult(v: R)
      ensures Valid() && Model() == PromiseSpec.WithResult(v)
      ensures fresh(doneFilters) && fresh(failFilters) && fresh(progressFilters)
    {
      state := Pending;
      doneFilters := new Callbacks(OnceMemory, map[], []);
      failFilters := new Callbacks(OnceMemory, map[], []);
      progressFilters := new Callbacks(MemoryOnly, map[], []);
      new;
      InitIsWellformed<R, E, P>();
      assert Model() == Init();
      Resolve(v);
      ghost var calls: seq<DeferredCall<R, E, P>> := [ResolveCall(v)];
      assert calls[1..] == [];
      assert PromiseSpec.WithResult<R, E, P>(v) == Drive(PromiseSpec.Resolve(Init(), v), []);
    }

    /** The deferred's `resolve` (line 82).  The internal done subscribers
        run first: they record the state, disable the fail list and lock the
        progress list. */
    method Resolve(v: R)
      requires Valid()
      modifies this, doneFilters, failFilters, progressFilters
      ensures Valid() && Model() == PromiseSpec.Resolve(old(Model()), v)
    {
      if !doneFilters.flags.locked {
        state := Settled(Resolved(v));
        failFilters.Disable();
        progressFilters.Lock();
        doneFilters.FireWith(v);
      }
      WellformedIsInvariant(old(Model()), ResolveOp(v));
    }

    /** `init(error:)` (lines 233-235) */
    constructor WithError(e: E)
      ensures Valid() && Model() == PromiseSpec.WithError(e)
      ensures fresh(doneFilters) && fresh(failFilters) && fresh(progressFilters)
    {
      state := Pending;
      doneFilters := new Callbacks(OnceMemory, map[], []);
      failFilters := new Callbacks(OnceMemory, map[], []);
      progressFilters := new Callbacks(MemoryOnly, map[], []);
      new;
      InitIsWellformed<R, E, P>();
      assert Model() == Init();
      Reject(e);
      ghost var calls: seq<DeferredCall<R, E, P>> := [RejectCall(e)];
      assert calls[1..] == [];
      assert PromiseSpec.WithError<R, E, P>(e) == Drive(PromiseSpec.Reject(Init(), e), []);
    }

    /** The deferred's `reject` (line 83), the mirror image of `Resolve`. */
    method Reject(e: E)
      requires Valid()
      modifies this, doneFilters, failFilters, progressFilters
      ensures Valid() && Model() == PromiseSpec.Reject(old(Model()), e)
    {
      if !failFilters.flags.locked {
        state := Settled(Rejected(e));
        doneFilters.Disable();
        progressFilters.Lock();
        failFilters.FireWith(e);
      }
      WellformedIsInvariant(old(Model()), RejectOp(e));
    }

    /** The deferred's `notify` (line 84) */
    method Notify(p: P)
      requires Valid()
      modifies progressFilters
      ensures Valid() && Model() == PromiseSpec.Notify(old(Model()), p)
    {
      progressFilters.FireWith(p);
      WellformedIsInvariant(old(Model()), NotifyOp(p));
    }

    /** `done(_:)` (lines 88-92) */
    method Done(id: CallbackId)
      requires Valid()
      modifies doneFilters
      ensures Valid() && Model() == PromiseSpec.Done(old(Model()), id)
    {
      doneFilters.Add(id);
      WellformedIsInvariant(old(Model()), DoneOp(id));
    }

    /** `fail(_:)` (lines 94-98) */
    method Fail(id: CallbackId)
      requires Valid()
      modifies failFilters
      ensures Valid() && Model() == PromiseSpec.Fail(old(Model()), id)
    {
      failFilters.Add(id);
      WellformedIsInvariant(old(Model()), FailOp(id));
    }

    /** `progress(_:)` (lines 100-104) */
    method Progress(id: CallbackId)
      requires Valid()
      modifies progressFilters
      ensures Valid() && Model() == PromiseSpec.Progress(old(Model()), id)
    {
      progressFilters.Add(id);
      WellformedIsInvariant(old(Model()), ProgressOp(id));
    }

    /** `always(_:)` (lines 106-109) */
    method Always(id: CallbackId)
      requires Valid()
      modifies doneFilters, failFilters
      ensures Valid() && Model() == PromiseSpec.Always(old(Model()), id)
    {
      Done(id);
      Fail(id);
    }

    /** `isPending()` (lines 160-167) */
    predicate IsPending()
      reads this
    {
      PromiseSpec.IsPending(state)
    }

    /** `isSettled()` (lines 169-171) */
    predicate IsSettled()
      reads this
    {
      !IsPending()
    }

    /** `isResolved()` (lines 173-185) */
    predicate IsResolved()
      reads this
    {
      PromiseSpec.IsResolved(state)
    }

    /** `isRejected()` (lines 187-189) */
    predicate IsRejected()
      reads this
    {
      IsSettled() && !IsResolved()
    }
  }
}
