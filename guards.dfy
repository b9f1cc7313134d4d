/** The scoped guards. Construction is the lock, destruction the unlock.
    A guard object is released once (`released`), and the bracketing
    methods show the whole scope: one lock, then the calls of the guarded
    body, then one unlock, on the same target. */
module Guards {
  import opened OsCalls
  import opened ErrorCodes
  import opened Wrappers
  import opened MutexObject

  /** `mutex_wrapper_guard`: ignores the codes of both calls. */
  class MutexWrapperGuard<M(0), MA> {
    /** `m_mutex`: the pointer taken at construction (null when built from
        an invalid wrapper). */
    const target: Pointer
    ghost var released: bool

    /** `mutex_wrapper_guard(mutex_wrapper& m)`: locks `&m`. */
    constructor OfWrapper(w: Wrapper<M, MA>, os: Os<M, MA>, lockCode: int)
      modifies os
      ensures target == w.base.Address() && !released
      ensures os.log == old(os.log) + [Lock(target)]
    {
      target := w.base.Address();
      released := false;
      new;
      os.log := os.log + [Lock(target)];
    }

    /** `mutex_wrapper_guard(pthread_mutex_t* m)`: locks `m`. */
    constructor OfPointer(m: Pointer, os: Os<M, MA>, lockCode: int)
      modifies os
      ensures target == m && !released
      ensures os.log == old(os.log) + [Lock(m)]
    {
      target := m;
      released := false;
      new;
      os.log := os.log + [Lock(target)];
    }

    /** `~mutex_wrapper_guard()`: unlocks the same pointer; the code is
        ignored. */
    method Release(os: Os<M, MA>, unlockCode: int)
      requires !released
      modifies this, os
      ensures released
      ensures os.log == old(os.log) + [Unlock(target)]
    {
      os.log := os.log + [Unlock(target)];
      released := true;
    }
  }

  /** A scope guarded by a `mutex_wrapper_guard` on `w`, whose body issues
      the calls `body`. However the body ends, the log gains its calls
      between exactly one lock and one unlock of the same pointer. */
  method WithWrapperGuard<M(0), MA>(w: Wrapper<M, MA>, os: Os<M, MA>, lockCode: int, ghost body: seq<Call<M, MA>>, unlockCode: int)
    modifies os
    ensures os.log == old(os.log) + [Lock(w.base.Address())] + body + [Unlock(w.base.Address())]
  {
    var guard := new MutexWrapperGuard.OfWrapper(w, os, lockCode);
    os.log := os.log + body;
    guard.Release(os, unlockCode);
  }

  /** `mutex_guard`: a reference to a `mutex`; its lock and unlock throw as
      `mutex::lock` and `mutex::unlock` do. */
  class MutexGuard<M(0), MA> {
    const m: Mutex<M, MA>
    ghost var released: bool

    /** The member initialisation `m_mutex(m)` of the constructor; the lock
        that follows is done by Acquire. */
    constructor Bind(m: Mutex<M, MA>)
      ensures this.m == m && !released
    {
      this.m := m;
      released := false;
    }

    /** `~mutex_guard()`: `m_mutex.unlock()`, whose exception propagates. */
    method Release(os: Os<M, MA>, unlockCode: int) returns (r: Outcome<()>)
      requires !released
      modifies this, os
      ensures released
      ensures r == CheckError(unlockCode)
      ensures os.log == old(os.log) + [Unlock(m.Handle())]
    {
      r := m.Unlock(os, unlockCode);
      released := true;
    }
  }

  /** `mutex_guard(m)`: locks `m`; if that throws, no guard exists and
      nothing will unlock. */
  method Acquire<M(0), MA>(m: Mutex<M, MA>, os: Os<M, MA>, lockCode: int) returns (r: Outcome<MutexGuard<M, MA>>)
    modifies os
    ensures os.log == old(os.log) + [Lock(m.Handle())]
    ensures r.Fatal? <==> lockCode != 0
    ensures r.Fatal? ==> r.error == FatalError(lockCode)
    ensures r.Ok? ==> fresh(r.value) && r.value.m == m && !r.value.released
  {
    var guard := new MutexGuard.Bind(m);
    var locked := m.Lock(os, lockCode);
    if locked.Fatal? {
      return Fatal(locked.error);
    }
    return Ok(guard);
  }

  /** How a scope guarded by a `mutex_guard` ends. */
  datatype ScopeExit =
    | Completed                       // body and unlock both returned
    | Raised(error: FatalError)       // lock or unlock threw fatal_error
    | BodyRaised                      // the body threw; unlock succeeded and the body's exception propagates
    | Terminated(error: FatalError)   // the body threw and unlock threw while unwinding: std::terminate

  /** A scope guarded by a `mutex_guard` on `m` whose body issues `body`
      and then returns or throws (`bodyThrows`). A failed lock skips the
      body and the unlock; otherwise exactly one unlock follows the body. */
  method WithMutexGuard<M(0), MA>(m: Mutex<M, MA>, os: Os<M, MA>, lockCode: int, ghost body: seq<Call<M, MA>>, bodyThrows: bool, unlockCode: int)
    returns (r: ScopeExit)
    modifies os
    ensures lockCode != 0 ==> r == Raised(FatalError(lockCode)) && os.log == old(os.log) + [Lock(m.Handle())]
    ensures lockCode == 0 ==> os.log == old(os.log) + [Lock(m.Handle())] + body + [Unlock(m.Handle())]
    ensures lockCode == 0 && !bodyThrows ==> r == (if unlockCode == 0 then Completed else Raised(FatalError(unlockCode)))
    ensures lockCode == 0 && bodyThrows ==> r == (if unlockCode == 0 then BodyRaised else Terminated(FatalError(unlockCode)))
  {
    var acquired := Acquire(m, os, lockCode);
    if acquired.Fatal? {
      return Raised(acquired.error);
    }
    var guard := acquired.value;
    os.log := os.log + body;
    var unlocked := guard.Release(os, unlockCode);
    if unlocked.Fatal? {
      r := if bodyThrows then Terminated(unlocked.error) else Raised(unlocked.error);
    } else {
      r := if bodyThrows then BodyRaised else Completed;
    }
  }
}
