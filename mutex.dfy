/** The throwing tier: class `mutex`, a `mutex_wrapper` member plus
    lock/trylock/unlock that turn nonzero codes into `fatal_error`. A thrown
    exception is the `Fatal` case of an `Outcome`. */
module MutexObject {
  import opened OsCalls
  import opened ErrorCodes
  import opened WrapperState
  import opened Wrappers

  /** `mutex`, over mutex objects `M` and mutex attribute objects `MA`. */
  class Mutex<M(0), MA> {
    const w: Wrapper<M, MA>

    /** `handle()`: `&m_mutex`, i.e. the wrapper's `operator&`; it is the
        pointer every pthread_mutex_* call of this class receives. */
    function Handle(): (r: Pointer)
      reads w.base
      ensures r.Some? <==> w.base.valid
      ensures r.Some? ==> r.value == w.base
    {
      w.base.Address()
    }

    /** The body of `mutex(attrs)` up to check_error: the member wrapper
        starts invalid and is initialised with `attrs`. Only NewMutex, which
        then decides whether the constructor throws, calls this. */
    constructor Initialised(os: Os<M, MA>, attrs: Option<MA>, initCode: int, written: M)
      modifies os
      ensures fresh(w) && fresh(w.base)
      ensures w.base.State() == Slot(initCode == 0, written)
      ensures os.log == old(os.log) + [ObjectInit(w.base, attrs)]
    {
      w := new Wrapper();
      new;
      // The member wrapper is invalid, so the destroy inside init makes no
      // call and the code passed for it is never used.
      var _ := w.Init(os, attrs, 0, initCode, written);
    }

    /** `mutex(const pthread_mutex_t& initializer)`: adopts the object
        without any OS call; cannot fail. */
    constructor FromInitializer(initializer: M)
      ensures fresh(w) && fresh(w.base)
      ensures w.base.State() == Slot(true, initializer)
    {
      w := new Wrapper.FromInitializer(initializer);
    }

    /** `~mutex()`: destroys the wrapper and swallows the code, so it can
        never fail (it has no result). */
    method Dispose(os: Os<M, MA>, destroyCode: int)
      modifies w.base, os
      ensures w.base.State() == DestroyStep<M, MA>(old(w.base.State()), w.base, destroyCode).slot
      ensures os.log == old(os.log) + DestroyStep<M, MA>(old(w.base.State()), w.base, destroyCode).calls
    {
      var _ := w.base.Destroy(os, destroyCode);
    }

    /** `lock()`; `code` is what pthread_mutex_lock returns. */
    method Lock(os: Os<M, MA>, code: int) returns (r: Outcome<()>)
      modifies os
      ensures r == CheckError(code)
      ensures r.Fatal? <==> code != 0
      ensures os.log == old(os.log) + [Call.Lock(Handle())]
    {
      os.log := os.log + [Call.Lock(w.base.Address())];
      r := CheckError(code);
    }

    /** `trylock()`; `code` is what pthread_mutex_trylock returns. */
    method TryLock(os: Os<M, MA>, code: int) returns (r: Outcome<bool>)
      modifies os
      ensures r == TryLockOutcome(code)
      ensures os.log == old(os.log) + [Call.TryLock(Handle())]
    {
      os.log := os.log + [Call.TryLock(w.base.Address())];
      var error := code;
      if error == EBUSY {
        return Ok(false);
      }
      var checked := CheckError(error);
      if checked.Fatal? {
        return Fatal(checked.error);
      }
      return Ok(true);
    }

    /** `unlock()`; `code` is what pthread_mutex_unlock returns. */
    method Unlock(os: Os<M, MA>, code: int) returns (r: Outcome<()>)
      modifies os
      ensures r == CheckError(code)
      ensures r.Fatal? <==> code != 0
      ensures os.log == old(os.log) + [Call.Unlock(Handle())]
    {
      os.log := os.log + [Call.Unlock(w.base.Address())];
      r := CheckError(code);
    }
  }

  /** `mutex(attrs)`: throws `fatal_error(initCode)` exactly when
      pthread_mutex_init fails, and then no mutex exists to be used. */
  method NewMutex<M(0), MA>(os: Os<M, MA>, attrs: Option<MA>, initCode: int, written: M)
    returns (r: Outcome<Mutex<M, MA>>)
    modifies os
    ensures exists at: object :: fresh(at) && os.log == old(os.log) + [ObjectInit(at, attrs)]
    ensures r.Ok? ==> os.log == old(os.log) + [ObjectInit(r.value.w.base, attrs)]
    ensures r.Fatal? <==> initCode != 0
    ensures r.Fatal? ==> r.error == FatalError(initCode)
    ensures r.Ok? ==> fresh(r.value) && fresh(r.value.w) && fresh(r.value.w.base)
    ensures r.Ok? ==> r.value.w.base.State() == Slot(true, written)
  {
    var m := new Mutex.Initialised(os, attrs, initCode, written);
    var checked := CheckError(initCode);
    if checked.Fatal? {
      return Fatal(checked.error);
    }
    return Ok(m);
  }

  /** Two mutexes adopted from the same initializer hold equal bytes but
      are different storage, so the log tells their calls apart. */
  method LockTwoAdoptedMutexes<M(0), MA>(os: Os<M, MA>, initializer: M)
    modifies os
    ensures |os.log| == |old(os.log)| + 2
    ensures os.log[|old(os.log)|].Lock? && os.log[|old(os.log)| + 1].Lock?
    ensures os.log[|old(os.log)|] != os.log[|old(os.log)| + 1]
  {
    var m1 := new Mutex.FromInitializer(initializer);
    var m2 := new Mutex.FromInitializer(initializer);
    var _ := m1.Lock(os, 0);
    var _ := m2.Lock(os, 0);
  }
}
