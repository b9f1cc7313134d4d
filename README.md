# pthreadpp lifecycle and error translation, in Dafny

This project models the C++ header `include/dropins/pthreadpp.h`: thin
wrappers around pthread synchronisation objects. The part modelled is the
header's own logic. That is the state machine of a wrapper (a stored object
plus a validity flag, moved by `destroy`, `init`, `attach` and `detach`),
the translation of pthread error codes into `fatal_error` by class `mutex`,
and the lock/unlock bracketing of the two scoped guards.

The pthread functions are oracles. Every method takes, as parameters, the
code the OS function it calls returns, and for an initialiser also the
object value the initialiser leaves in the storage. A ghost log on an `Os`
object records every call made, with the address it receives
(`AttrInit(at)`, `ObjectInit(at, attrs)`, `Destroy(at, object)`,
`Lock(p)`, `TryLock(p)`, `Unlock(p)`). This lets the contracts say "no call
was made" and "destroyed before re-initialised". An address is the identity
of the wrapper object that owns the storage (`&m_object`), so two wrappers
or mutexes holding equal bytes are still different storage in the log. A
pointer is a `Pointer`, that is `Option<object>`: `None` is the null pointer
`operator&` yields for an invalid wrapper, and `Some(w)` is the address of
wrapper `w`'s storage.

Files and modules:

- `os_calls.dfy`, module `OsCalls`: the pointer type, the call log entries,
  the `Os` class holding the ghost log.
- `error_codes.dfy`, module `ErrorCodes`: `EBUSY` and `EINVAL`,
  `fatal_error` as the datatype `FatalError` (with `ErrorCode()` and
  `What()`), the `Outcome` of a
  throwing call, `check_error` and the mapping of `trylock`.
- `wrapper_state.dfy`, module `WrapperState`: the wrapper's fields as a
  value, with one transition function per operation and lemmas about
  chains of operations.
- `wrappers.dfy`, module `Wrappers`: `wrapper_base`, `attr_wrapper` and
  `wrapper` as classes with `valid`/`obj` fields. Each method is proved to
  follow the matching transition of `WrapperState`. C++ inheritance becomes
  a `base` member.
- `mutex.dfy`, module `MutexObject`: class `mutex` over a `Wrapper` member.
  The throwing constructor is `NewMutex`, which returns either a fresh mutex
  or `Fatal`.
- `guards.dfy`, module `Guards`: the two guards. For each, a bracketing
  method runs a scope whose body issues a given list of calls.

Three points where the model follows the code over what one might expect
from the header's comments or its usual description:

- `destroy` sets `m_valid=!!error`. A failed destroy therefore leaves the
  wrapper valid, and only a successful one invalidates it; the wrapper is
  not marked invalid whatever the outcome. `DestroyStep` and `DestroyRetriedAfterFailure` state what
  the code does.
- The header comment says wrappers give "automatic destruction" and ignore
  errors "in destructors". But `wrapper_base`, `attr_wrapper` and `wrapper`
  declare no destructor, so a wrapper going out of scope makes no OS call.
  The model has no wrapper destructor. Only `mutex` destroys its object on
  destruction (`Mutex.Dispose`).
- `attr_wrapper::init` passes `&base::handle()`, the address of the
  temporary pointer that `handle()` returns. That does not compile once the
  template is instantiated. `AttrWrapper.Init` gives it the evident meaning:
  InitFn acts on the stored object, as in `wrapper::init`.

## Model

| member | source | states |
|---|---|---|
| `WrapperState.AddressOf` | include/dropins/pthreadpp.h:70-75 | `operator&` yields a pointer exactly when the wrapper is valid, and then it points at the stored object; otherwise null |
| `Wrappers.WrapperBase.Address` | include/dropins/pthreadpp.h:70-75 | the class's `operator&`: the address of this wrapper's own storage when valid, null otherwise (as `AddressOf`) |
| `Wrappers.WrapperBase.IsValid` | include/dropins/pthreadpp.h:77-79 | `is_valid` is true exactly when `operator&` is non-null |
| `Wrappers.WrapperBase.constructor` | include/dropins/pthreadpp.h:104-107 | a default-constructed wrapper is invalid |
| `Wrappers.WrapperBase.FromInitializer` | include/dropins/pthreadpp.h:108-112 | a wrapper built from an initializer is valid and holds exactly that object |
| `WrapperState.DestroyCode` | include/dropins/pthreadpp.h:81-88 | `destroy` returns EINVAL on an invalid wrapper and DestroyFn's code unmodified on a valid one |
| `WrapperState.DestroyStep` | include/dropins/pthreadpp.h:81-88 | on an invalid wrapper: no call, fields unchanged; on a valid one: exactly one `Destroy` of the stored object; afterwards valid iff it was valid and that code was nonzero; the object is never changed |
| `Wrappers.WrapperBase.Destroy` | include/dropins/pthreadpp.h:81-88 | returns `DestroyCode`, leaves the fields `DestroyStep` gives, and appends exactly its calls to the log |
| `WrapperState.DestroyAfterDetach` | include/dropins/pthreadpp.h:81-102 | after `detach`, `destroy` returns EINVAL and makes no call, so the detached object is never destroyed by the wrapper |
| `WrapperState.DestroyTwice` | include/dropins/pthreadpp.h:81-88 | after a successful destroy, a second destroy returns EINVAL and makes no call |
| `WrapperState.DestroyRetriedAfterFailure` | include/dropins/pthreadpp.h:85-87 | after a failed destroy the wrapper is still valid, and the next destroy calls DestroyFn on the same object again and returns its code |
| `WrapperState.AttachStep` | include/dropins/pthreadpp.h:94-98 | `attach` destroys the current object (one `Destroy` call iff it was valid, the code discarded), then holds exactly the given object and is valid |
| `Wrappers.WrapperBase.Attach` | include/dropins/pthreadpp.h:94-98 | leaves the fields `AttachStep` gives and appends exactly its calls |
| `WrapperState.DetachStep` | include/dropins/pthreadpp.h:99-102 | `detach` leaves the wrapper invalid with the object unchanged and makes no call |
| `Wrappers.WrapperBase.Detach` | include/dropins/pthreadpp.h:99-102 | returns the stored object, leaves the fields `DetachStep` gives, and does not touch the OS log |
| `WrapperState.InitDoneSlot` | include/dropins/pthreadpp.h:114-117 | `init_done` makes the wrapper valid iff the init code is zero, object unchanged |
| `Wrappers.WrapperBase.InitDone` | include/dropins/pthreadpp.h:114-117 | returns the init code unmodified and leaves the fields `InitDoneSlot` gives |
| `WrapperState.InitStep` | include/dropins/pthreadpp.h:174-177 | `init`: a valid object gets one `Destroy` of its storage before the single initialiser call on the same storage, an invalid one only the initialiser call; afterwards valid iff the init code is zero, holding what the initialiser wrote, whatever destroy returned |
| `Wrappers.AttrWrapper.constructor` | include/dropins/pthreadpp.h:141-142 | a default attribute wrapper is invalid |
| `Wrappers.AttrWrapper.FromInitializer` | include/dropins/pthreadpp.h:143-146 | valid and holding the initializer |
| `Wrappers.AttrWrapper.Init` | include/dropins/pthreadpp.h:148-151 | returns the init code unmodified; fields and calls as `InitStep` with the argument-less initialiser |
| `Wrappers.Wrapper.constructor` | include/dropins/pthreadpp.h:167-168 | a default object wrapper is invalid |
| `Wrappers.Wrapper.FromInitializer` | include/dropins/pthreadpp.h:169-172 | valid and holding the initializer |
| `Wrappers.Wrapper.Init` | include/dropins/pthreadpp.h:174-177 | returns the init code unmodified; fields and calls as `InitStep`, the attribute pointer passed through to the initialiser |
| `WrapperState.RunInitsDestroysEverySupersededObjectOnce` | include/dropins/pthreadpp.h:174-177 | over any run of inits on one wrapper the objects destroyed are, in order, the initially live one and every successfully initialised object except the last, each exactly once; the other calls are exactly the run's initialiser calls, in order; every call acts on the wrapper's own storage; afterwards the wrapper holds the last init's object and is valid iff that init succeeded |
| `ErrorCodes.FatalError.ErrorCode` | include/dropins/pthreadpp.h:231-237 | `error_code()` returns the code `fatal_error` was built with; the exception is determined by it |
| `ErrorCodes.FatalError.What` | include/dropins/pthreadpp.h:238-240 | `what()` is one fixed message, the same for every code |
| `ErrorCodes.CheckError` | include/dropins/pthreadpp.h:294-298 | `check_error` throws iff the code is nonzero, and the exception carries that code |
| `ErrorCodes.TryLockOutcome` | include/dropins/pthreadpp.h:265-272 | `trylock` gives `false` iff the code is EBUSY, `true` iff it is 0, and throws `fatal_error(code)` iff it is anything else |
| `ErrorCodes.TryLockAgreesWithCheckError` | include/dropins/pthreadpp.h:265-272 | for every code but EBUSY, trylock succeeds or throws exactly as `check_error` does, with the same error |
| `MutexObject.Mutex.Handle` | include/dropins/pthreadpp.h:277-283 | `handle()` is the member wrapper's `operator&`: non-null iff the wrapper is valid, pointing at that wrapper's storage |
| `MutexObject.Mutex.Initialised` | include/dropins/pthreadpp.h:250-252 | the member wrapper starts invalid, so initialising it makes exactly one `ObjectInit(attrs)` call and no destroy; it is valid iff the code is zero |
| `MutexObject.NewMutex` | include/dropins/pthreadpp.h:250-252 | the constructor throws `fatal_error(code)` iff pthread_mutex_init returns nonzero, and then yields no mutex; otherwise a fresh mutex whose wrapper is valid; exactly one init call, on fresh storage with the given attributes, either way (on the returned mutex's storage when it succeeds) |
| `MutexObject.LockTwoAdoptedMutexes` | include/dropins/pthreadpp.h:253-256 | two mutexes adopted from the same initializer are different storage: their lock calls are different log entries |
| `MutexObject.Mutex.FromInitializer` | include/dropins/pthreadpp.h:253-256 | adopting an initializer makes no OS call and cannot fail; the wrapper is valid and holds it |
| `MutexObject.Mutex.Dispose` | include/dropins/pthreadpp.h:258-260 | the destructor performs `destroy` as `DestroyStep` says and reports nothing, whatever the code |
| `MutexObject.Mutex.Lock` | include/dropins/pthreadpp.h:262-264 | one `Lock` call on `handle()`; throws `fatal_error(code)` iff the code is nonzero |
| `MutexObject.Mutex.TryLock` | include/dropins/pthreadpp.h:265-272 | one `TryLock` call on `handle()`; result as `TryLockOutcome` |
| `MutexObject.Mutex.Unlock` | include/dropins/pthreadpp.h:273-275 | one `Unlock` call on `handle()`; throws `fatal_error(code)` iff the code is nonzero |
| `Guards.MutexWrapperGuard.OfWrapper` | include/dropins/pthreadpp.h:312-316 | keeps `&m`, null if the wrapper is invalid, and makes exactly one `Lock` call on it; the code is ignored |
| `Guards.MutexWrapperGuard.OfPointer` | include/dropins/pthreadpp.h:317-321 | keeps the raw pointer and makes exactly one `Lock` call on it |
| `Guards.MutexWrapperGuard.Release` | include/dropins/pthreadpp.h:322-324 | exactly one `Unlock` on the pointer kept at construction, once; the code is ignored |
| `Guards.WithWrapperGuard` | include/dropins/pthreadpp.h:310-330 | a guarded scope adds to the log exactly `Lock(p)`, the body's own calls and `Unlock(p)`, with the same `p` |
| `Guards.MutexGuard.Bind` | include/dropins/pthreadpp.h:338-340 | the guard refers to the given mutex and is not yet released |
| `Guards.Acquire` | include/dropins/pthreadpp.h:338-342 | one `Lock` call; throws `fatal_error(code)` iff the lock code is nonzero, and then no guard exists |
| `Guards.MutexGuard.Release` | include/dropins/pthreadpp.h:343-345 | one `Unlock` call on the same mutex; throws as `mutex::unlock` does |
| `Guards.WithMutexGuard` | include/dropins/pthreadpp.h:336-351 | a failed lock adds only `Lock` and rethrows its code; otherwise the log gains `Lock`, the body's calls and `Unlock` on the same mutex, whether or not the body throws, and the scope ends as the body and the unlock code decide |

## Left out

- The behaviour of the pthread functions themselves: mutual exclusion,
  blocking in `pthread_mutex_lock`, what `trylock` sees from other threads,
  what unlocking an unheld mutex returns. These are concurrent foreign
  calls, so their codes are parameters, and scenarios that depend on them
  (a second thread's trylock returning false, a double unlock failing) are
  not modelled.
- What DestroyFn does to the bytes of the stored object: `destroy` keeps the
  object value as it was.
- `mutex::initializer()` and `PTHREAD_MUTEX_INITIALIZER`: a platform macro
  with an opaque value. `Mutex.FromInitializer` takes any object value.
- The private copy constructors and assignment operators of the wrapper and
  guard classes: the model simply offers no copy operation.
- The typedefs `mutexattr_wrapper`, `mutex_wrapper`, `condattr_wrapper` and
  `cond_wrapper`: they are `AttrWrapper` and `Wrapper` at particular object
  types, which the generic classes stand for. Condition-variable waiting and
  signalling are not part of the header.
- C++ exception unwinding: the guard bracketing methods report a
  throw during unwinding as the value `Terminated` rather than modelling
  `std::terminate`. The body of a guarded scope is a list of calls it issues
  and a flag saying whether it throws, not arbitrary code.
- A guarded scope whose body completes while unlock fails raises
  `fatal_error` out of `~mutex_guard()`. That reading is C++03's, which
  the header assumes (it uses `throw()` specifications, and its comment on
  `mutex_guard` says the destructor can throw). Under C++11 and later the
  destructor is implicitly `noexcept`, and the same failure would call
  `std::terminate` however the scope ends.
- The attribute argument of an object initialiser is recorded by the
  attribute object's value, not by the address of its storage.
- The errno values are the Linux ones (EBUSY 16, EINVAL 22). Only their
  distinctness from 0 and from each other matters here.
- `include/dropins/begin_namespace.h`: namespace-formatting macros only.
