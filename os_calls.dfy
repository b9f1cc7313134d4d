/** The pthread library as the wrappers see it: a set of entry points that are
    called with a pointer to an object and answer with an integer error code.
    What those functions do to the object is the operating system's business;
    the model only records, in a ghost log, which of them were called and on
    what. */
module OsCalls {

  datatype Option<T> = None | Some(value: T)

  /** A pointer to the storage of an object, which may be null: `None` is
      the null pointer `0`, `Some(s)` the address of storage `s`. Storage is
      identified by the Dafny object that owns it (a wrapper), so two
      wrappers whose objects hold equal bytes are still told apart. */
  type Pointer = Option<object>

  /** One call into the pthread library, with the address it receives.
      `T` is the object type (pthread_mutex_t, pthread_cond_t, an attribute
      type), `A` the attribute type an object initialiser accepts. */
  datatype Call<T, A> =
    | AttrInit(at: object)                       // InitFn(&m_object) of an attribute wrapper
    | ObjectInit(at: object, attrs: Option<A>)   // InitFn(&m_object, attrs) of an object wrapper
    | Destroy(at: object, obj: T)                // DestroyFn(&m_object), m_object holding obj
    | Lock(target: Pointer)                      // pthread_mutex_lock(target)
    | TryLock(target: Pointer)                   // pthread_mutex_trylock(target)
    | Unlock(target: Pointer)                    // pthread_mutex_unlock(target)

  /** The storage a call acts on (for lock calls, the pointer passed). */
  function Storage<T, A>(c: Call<T, A>): Pointer
  {
    match c
    case AttrInit(at) => Some(at)
    case ObjectInit(at, _) => Some(at)
    case Destroy(at, _) => Some(at)
    case Lock(p) => p
    case TryLock(p) => p
    case Unlock(p) => p
  }

  /** The objects a log shows destroyed, in order. */
  function DestroyedObjects<T, A>(calls: seq<Call<T, A>>): seq<T>
  {
    if calls == [] then []
    else (if calls[0].Destroy? then [calls[0].obj] else []) + DestroyedObjects(calls[1..])
  }

  /** The calls of a log other than destroys, in order. */
  function OtherCalls<T, A>(calls: seq<Call<T, A>>): seq<Call<T, A>>
  {
    if calls == [] then []
    else (if calls[0].Destroy? then [] else [calls[0]]) + OtherCalls(calls[1..])
  }

  lemma {:induction false} DestroyedObjectsAppend<T, A>(a: seq<Call<T, A>>, b: seq<Call<T, A>>)
    ensures DestroyedObjects(a + b) == DestroyedObjects(a) + DestroyedObjects(b)
    ensures OtherCalls(a + b) == OtherCalls(a) + OtherCalls(b)
  {
    if a != [] {
      assert (a + b)[0] == a[0];
      assert (a + b)[1..] == a[1..] + b;
      DestroyedObjectsAppend(a[1..], b);
    } else {
      assert a + b == b;
    }
  }

  /** The world the wrappers call into: only the history of calls is kept. */
  class Os<T, A> {
    ghost var log: seq<Call<T, A>>

    constructor ()
      ensures log == []
    {
      log := [];
    }
  }
}
