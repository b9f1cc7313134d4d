/** The state machine of `wrapper_base`: the two fields `m_valid` and
    `m_object`, and what each operation does to them and which OS calls it
    makes, given the codes the OS init and destroy functions return. The
    storage `at` is the identity of the wrapper whose fields these are; it
    is what `&m_object` points to. The classes in module Wrappers are proved
    to follow these transitions. */
module WrapperState {
  import opened OsCalls
  import opened ErrorCodes

  /** The fields of one wrapper: the validity flag and the stored object. */
  datatype Slot<T> = Slot(valid: bool, obj: T)

  /** The fields after an operation, and the OS calls it made, in order. */
  datatype Transition<T, A> = Transition(slot: Slot<T>, calls: seq<Call<T, A>>)

  /** `operator&`: a pointer to the storage if valid, null otherwise. */
  function AddressOf<T>(s: Slot<T>, at: object): (r: Pointer)
    ensures r.Some? <==> s.valid
    ensures r.Some? ==> r.value == at
  {
    if s.valid then Some(at) else None
  }

  /** The code `destroy` returns, `destroyCode` being the code DestroyFn
      would return if it were called. */
  function DestroyCode<T>(s: Slot<T>, destroyCode: int): (r: int)
    ensures !s.valid ==> r == EINVAL
    ensures s.valid ==> r == destroyCode
  {
    if !s.valid then EINVAL else destroyCode
  }

  /** The fields after `destroy` and the calls it makes. An invalid wrapper
      calls nothing and keeps its fields; a valid one calls DestroyFn once
      on its storage and stays valid exactly when that call failed. */
  function DestroyStep<T, A>(s: Slot<T>, at: object, destroyCode: int): (r: Transition<T, A>)
    ensures !s.valid ==> r == Transition(s, [])
    ensures s.valid ==> r.calls == [Destroy(at, s.obj)]
    ensures r.slot.obj == s.obj
    ensures r.slot.valid <==> s.valid && destroyCode != 0
  {
    if !s.valid then Transition(s, [])
    else Transition(Slot(destroyCode != 0, s.obj), [Destroy(at, s.obj)])
  }

  /** `init_done`: validity becomes "the init code was zero". */
  function InitDoneSlot<T>(s: Slot<T>, initError: int): (r: Slot<T>)
    ensures r.valid <==> initError == 0
    ensures r.obj == s.obj
  {
    s.(valid := initError == 0)
  }

  /** The two flavours of `init`: `attr_wrapper::init()` and
      `wrapper::init(attrs)`. */
  datatype Initialiser<A> = AttrFlavour | ObjectFlavour(attrs: Option<A>)

  /** The InitFn call each flavour makes on storage `at`. */
  function InitCall<T, A>(at: object, f: Initialiser<A>): Call<T, A>
  {
    match f
    case AttrFlavour => AttrInit(at)
    case ObjectFlavour(attrs) => ObjectInit(at, attrs)
  }

  /** `init` of either flavour: `destroy` first, whatever it returns, then
      the initialiser, which leaves `written` in the storage and returns
      `initCode`. */
  function InitStep<T, A>(s: Slot<T>, at: object, f: Initialiser<A>, destroyCode: int, initCode: int, written: T): (r: Transition<T, A>)
    ensures r.slot == Slot(initCode == 0, written)
    ensures s.valid ==> r.calls == [Destroy(at, s.obj), InitCall(at, f)]
    ensures !s.valid ==> r.calls == [InitCall(at, f)]
  {
    var d := DestroyStep<T, A>(s, at, destroyCode);
    Transition(InitDoneSlot(d.slot.(obj := written), initCode), d.calls + [InitCall(at, f)])
  }

  /** `attach`: destroy the current object, ignoring the result, then hold
      exactly `obj` and be valid. */
  function AttachStep<T, A>(s: Slot<T>, at: object, obj: T, destroyCode: int): (r: Transition<T, A>)
    ensures r.slot == Slot(true, obj)
    ensures r.calls == (if s.valid then [Destroy(at, s.obj)] else [])
  {
    var d := DestroyStep<T, A>(s, at, destroyCode);
    Transition(Slot(true, obj), d.calls)
  }

  /** `detach`: invalid afterwards, the object left as it was, no call. */
  function DetachStep<T, A>(s: Slot<T>): (r: Transition<T, A>)
    ensures r.slot == Slot(false, s.obj)
    ensures r.calls == []
  {
    Transition(s.(valid := false), [])
  }

  /** A detached object is never destroyed by the wrapper it left: the
      following `destroy` reports EINVAL and makes no call. */
  lemma DestroyAfterDetach<T, A>(s: Slot<T>, at: object, destroyCode: int)
    ensures var d := DetachStep<T, A>(s).slot;
      DestroyCode(d, destroyCode) == EINVAL && DestroyStep<T, A>(d, at, destroyCode) == Transition(d, [])
  {
  }

  /** Destroying twice is safe: once a destroy has succeeded, the next one
      reports EINVAL and makes no call. */
  lemma DestroyTwice<T, A>(s: Slot<T>, at: object, c1: int, c2: int)
    requires s.valid && c1 == 0
    ensures var d := DestroyStep<T, A>(s, at, c1).slot;
      DestroyCode(d, c2) == EINVAL && DestroyStep<T, A>(d, at, c2).calls == []
  {
  }

  /** A failed destroy leaves the object live, so a following destroy calls
      DestroyFn again on the same storage and object. */
  lemma DestroyRetriedAfterFailure<T, A>(s: Slot<T>, at: object, c1: int, c2: int)
    requires s.valid && c1 != 0
    ensures var d := DestroyStep<T, A>(s, at, c1).slot;
      DestroyCode(d, c2) == c2 && DestroyStep<T, A>(d, at, c2).calls == [Destroy(at, s.obj)]
  {
  }

  /** One call of `init`: its flavour, the code destroy would return, the
      code the initialiser returns and the object it writes. */
  datatype InitOp<T, A> = InitOp(flavour: Initialiser<A>, destroyCode: int, initCode: int, written: T)

  /** A run of `init` calls on the wrapper with storage `at`, from `s`. */
  function RunInits<T, A>(s: Slot<T>, at: object, ops: seq<InitOp<T, A>>): Transition<T, A>
    decreases |ops|
  {
    if ops == [] then Transition(s, [])
    else
      var t := InitStep(s, at, ops[0].flavour, ops[0].destroyCode, ops[0].initCode, ops[0].written);
      var rest := RunInits(t.slot, at, ops[1..]);
      Transition(rest.slot, t.calls + rest.calls)
  }

  /** The InitFn calls of `ops` on storage `at`, in order. */
  function InitCalls<T, A>(at: object, ops: seq<InitOp<T, A>>): seq<Call<T, A>>
  {
    if ops == [] then [] else [InitCall(at, ops[0].flavour)] + InitCalls(at, ops[1..])
  }

  /** The objects of the inits in `ops` that succeeded, in order. */
  function Succeeded<T, A>(ops: seq<InitOp<T, A>>): seq<T>
  {
    if ops == [] then []
    else (if ops[0].initCode == 0 then [ops[0].written] else []) + Succeeded(ops[1..])
  }

  /** The objects that are live when a later init of `ops` starts: the one
      `s` holds if it is valid, then every successfully initialised object
      except the one from the last init. */
  function SupersededObjects<T, A>(s: Slot<T>, ops: seq<InitOp<T, A>>): seq<T>
  {
    if ops == [] then []
    else (if s.valid then [s.obj] else []) + Succeeded(ops[..|ops| - 1])
  }

  /** Over any run of inits on one wrapper, only the most recent init's
      object is live (and only if that init succeeded), every object
      superseded by a later init was destroyed exactly once and in order,
      the other calls are exactly the initialiser calls of the run, in
      order, and every call acts on the wrapper's own storage. */
  lemma {:induction false} RunInitsDestroysEverySupersededObjectOnce<T, A>(s: Slot<T>, at: object, ops: seq<InitOp<T, A>>)
    ensures DestroyedObjects(RunInits(s, at, ops).calls) == SupersededObjects(s, ops)
    ensures OtherCalls(RunInits(s, at, ops).calls) == InitCalls(at, ops)
    ensures forall c | c in RunInits(s, at, ops).calls :: Storage(c) == Some(at)
    ensures ops == [] ==> RunInits(s, at, ops).slot == s
    ensures ops != [] ==> RunInits(s, at, ops).slot == Slot(ops[|ops| - 1].initCode == 0, ops[|ops| - 1].written)
    decreases |ops|
  {
    if ops != [] {
      var op := ops[0];
      var t := InitStep(s, at, op.flavour, op.destroyCode, op.initCode, op.written);
      var tail := ops[1..];
      RunInitsDestroysEverySupersededObjectOnce(t.slot, at, tail);
      var rest := RunInits(t.slot, at, tail);
      assert RunInits(s, at, ops) == Transition(rest.slot, t.calls + rest.calls);
      DestroyedObjectsAppend(t.calls, rest.calls);
      var init: Call<T, A> := InitCall(at, op.flavour);
      assert !init.Destroy?;
      var pre: seq<Call<T, A>> := if s.valid then [Destroy(at, s.obj)] else [];
      assert t.calls == pre + [init];
      DestroyedObjectsAppend(pre, [init]);
      assert DestroyedObjects(t.calls) == (if s.valid then [s.obj] else []);
      assert OtherCalls(t.calls) == [init];
      if tail == [] {
        assert ops[..|ops| - 1] == [];
      } else {
        assert ops[..|ops| - 1] == [op] + tail[..|tail| - 1];
        assert ([op] + tail[..|tail| - 1])[1..] == tail[..|tail| - 1];
        assert Succeeded(ops[..|ops| - 1]) == (if op.initCode == 0 then [op.written] else []) + Succeeded(tail[..|tail| - 1]);
        assert ops[|ops| - 1] == tail[|tail| - 1];
      }
    }
  }
}
