/** The non-throwing tier: `wrapper_base` and its two flavours
    `attr_wrapper` (initialiser without arguments) and `wrapper`
    (initialiser taking an optional attribute pointer). Every method is
    proved to follow the matching transition of module WrapperState, given
    the codes the OS functions return, and appends exactly that
    transition's calls to the OS log. */
module Wrappers {
  import opened OsCalls
  import opened ErrorCodes
  import opened WrapperState

  /** `wrapper_base<T, DestroyFn>`: one stored object and its validity
      flag. A default-constructed wrapper leaves the object unspecified,
      which `T(0)` models as an arbitrary initial value. */
  class WrapperBase<T(0), A> {
    var valid: bool
    var obj: T

    function State(): Slot<T>
      reads this
    {
      Slot(valid, obj)
    }

    /** `operator&` (both the const and the non-const one): the address
        of this wrapper's storage when valid, null otherwise. */
    function Address(): (r: Pointer)
      reads this
      ensures r.Some? <==> valid
      ensures r.Some? ==> r.value == this
    {
      AddressOf(State(), this)
    }

    /** `is_valid`: agrees with `operator&` being non-null. */
    function IsValid(): (r: bool)
      reads this
      ensures r <==> Address().Some?
    {
      valid
    }

    /** `wrapper_base()`: invalid. */
    constructor ()
      ensures !valid
    {
      valid := false;
    }

    /** `wrapper_base(initializer)`: valid and holding the initializer. */
    constructor FromInitializer(initializer: T)
      ensures State() == Slot(true, initializer)
    {
      valid := true;
      obj := initializer;
    }

    /** `destroy`; `destroyCode` is what DestroyFn returns if it is called. */
    method Destroy(os: Os<T, A>, destroyCode: int) returns (r: int)
      modifies this, os
      ensures r == DestroyCode(old(State()), destroyCode)
      ensures State() == DestroyStep<T, A>(old(State()), this, destroyCode).slot
      ensures os.log == old(os.log) + DestroyStep<T, A>(old(State()), this, destroyCode).calls
    {
      if !valid {
        return EINVAL;
      }
      os.log := os.log + [Call.Destroy(this, obj)];
      var error := destroyCode;
      valid := error != 0;
      return error;
    }

    /** `attach`: the result of the implicit destroy is discarded. */
    method Attach(os: Os<T, A>, newObj: T, destroyCode: int)
      modifies this, os
      ensures State() == AttachStep<T, A>(old(State()), this, newObj, destroyCode).slot
      ensures os.log == old(os.log) + AttachStep<T, A>(old(State()), this, newObj, destroyCode).calls
    {
      var _ := Destroy(os, destroyCode);
      obj := newObj;
      valid := true;
    }

    /** `detach`: hands the object out; no OS call (`os` is not touched). */
    method Detach() returns (r: T)
      modifies this
      ensures r == old(obj)
      ensures State() == DetachStep<T, A>(old(State())).slot
    {
      valid := false;
      return obj;
    }

    /** `init_done`: record the initialiser's result as the new validity. */
    method InitDone(initError: int) returns (r: int)
      modifies this
      ensures r == initError
      ensures State() == InitDoneSlot(old(State()), initError)
    {
      valid := initError == 0;
      return initError;
    }
  }

  /** `attr_wrapper<T, InitFn, DestroyFn>`. Attribute objects take no
      attributes themselves, so its log has the unit attribute type. */
  class AttrWrapper<T(0)> {
    const base: WrapperBase<T, ()>

    constructor ()
      ensures fresh(base) && !base.valid
    {
      base := new WrapperBase();
    }

    constructor FromInitializer(initializer: T)
      ensures fresh(base) && base.State() == Slot(true, initializer)
    {
      base := new WrapperBase.FromInitializer(initializer);
    }

    /** `init()`: InitFn writes `written` into the storage and returns
        `initCode`, which is returned unmodified. */
    method Init(os: Os<T, ()>, destroyCode: int, initCode: int, written: T) returns (r: int)
      modifies base, os
      ensures r == initCode
      ensures base.State() == InitStep<T, ()>(old(base.State()), base, AttrFlavour, destroyCode, initCode, written).slot
      ensures os.log == old(os.log) + InitStep<T, ()>(old(base.State()), base, AttrFlavour, destroyCode, initCode, written).calls
    {
      var _ := base.Destroy(os, destroyCode);
      os.log := os.log + [AttrInit(base)];
      base.obj := written;
      r := base.InitDone(initCode);
    }
  }

  /** `wrapper<T, A, InitFn, DestroyFn>`, e.g. `mutex_wrapper` and
      `cond_wrapper`. */
  class Wrapper<T(0), A> {
    const base: WrapperBase<T, A>

    constructor ()
      ensures fresh(base) && !base.valid
    {
      base := new WrapperBase();
    }

    constructor FromInitializer(initializer: T)
      ensures fresh(base) && base.State() == Slot(true, initializer)
    {
      base := new WrapperBase.FromInitializer(initializer);
    }

    /** `init(attrs)`: `attrs` (None is the default null) is passed to
        InitFn, which writes `written` and returns `initCode`. */
    method Init(os: Os<T, A>, attrs: Option<A>, destroyCode: int, initCode: int, written: T) returns (r: int)
      modifies base, os
      ensures r == initCode
      ensures base.State() == InitStep<T, A>(old(base.State()), base, ObjectFlavour(attrs), destroyCode, initCode, written).slot
      ensures os.log == old(os.log) + InitStep<T, A>(old(base.State()), base, ObjectFlavour(attrs), destroyCode, initCode, written).calls
    {
      var _ := base.Destroy(os, destroyCode);
      os.log := os.log + [ObjectInit(base, attrs)];
      base.obj := written;
      r := base.InitDone(initCode);
    }
  }
}
