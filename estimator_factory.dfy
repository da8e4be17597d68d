/**
  The estimator factory, `VideoTimingEstimator::Create`.

  The first call runs a one-time discovery. It reads the module path from the
  environment, loads that module and looks up its create and destroy entry
  points. Only if every step succeeds are both entry points remembered, and they
  are then never changed. Each call returns a handle that pairs an instance with
  the deleter that must release it. The handle holds an external instance and
  the module's destroy function when both entry points are known and the
  module's create function returned an instance. Otherwise it holds a new
  default estimator and the default deleter.

  The environment lookup, the module loading and the external create function
  are foreign calls. Their outcomes are the parameters `discovery` and
  `factoryResult`. Function pointers and external objects are opaque identities.
 */
module EstimatorFactory {
  import opened DefaultEstimator

  /** Identity of a resolved `CreateVideoTimingEstimator` entry point. */
  datatype CreateFn = CreateFn(address: nat)

  /** Identity of a resolved `DestroyVideoTimingEstimator` entry point. */
  datatype DestroyFn = DestroyFn(address: nat)

  /** How the one-time discovery ended: at the first step that failed, or with both entry points. */
  datatype Discovery =
    | EnvUnset
    | LoadFailed
    | CreateSymbolMissing
    | DestroySymbolMissing
    | Resolved(create: CreateFn, destroy: DestroyFn)

  /** An estimator object created by the external module. */
  datatype ExternalInstance = ExternalInstance(address: nat)

  /** The release function stored in a handle. */
  datatype Deleter = DefaultDestroy | ModuleDestroy(destroy: DestroyFn)

  /** The object a handle owns. */
  datatype Instance =
    | Builtin(estimator: DefaultVideoTimingEstimator)
    | External(external: ExternalInstance)

  /** An owning handle: the instance and the deleter that must release it. */
  datatype EstimatorPtr = EstimatorPtr(instance: Instance, deleter: Deleter)

  /** The two process-wide entry-point slots; `None` is a null function pointer. */
  datatype EntryPoints = EntryPoints(create: Option<CreateFn>, destroy: Option<DestroyFn>)

  /** What the factory decides for one call. */
  datatype Selection = UseDefault | UseExternal(instance: ExternalInstance, destroy: DestroyFn)

  /** The slots after the one-time discovery: both filled only when it resolved both symbols. */
  function Discover(d: Discovery): EntryPoints {
    match d
    case Resolved(create, destroy) => EntryPoints(Some(create), Some(destroy))
    case _ => EntryPoints(None, None)
  }

  /**
    The decision of one `Create` call. `factoryResult` is what the external
    create function returns; it is consulted only when both slots are filled.
   */
  function Select(slots: EntryPoints, factoryResult: Option<ExternalInstance>): Selection {
    if slots.create == None || slots.destroy == None then UseDefault
    else
      match factoryResult
      case None => UseDefault
      case Some(instance) => UseExternal(instance, slots.destroy.value)
  }

  /** The handle realises the decision: instance and deleter come from the same place. */
  predicate Realises(p: EstimatorPtr, s: Selection) {
    match s
    case UseDefault => p.instance.Builtin? && p.deleter == DefaultDestroy
    case UseExternal(instance, destroy) => p.instance == External(instance) && p.deleter == ModuleDestroy(destroy)
  }

  /** `DefaultVideoTimingEstimator::Create`: a new default estimator with the default deleter. */
  method CreateDefault() returns (p: EstimatorPtr)
    ensures p.instance.Builtin? && p.deleter == DefaultDestroy
    ensures fresh(p.instance.estimator)
    ensures p.instance.estimator.Valid() && p.instance.estimator.rtt == NoSample
  {
    var estimator := new DefaultVideoTimingEstimator();
    p := EstimatorPtr(Builtin(estimator), DefaultDestroy);
  }

  /**
    The function-local statics of `VideoTimingEstimator::Create`: the once flag
    and the two entry-point slots it guards.
   */
  class Registry {
    var loaded: bool
    var moduleCreate: Option<CreateFn>
    var moduleDestroy: Option<DestroyFn>

    /** The slots stay null until discovery has run, and are filled together. */
    ghost predicate Valid()
      reads this
    {
      (!loaded ==> moduleCreate == None && moduleDestroy == None) &&
      (moduleCreate.Some? <==> moduleDestroy.Some?)
    }

    function Slots(): EntryPoints
      reads this
    {
      EntryPoints(moduleCreate, moduleDestroy)
    }

    /** Process start: discovery has not run and both slots are null. */
    constructor ()
      ensures Valid() && !loaded && Slots() == EntryPoints(None, None)
    {
      loaded, moduleCreate, moduleDestroy := false, None, None;
    }

    /** The body run under the once flag: stop at the first failure, else fill both slots. */
    method RunDiscovery(discovery: Discovery)
      requires Valid() && !loaded
      modifies this`moduleCreate, this`moduleDestroy
      ensures Slots() == Discover(discovery)
    {
      match discovery {
        case EnvUnset => return;
        case LoadFailed => return;
        case CreateSymbolMissing => return;
        case DestroySymbolMissing => return;
        case Resolved(create, destroy) =>
          moduleCreate := Some(create);
          moduleDestroy := Some(destroy);
      }
    }

    /**
      `VideoTimingEstimator::Create`. The first call fixes the slots from
      `discovery`; later calls ignore it and leave the slots as they are.
     */
    method Create(discovery: Discovery, factoryResult: Option<ExternalInstance>) returns (p: EstimatorPtr)
      requires Valid()
      modifies this
      ensures Valid() && loaded
      ensures !old(loaded) ==> Slots() == Discover(discovery)
      ensures old(loaded) ==> Slots() == old(Slots())
      ensures Realises(p, Select(Slots(), factoryResult))
      ensures p.instance.Builtin? ==>
        fresh(p.instance.estimator) && p.instance.estimator.Valid() && p.instance.estimator.rtt == NoSample
    {
      if !loaded {
        RunDiscovery(discovery);
        loaded := true;
      }
      if moduleCreate == None || moduleDestroy == None {
        p := CreateDefault();
      } else {
        match factoryResult {
          case None =>
            p := CreateDefault();
          case Some(instance) =>
            p := EstimatorPtr(External(instance), ModuleDestroy(moduleDestroy.value));
        }
      }
    }
  }

  /**
    The factory hands out an external instance exactly when discovery resolved
    both entry points and the external create function returned an instance;
    that instance is then paired with the discovered destroy function.
   */
  lemma ExternalOnlyWhenEverythingSucceeds(d: Discovery, factoryResult: Option<ExternalInstance>)
    ensures Select(Discover(d), factoryResult).UseExternal? <==> d.Resolved? && factoryResult.Some?
    ensures Select(Discover(d), factoryResult).UseExternal? ==>
      Select(Discover(d), factoryResult) == UseExternal(factoryResult.value, d.destroy)
  {
  }

  /**
    Fail-open: an unset environment variable, a module that does not load, a
    missing symbol, or a null instance from the module all yield the default.
   */
  lemma FailOpen(d: Discovery, factoryResult: Option<ExternalInstance>)
    ensures d == EnvUnset ==> Select(Discover(d), factoryResult) == UseDefault
    ensures d == LoadFailed ==> Select(Discover(d), factoryResult) == UseDefault
    ensures d == CreateSymbolMissing ==> Select(Discover(d), factoryResult) == UseDefault
    ensures d == DestroySymbolMissing ==> Select(Discover(d), factoryResult) == UseDefault
    ensures factoryResult == None ==> Select(Discover(d), factoryResult) == UseDefault
  {
  }

  /**
    Whatever the slots and the external create function do, a handle that
    realises the decision carries the deleter of its instance's origin.
   */
  lemma DeleterMatchesOrigin(p: EstimatorPtr, slots: EntryPoints, factoryResult: Option<ExternalInstance>)
    requires Realises(p, Select(slots, factoryResult))
    ensures p.instance.Builtin? <==> p.deleter == DefaultDestroy
    ensures p.instance.External? ==>
      slots.destroy.Some? && p.deleter == ModuleDestroy(slots.destroy.value) &&
      factoryResult == Some(p.instance.external)
  {
  }

  /**
    Two calls on one registry: the second call's discovery outcome is ignored,
    so both calls decide from the slots the first call fixed. A null instance
    from the module makes only its own call fall back: once the first
    discovery resolved, the second call still uses the module.
   */
  method CreateTwice(r: Registry, first: Discovery, second: Discovery,
                     firstResult: Option<ExternalInstance>, secondResult: Option<ExternalInstance>)
    returns (p: EstimatorPtr, q: EstimatorPtr)
    requires r.Valid() && !r.loaded
    modifies r
    ensures r.Slots() == Discover(first)
    ensures Realises(p, Select(Discover(first), firstResult))
    ensures Realises(q, Select(Discover(first), secondResult))
    ensures first.Resolved? && firstResult == None ==> p.instance.Builtin? && p.deleter == DefaultDestroy
    ensures first.Resolved? && secondResult.Some? ==>
      q.instance == External(secondResult.value) && q.deleter == ModuleDestroy(first.destroy)
  {
    p := r.Create(first, firstResult);
    q := r.Create(second, secondResult);
  }
}
