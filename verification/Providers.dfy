/** The providers as objects: each owns a controller and drives the layer below it. Every
    method states its new state through the values of `Tower`. */
module Providers {
  import opened Counters
  import T = Tower

  /** A provider given to the engine; `hooks` records the start and stop hooks it ran. */
  class WrappedProvider {
    const controller: Controller
    const needsSatellites: bool
    var hooks: seq<T.Hook>
    ghost const repr: set<object>

    /** `repr` holds exactly the objects of this provider, all of them different. */
    ghost predicate Apart() {
      repr == {this, controller}
    }

    ghost function Value(): T.Wrapped
      reads this, controller
    {
      T.Wrapped(controller.Value(), hooks)
    }

    constructor (needsSatellites: bool)
      ensures Value() == T.Wrapped(NONE, []) && fresh(controller)
      ensures this.needsSatellites == needsSatellites && Apart()
    {
      controller := new Controller();
      this.needsSatellites := needsSatellites;
      hooks := [];
      repr := {this, controller};
    }

    method StartUpdates(k: Kind)
      requires Apart()
      modifies repr
      ensures Value() == old(Value()).Requested(k, true)
    {
      var fire := controller.Start(k);
      if fire {
        hooks := hooks + [T.Hook(k, true)];
      }
    }

    method StopUpdates(k: Kind)
      requires Apart()
      modifies repr
      ensures Value() == old(Value()).Requested(k, false)
    {
      var fire := controller.Stop(k);
      if fire {
        hooks := hooks + [T.Hook(k, false)];
      }
    }
  }

  /** Keeps one activity state for all three kinds and forwards to the wrapped provider. */
  class StateTrackingProvider {
    const controller: Controller
    const impl: WrappedProvider
    var state: T.Activity
    ghost const repr: set<object>

    ghost predicate Apart() {
      && repr == {this, controller} + impl.repr
      && controller !in impl.repr && this !in impl.repr
      && impl.Apart()
    }

    ghost function Value(): T.Tracker
      reads this, controller, impl, impl.controller
    {
      T.Tracker(controller.Value(), state, impl.Value())
    }

    constructor (impl: WrappedProvider)
      requires impl.Apart()
      ensures this.impl == impl && fresh(controller) && Apart()
      ensures Value() == T.Tracker(NONE, T.Idle, impl.Value())
    {
      controller := new Controller();
      this.impl := impl;
      state := T.Idle;
      repr := {this, controller} + impl.repr;
    }

    method StartHook(k: Kind)
      requires Apart()
      modifies this, impl.repr
      ensures Value() == old(Value()).Hooked(k, true)
    {
      state := T.Active;
      impl.StartUpdates(k);
    }

    method StopHook(k: Kind)
      requires Apart()
      modifies this, impl.repr
      ensures Value() == old(Value()).Hooked(k, false)
    {
      state := T.Idle;
      impl.StopUpdates(k);
    }

    method StartUpdates(k: Kind)
      requires Apart()
      modifies repr
      ensures Value() == old(Value()).Requested(k, true)
    {
      var fire := controller.Start(k);
      if fire {
        StartHook(k);
      }
    }

    method StopUpdates(k: Kind)
      requires Apart()
      modifies repr
      ensures Value() == old(Value()).Requested(k, false)
    {
      var fire := controller.Stop(k);
      if fire {
        StopHook(k);
      }
    }

    method Request(k: Kind, on: bool)
      requires Apart()
      modifies repr
      ensures Value() == old(Value()).Requested(k, on)
    {
      if on {
        StartUpdates(k);
      } else {
        StopUpdates(k);
      }
    }

    method Disable()
      requires Apart()
      modifies repr
      ensures Value() == old(Value()).Disabled()
    {
      if controller.Counter(Position) > 0 {
        StopHook(Position);
      }
      if controller.Counter(Heading) > 0 {
        StopHook(Heading);
      }
      if controller.Counter(Velocity) > 0 {
        StopHook(Velocity);
      }
      controller.MarkDisabled();
    }

    method Enable()
      requires Apart()
      modifies repr
      ensures Value() == old(Value()).Enabled()
    {
      controller.Enable();
    }
  }

  /** Trackers whose objects are pairwise distinct, and distinct from `others`. */
  ghost predicate Separate(trackers: set<StateTrackingProvider>, others: set<object>) {
    && (forall t | t in trackers :: t.Apart() && t.repr !! others)
    && (forall t, u | t in trackers && u in trackers && t != u :: t.repr !! u.repr)
  }

  ghost function ReprOf(trackers: set<StateTrackingProvider>): set<object> {
    set t, o | t in trackers && o in t.repr :: o
  }

  ghost function ValuesOf(trackers: set<StateTrackingProvider>): map<StateTrackingProvider, T.Tracker>
    reads trackers, (set t | t in trackers :: t.controller)
    reads (set t | t in trackers :: t.impl), (set t | t in trackers :: t.impl.controller)
  {
    map t | t in trackers :: t.Value()
  }

  method DisableAll(trackers: set<StateTrackingProvider>)
    requires Separate(trackers, {})
    modifies ReprOf(trackers)
    ensures forall t | t in trackers :: t.Value() == old(t.Value()).Disabled()
  {
    var todo := trackers;
    while todo != {}
      invariant todo <= trackers
      invariant forall t | t in todo :: t.Value() == old(t.Value())
      invariant forall t | t in trackers && t !in todo :: t.Value() == old(t.Value()).Disabled()
    {
      var t :| t in todo;
      assert t.repr <= ReprOf(trackers);
      t.Disable();
      todo := todo - {t};
    }
  }

  method EnableAll(trackers: set<StateTrackingProvider>)
    requires Separate(trackers, {})
    modifies ReprOf(trackers)
    ensures forall t | t in trackers :: t.Value() == old(t.Value()).Enabled()
  {
    var todo := trackers;
    while todo != {}
      invariant todo <= trackers
      invariant forall t | t in todo :: t.Value() == old(t.Value())
      invariant forall t | t in trackers && t !in todo :: t.Value() == old(t.Value()).Enabled()
    {
      var t :| t in todo;
      assert t.repr <= ReprOf(trackers);
      t.Enable();
      todo := todo - {t};
    }
  }

  /** Fans a request out to every tracker of its bag, in no particular order. */
  class FusionProvider {
    const controller: Controller
    const providers: set<StateTrackingProvider>

    constructor (providers: set<StateTrackingProvider>)
      ensures this.providers == providers && fresh(controller) && controller.Value() == NONE
    {
      controller := new Controller();
      this.providers := providers;
    }

    method FanOut(k: Kind, on: bool)
      requires Separate(providers, {})
      modifies ReprOf(providers)
      ensures forall t | t in providers :: t.Value() == old(t.Value()).Requested(k, on)
    {
      var todo := providers;
      while todo != {}
        invariant todo <= providers
        invariant forall t | t in todo :: t.Value() == old(t.Value())
        invariant forall t | t in providers && t !in todo :: t.Value() == old(t.Value()).Requested(k, on)
      {
        var t :| t in todo;
        assert t.repr <= ReprOf(providers);
        t.Request(k, on);
        todo := todo - {t};
      }
    }

    method StartUpdates(k: Kind)
      requires Separate(providers, {this, controller})
      modifies controller, ReprOf(providers)
      ensures controller.Value() == old(controller.Value()).Requested(k, true)
      ensures forall t | t in providers ::
                t.Value() == if old(controller.Value()).Fires(k, true) then old(t.Value()).Requested(k, true) else old(t.Value())
    {
      var fire := controller.Start(k);
      if fire {
        FanOut(k, true);
      }
    }

    method StopUpdates(k: Kind)
      requires Separate(providers, {this, controller})
      modifies controller, ReprOf(providers)
      ensures controller.Value() == old(controller.Value()).Requested(k, false)
      ensures forall t | t in providers ::
                t.Value() == if old(controller.Value()).Fires(k, false) then old(t.Value()).Requested(k, false) else old(t.Value())
    {
      var fire := controller.Stop(k);
      if fire {
        FanOut(k, false);
      }
    }
  }

  /** Forwards every kind to the fusion provider that the selection named for all three. */
  class ProxyProvider {
    const controller: Controller
    const fusion: FusionProvider

    constructor (fusion: FusionProvider)
      ensures this.fusion == fusion && fresh(controller) && controller.Value() == NONE
    {
      controller := new Controller();
      this.fusion := fusion;
    }
  }

  /** A client session; `enabled` holds the kinds whose status property is `enabled`. */
  class Session {
    const provider: ProxyProvider
    var enabled: set<Kind>
    ghost const repr: set<object>

    ghost predicate Apart() {
      && repr == {this, provider, provider.controller, provider.fusion, provider.fusion.controller}
      && provider.controller != provider.fusion.controller
    }

    ghost function Bag(): set<StateTrackingProvider> {
      provider.fusion.providers
    }

    ghost function Value(): T.Session<StateTrackingProvider>
      reads this, provider.controller, provider.fusion.controller
    {
      T.Session(enabled, provider.controller.Value(), provider.fusion.controller.Value(), Bag())
    }

    constructor (provider: ProxyProvider)
      requires provider.controller != provider.fusion.controller
      ensures this.provider == provider && Apart()
      ensures enabled == {}
    {
      this.provider := provider;
      enabled := {};
      repr := {this, provider, provider.controller, provider.fusion, provider.fusion.controller};
    }

    method StartUpdates(k: Kind)
      requires Apart() && Separate(Bag(), repr)
      modifies provider.controller, provider.fusion.controller, ReprOf(Bag())
      ensures Value() == old(Value()).Requested(k, true)
      ensures forall t | t in Bag() ::
                t.Value() == if old(Value()).Reaches(k, true) then old(t.Value()).Requested(k, true) else old(t.Value())
    {
      var fire := provider.controller.Start(k);
      if fire {
        provider.fusion.StartUpdates(k);
      }
    }

    method StopUpdates(k: Kind)
      requires Apart() && Separate(Bag(), repr)
      modifies provider.controller, provider.fusion.controller, ReprOf(Bag())
      ensures Value() == old(Value()).Requested(k, false)
      ensures forall t | t in Bag() ::
                t.Value() == if old(Value()).Reaches(k, false) then old(t.Value()).Requested(k, false) else old(t.Value())
    {
      var fire := provider.controller.Stop(k);
      if fire {
        provider.fusion.StopUpdates(k);
      }
    }

    method Request(k: Kind, on: bool)
      requires Apart() && Separate(Bag(), repr)
      modifies provider.controller, provider.fusion.controller, ReprOf(Bag())
      ensures Value() == old(Value()).Requested(k, on)
      ensures forall t | t in Bag() ::
                t.Value() == if old(Value()).Reaches(k, on) then old(t.Value()).Requested(k, on) else old(t.Value())
    {
      if on {
        StartUpdates(k);
      } else {
        StopUpdates(k);
      }
    }
  }
}
