/** The engine object: it owns the trackers and the live sessions, and turns configuration
    changes into disabling and enabling of the trackers. Every method is tied to the command
    of `EngineGating` that it carries out. */
module LocationEngine {
  import opened Counters
  import opened Providers
  import T = Tower
  import E = EngineGating

  ghost function SessionValues(sessions: set<Session>): map<Session, T.Session<StateTrackingProvider>>
    reads sessions, (set s | s in sessions :: s.provider.controller)
    reads (set s | s in sessions :: s.provider.fusion.controller)
  {
    map s | s in sessions :: s.Value()
  }

  /** All objects of an engine, its trackers and its sessions are distinct. */
  ghost predicate Laid(engine: object, providers: set<StateTrackingProvider>, sessions: set<Session>) {
    && Separate(providers, {engine})
    && (forall s | s in sessions :: s.Apart() && engine !in s.repr && s.Bag() <= providers)
    && (forall s, r | s in sessions && r in sessions && s != r :: s.repr !! r.repr)
    && (forall t, s | t in providers && s in sessions :: t.repr !! s.repr)
  }

  /** None of `objects` belongs to the engine. */
  ghost predicate Foreign(objects: set<object>, engine: object, providers: set<StateTrackingProvider>, sessions: set<Session>) {
    && engine !in objects
    && (forall t | t in providers :: t.repr !! objects)
    && (forall s | s in sessions :: s.repr !! objects)
  }

  lemma LaidWithProvider(engine: object, providers: set<StateTrackingProvider>, sessions: set<Session>, t: StateTrackingProvider)
    requires Laid(engine, providers, sessions)
    requires t.Apart() && Foreign(t.repr, engine, providers, sessions)
    ensures Laid(engine, providers + {t}, sessions)
  {
  }

  lemma LaidWithSession(engine: object, providers: set<StateTrackingProvider>, sessions: set<Session>, s: Session)
    requires Laid(engine, providers, sessions)
    requires s.Apart() && s.Bag() <= providers && Foreign(s.repr, engine, providers, sessions)
    ensures Laid(engine, providers, sessions + {s})
  {
  }

  /** What `session` drives is separate from everything else in the engine. */
  lemma SessionApart(engine: object, providers: set<StateTrackingProvider>, sessions: set<Session>, session: Session)
    requires Laid(engine, providers, sessions) && session in sessions
    ensures Separate(session.Bag(), session.repr)
    ensures forall t | t in providers && t !in session.Bag() ::
              t !in Driven(session) && t.controller !in Driven(session)
              && t.impl !in Driven(session) && t.impl.controller !in Driven(session)
    ensures forall s | s in sessions && s != session ::
              s !in Driven(session) && s.provider.controller !in Driven(session)
              && s.provider.fusion.controller !in Driven(session)
  {
    forall t | t in providers && t !in session.Bag()
      ensures t.repr !! Driven(session)
    {
    }
  }

  /** The objects of some trackers are not those of anything else in the engine. */
  lemma TargetsApart(engine: object, providers: set<StateTrackingProvider>, sessions: set<Session>,
                     targets: set<StateTrackingProvider>)
    requires Laid(engine, providers, sessions) && targets <= providers
    ensures Separate(targets, {}) && engine !in ReprOf(targets)
    ensures forall t | t in providers && t !in targets ::
              t !in ReprOf(targets) && t.controller !in ReprOf(targets)
              && t.impl !in ReprOf(targets) && t.impl.controller !in ReprOf(targets)
    ensures forall s | s in sessions ::
              s !in ReprOf(targets) && s.provider.controller !in ReprOf(targets)
              && s.provider.fusion.controller !in ReprOf(targets)
  {
    forall t | t in providers && t !in targets
      ensures t.repr !! ReprOf(targets)
    {
    }
  }

  lemma EngineNotDriven(engine: object, providers: set<StateTrackingProvider>, sessions: set<Session>, session: Session)
    requires Laid(engine, providers, sessions) && session in sessions
    ensures engine !in Driven(session)
  {
  }

  /** Every object that `session` may change. */
  ghost function Driven(session: Session): set<object> {
    session.repr + ReprOf(session.Bag())
  }

  class Engine {
    var providers: set<StateTrackingProvider>
    var sessions: set<Session>
    var status: E.Status
    var satellites: bool

    ghost predicate Valid()
      reads this
    {
      Laid(this, providers, sessions)
    }

    ghost function World(): T.World<StateTrackingProvider, Session>
      reads this
      reads providers, (set t | t in providers :: t.controller)
      reads (set t | t in providers :: t.impl), (set t | t in providers :: t.impl.controller)
      reads sessions, (set s | s in sessions :: s.provider.controller)
      reads (set s | s in sessions :: s.provider.fusion.controller)
    {
      T.World(ValuesOf(providers), SessionValues(sessions))
    }

    ghost function Needy(): set<StateTrackingProvider>
      reads this
    {
      set t | t in providers && t.impl.needsSatellites
    }

    ghost function Under(world: T.World<StateTrackingProvider, Session>): E.Engine<StateTrackingProvider, Session>
      reads this
    {
      E.Engine(status, satellites, Needy(), world)
    }

    /** `status` is the one found in the settings. */
    constructor (status: E.Status)
      ensures Valid() && providers == {} && sessions == {}
      ensures Under(World()) == E.Engine(status, true, {}, T.World(map[], map[])) && E.Obeyed(Under(World()))
    {
      providers, sessions := {}, {};
      this.status, satellites := status, true;
    }

    /** How the tracker of a provider that is added now starts out. */
    ghost function Starting(needsSatellites: bool, wrapped: T.Wrapped): T.Tracker
      reads this
    {
      E.Fresh(Under(T.World(map[], map[])), needsSatellites, wrapped)
    }

    method Synchronize(provider: StateTrackingProvider)
      requires provider.Apart() && this !in provider.repr
      requires provider.Value() == T.NewTracker(provider.impl.Value())
      modifies provider.repr
      ensures provider.Value() == Starting(provider.impl.needsSatellites, old(provider.impl.Value()))
    {
      if provider.impl.needsSatellites && !satellites {
        provider.Disable();
      }
      if status == E.TurnedOff {
        provider.Disable();
      }
    }

    /** Wraps `impl` in a tracker that starts out as the configuration asks. */
    method Track(impl: WrappedProvider) returns (provider: StateTrackingProvider)
      requires Valid() && impl.Apart() && Foreign(impl.repr, this, providers, sessions)
      modifies impl.repr
      ensures fresh(provider) && fresh(provider.controller) && provider.impl == impl && provider.Apart()
      ensures provider.Value() == Starting(impl.needsSatellites, old(impl.Value()))
      ensures World() == old(World())
    {
      provider := new StateTrackingProvider(impl);
      Synchronize(provider);
      SessionsAre(sessions, old(World()).sessions);
      TrackersAre(providers, old(World()).trackers);
    }

    method Adopt(provider: StateTrackingProvider)
      requires Valid() && provider.Apart() && Foreign(provider.repr, this, providers, sessions)
      modifies this`providers
      ensures Valid() && providers == old(providers) + {provider}
      ensures World() == T.World(old(World()).trackers[provider := old(provider.Value())], old(World()).sessions)
    {
      LaidWithProvider(this, providers, sessions, provider);
      providers := providers + {provider};
      SessionsAre(sessions, old(World()).sessions);
      TrackersAre(providers, old(World()).trackers[provider := old(provider.Value())]);
    }

    method AddProvider(impl: WrappedProvider) returns (provider: StateTrackingProvider)
      requires Valid() && impl.Apart() && Foreign(impl.repr, this, providers, sessions)
      modifies this`providers, impl.repr
      ensures Valid() && fresh(provider)
      ensures Under(World()) == E.Obey(old(Under(World())), E.AddProvider(provider, impl.needsSatellites, old(impl.Value())))
    {
      provider := Track(impl);
      Adopt(provider);
      E.AddedIsGated(old(Under(World())), provider, impl.needsSatellites, old(impl.Value()));
    }

    method EnableEach(targets: set<StateTrackingProvider>)
      requires Valid() && targets <= providers
      modifies ReprOf(targets)
      ensures World() == T.Step(old(World()), T.Enable(targets))
    {
      ghost var w := T.Step(World(), T.Enable(targets));
      TargetsApart(this, providers, sessions, targets);
      EnableAll(targets);
      SessionsAre(sessions, w.sessions);
      TrackersAre(providers, w.trackers);
    }

    method DisableEach(targets: set<StateTrackingProvider>)
      requires Valid() && targets <= providers
      modifies ReprOf(targets)
      ensures World() == T.Step(old(World()), T.Disable(targets))
    {
      ghost var w := T.Step(World(), T.Disable(targets));
      TargetsApart(this, providers, sessions, targets);
      DisableAll(targets);
      SessionsAre(sessions, w.sessions);
      TrackersAre(providers, w.trackers);
    }

    /** The property changes before its handler runs. */
    method StoreEngine(status: E.Status)
      requires Valid()
      modifies this`status
      ensures Valid() && this.status == status && World() == old(World())
    {
      ghost var w := World();
      this.status := status;
      SessionsAre(sessions, w.sessions);
      TrackersAre(providers, w.trackers);
    }

    method StoreSatellites(on: bool)
      requires Valid()
      modifies this`satellites
      ensures Valid() && satellites == on && World() == old(World())
    {
      ghost var w := World();
      satellites := on;
      SessionsAre(sessions, w.sessions);
      TrackersAre(providers, w.trackers);
    }

    /** The handler of the changed engine state. */
    method EngineChanged()
      requires Valid()
      modifies ReprOf(providers)
      ensures World() == E.OnEngineChanged(old(Under(World())))
    {
      match status {
        case TurnedOn =>
          var targets := set t | t in providers && (t.impl.needsSatellites ==> satellites);
          assert targets == set t | t in World().trackers && (t in Needy() ==> satellites);
          EnableEach(targets);
        case TurnedOff =>
          assert World().trackers.Keys == providers;
          DisableEach(providers);
        case Navigating =>
      }
    }

    method SetEngine(status: E.Status)
      requires Valid()
      modifies this`status, ReprOf(providers)
      ensures Valid()
      ensures Under(World()) == E.Obey(old(Under(World())), E.SetEngine(status))
    {
      E.ObeyEngine(Under(World()), status);
      if this.status != status {
        StoreEngine(status);
        EngineChanged();
      }
    }

    /** The handler of changed satellite based positioning. */
    method SatellitesChanged()
      requires Valid()
      modifies ReprOf(providers)
      ensures World() == E.OnSatellitesChanged(old(Under(World())))
    {
      var needy := set t | t in providers && t.impl.needsSatellites;
      assert needy == Needy();
      if !satellites {
        DisableEach(needy);
      } else if status == E.TurnedOn {
        EnableEach(needy);
      }
    }

    method SetSatellites(on: bool)
      requires Valid()
      modifies this`satellites, ReprOf(providers)
      ensures Valid()
      ensures Under(World()) == E.Obey(old(Under(World())), E.SetSatellites(on))
    {
      E.ObeySatellites(Under(World()), on);
      if satellites != on {
        StoreSatellites(on);
        SatellitesChanged();
      }
    }

    /** All current trackers in a fresh fusion provider, behind a proxy. */
    method MakeSession() returns (session: Session)
      requires Valid()
      ensures fresh(session) && session.Apart() && fresh(session.repr)
      ensures session.Bag() == providers && session.Value() == T.Session({}, NONE, NONE, providers)
      ensures World() == old(World())
    {
      var fusion := new FusionProvider(providers);
      var proxy := new ProxyProvider(fusion);
      session := new Session(proxy);
      SessionsAre(sessions, old(World()).sessions);
      TrackersAre(providers, old(World()).trackers);
    }

    method OpenSession() returns (session: Session)
      requires Valid()
      modifies this`sessions
      ensures Valid() && fresh(session) && session in sessions
      ensures Under(World()) == E.Obey(old(Under(World())), E.OpenSession(session))
    {
      session := MakeSession();
      assert World().trackers.Keys == providers && session !in World().sessions;
      E.RunOne(World(), T.Open(session));
      Admit(session);
    }

    method Admit(session: Session)
      requires Valid() && Foreign(session.repr, this, providers, sessions)
      requires session.Apart() && session.Bag() == providers && session.Value() == T.Session({}, NONE, NONE, providers)
      modifies this`sessions
      ensures Valid() && sessions == old(sessions) + {session}
      ensures World() == T.World(old(World()).trackers, old(World()).sessions[session := T.Session({}, NONE, NONE, providers)])
    {
      ghost var w := World();
      LaidWithSession(this, providers, sessions, session);
      sessions := sessions + {session};
      SessionsAre(sessions, w.sessions[session := T.Session({}, NONE, NONE, providers)]);
      TrackersAre(providers, w.trackers);
    }

    /** One request of `session`; the other sessions and the trackers it does not hold are left alone. */
    method Ask(session: Session, k: Kind, on: bool, ghost w: T.World<StateTrackingProvider, Session>)
      requires Valid() && session in sessions && w == World()
      modifies Driven(session)
      ensures SessionValues(sessions) == w.sessions[session := w.sessions[session].Requested(k, on)]
      ensures forall t | t in providers && t in session.Bag() && w.sessions[session].Reaches(k, on) ::
                t.Value() == w.trackers[t].Requested(k, on)
      ensures forall t | t in providers && !(t in session.Bag() && w.sessions[session].Reaches(k, on)) ::
                t.Value() == w.trackers[t]
    {
      SessionApart(this, providers, sessions, session);
      session.Request(k, on);
      SessionsAre(sessions, w.sessions[session := w.sessions[session].Requested(k, on)]);
    }

    method Request(session: Session, k: Kind, on: bool)
      requires Valid() && session in sessions
      modifies Driven(session)
      ensures World() == T.SessionRequest(old(World()), session, k, on)
    {
      ghost var w := World();
      EngineNotDriven(this, providers, sessions, session);
      Ask(session, k, on, w);
      Settled(session, k, on, w);
    }

    lemma Settled(session: Session, k: Kind, on: bool, w: T.World<StateTrackingProvider, Session>)
      requires session in w.sessions && w.sessions[session].bag == session.Bag() && w.trackers.Keys == providers
      requires SessionValues(sessions) == w.sessions[session := w.sessions[session].Requested(k, on)]
      requires forall t | t in providers && t in session.Bag() && w.sessions[session].Reaches(k, on) ::
                t.Value() == w.trackers[t].Requested(k, on)
      requires forall t | t in providers && !(t in session.Bag() && w.sessions[session].Reaches(k, on)) ::
                t.Value() == w.trackers[t]
      ensures World() == T.SessionRequest(w, session, k, on)
    {
      if w.sessions[session].Reaches(k, on) {
        TrackersAre(providers, T.FanOut(w.trackers, session.Bag(), k, on));
      } else {
        TrackersAre(providers, w.trackers);
      }
    }

    method StoreStatus(session: Session, k: Kind, on: bool)
      requires Valid() && session in sessions
      modifies session`enabled
      ensures session.enabled == if on then old(session.enabled) + {k} else old(session.enabled) - {k}
      ensures World() == old(World()).(sessions := old(World()).sessions[session :=
                old(session.Value()).(enabled := session.enabled)])
    {
      ghost var w := World();
      session.enabled := if on then session.enabled + {k} else session.enabled - {k};
      SessionsAre(sessions, w.sessions[session := w.sessions[session].(enabled := session.enabled)]);
      TrackersAre(providers, w.trackers);
    }

    /** Setting a status property: the handler runs only if the value changes. */
    method ChangeStatus(session: Session, k: Kind, on: bool)
      requires Valid() && session in sessions
      modifies Driven(session)
      ensures World() == T.Step(old(World()), T.SetStatus(session, k, on))
    {
      EngineNotDriven(this, providers, sessions, session);
      if (k in session.enabled) != on {
        StoreStatus(session, k, on);
        Request(session, k, on);
      }
    }

    method SetUpdates(session: Session, k: Kind, on: bool)
      requires Valid() && session in sessions
      modifies Driven(session)
      ensures Valid()
      ensures Under(World()) == E.Obey(old(Under(World())), E.SetUpdates(session, k, on))
    {
      EngineNotDriven(this, providers, sessions, session);
      E.RunOne(World(), T.SetStatus(session, k, on));
      ChangeStatus(session, k, on);
    }

    method Forget(session: Session)
      requires Valid()
      modifies this`sessions
      ensures Valid() && sessions == old(sessions) - {session}
      ensures World() == old(World()).(sessions := old(World()).sessions - {session})
    {
      ghost var w := World();
      sessions := sessions - {session};
      SessionsAre(sessions, w.sessions - {session});
      TrackersAre(providers, w.trackers);
    }

    method StopAll(session: Session)
      requires Valid() && session in sessions
      modifies Driven(session)
      ensures World() == T.SessionRequest(T.SessionRequest(T.SessionRequest(old(World()),
                session, Position, false), session, Heading, false), session, Velocity, false)
    {
      EngineNotDriven(this, providers, sessions, session);
      Request(session, Position, false);
      Request(session, Heading, false);
      Request(session, Velocity, false);
    }

    /** Destruction stops all three kinds, whether or not they are enabled. */
    method Destroy(session: Session)
      requires Valid() && session in sessions
      modifies this`sessions, Driven(session)
      ensures Valid() && sessions == old(sessions) - {session}
      ensures World() == T.Step(old(World()), T.Close(session))
    {
      EngineNotDriven(this, providers, sessions, session);
      StopAll(session);
      Forget(session);
    }

    method CloseSession(session: Session)
      requires Valid() && session in sessions
      modifies this`sessions, Driven(session)
      ensures Valid() && sessions == old(sessions) - {session}
      ensures Under(World()) == E.Obey(old(Under(World())), E.CloseSession(session))
    {
      EngineNotDriven(this, providers, sessions, session);
      E.RunOne(World(), T.Close(session));
      Destroy(session);
    }
  }

  lemma TrackersAre(trackers: set<StateTrackingProvider>, values: map<StateTrackingProvider, T.Tracker>)
    requires values.Keys == trackers
    requires forall t | t in trackers :: t.Value() == values[t]
    ensures ValuesOf(trackers) == values
  {
  }

  lemma SessionsAre(sessions: set<Session>, values: map<Session, T.Session<StateTrackingProvider>>)
    requires values.Keys == sessions
    requires forall s | s in sessions :: s.Value() == values[s]
    ensures SessionValues(sessions) == values
  {
  }
}
