/** The engine's configuration on top of the tower: which trackers it disables and enables,
    and what that guarantees about every run. */
module EngineGating {
  import opened Counters
  import opened Tower
  import opened TowerTheorems

  datatype Status = TurnedOff | TurnedOn | Navigating

  /** `needy` are the trackers whose provider requires satellites. */
  datatype Engine<T, S> = Engine(status: Status, satellites: bool, needy: set<T>, world: World<T, S>) {

    /** The configuration asks for `t` to be disabled. */
    predicate Gated(t: T) {
      status == TurnedOff || (t in needy && !satellites)
    }
  }

  datatype Command<T, S> =
    | AddProvider(tracker: T, needsSatellites: bool, wrapped: Wrapped)
    | SetEngine(status: Status)
    | SetSatellites(on: bool)
    | OpenSession(session: S)
    | SetUpdates(session: S, kind: Kind, on: bool)
    | CloseSession(session: S)

  /** What command `c` does to the tower, in order. */
  function Events<T, S>(g: Engine<T, S>, c: Command<T, S>): seq<Event<T, S>> {
    match c
    case AddProvider(t, needs, wrapped) =>
      if t in g.world.trackers then []
      else
        [AddTracker(t, wrapped)]
        + (if needs && !g.satellites then [Disable({t})] else [])
        + (if g.status == TurnedOff then [Disable({t})] else [])
    case SetEngine(status) =>
      if status == g.status then []
      else (match status
            case TurnedOn => [Enable(set t | t in g.world.trackers && (t in g.needy ==> g.satellites))]
            case TurnedOff => [Disable(g.world.trackers.Keys)]
            case Navigating => [])
    case SetSatellites(on) =>
      if on == g.satellites then []
      else if !on then [Disable(g.needy)]
      else if g.status == TurnedOn then [Enable(g.needy)]
      else []
    case OpenSession(s) => [Open(s)]
    case SetUpdates(s, k, on) => [SetStatus(s, k, on)]
    case CloseSession(s) => [Close(s)]
  }

  function Obey<T, S>(g: Engine<T, S>, c: Command<T, S>): Engine<T, S> {
    var g' := match c
      case AddProvider(t, needs, _) => if needs && t !in g.world.trackers then g.(needy := g.needy + {t}) else g
      case SetEngine(status) => g.(status := status)
      case SetSatellites(on) => g.(satellites := on)
      case _ => g;
    g'.(world := Run(g.world, Events(g, c)))
  }

  function ObeyAll<T, S>(g: Engine<T, S>, cs: seq<Command<T, S>>): Engine<T, S>
    decreases |cs|
  {
    if cs == [] then g else ObeyAll(Obey(g, cs[0]), cs[1..])
  }

  /** Between commands, whatever the configuration gates is disabled. */
  ghost predicate Obeyed<T, S>(g: Engine<T, S>) {
    && Wired(g.world)
    && g.needy <= g.world.trackers.Keys
    && forall t | t in g.world.trackers && g.Gated(t) :: g.world.trackers[t].counts == DISABLED
  }

  lemma RunOne<T, S>(w: World<T, S>, e: Event<T, S>)
    ensures Run(w, [e]) == Step(w, e)
  {
    RunUnfolds(w, [e]);
  }

  lemma RunAppend<T, S>(w: World<T, S>, es: seq<Event<T, S>>, fs: seq<Event<T, S>>)
    ensures Run(w, es + fs) == Run(Run(w, es), fs)
    decreases |es|
  {
    if es == [] {
      assert es + fs == fs;
    } else {
      assert (es + fs)[1..] == es[1..] + fs;
      RunAppend(Step(w, es[0]), es[1..], fs);
    }
  }

  /** The tower after the handler of the engine state, or of the satellites, has run. */
  function OnEngineChanged<T, S>(g: Engine<T, S>): World<T, S> {
    match g.status
    case TurnedOn => Step(g.world, Enable(set t | t in g.world.trackers && (t in g.needy ==> g.satellites)))
    case TurnedOff => Step(g.world, Disable(g.world.trackers.Keys))
    case Navigating => g.world
  }

  function OnSatellitesChanged<T, S>(g: Engine<T, S>): World<T, S> {
    if !g.satellites then Step(g.world, Disable(g.needy))
    else if g.status == TurnedOn then Step(g.world, Enable(g.needy))
    else g.world
  }

  lemma ObeyEngine<T, S>(g: Engine<T, S>, status: Status)
    ensures Obey(g, SetEngine(status))
         == if status == g.status then g
            else g.(status := status, world := OnEngineChanged(g.(status := status)))
  {
    var es := Events(g, SetEngine(status));
    if es != [] {
      assert es == [es[0]];
      RunOne(g.world, es[0]);
    }
  }

  lemma ObeySatellites<T, S>(g: Engine<T, S>, on: bool)
    ensures Obey(g, SetSatellites(on))
         == if on == g.satellites then g
            else g.(satellites := on, world := OnSatellitesChanged(g.(satellites := on)))
  {
    var es := Events(g, SetSatellites(on));
    if es != [] {
      assert es == [es[0]];
      RunOne(g.world, es[0]);
    }
  }

  lemma DisabledIgnores(t: Tracker, ops: seq<Op>)
    requires t.counts == DISABLED
    requires On !in ops
    ensures Apply(t, ops) == t
    decreases |ops|
  {
    if ops != [] {
      assert ApplyOne(t, ops[0]) == t by {
        if ops[0].Request? {
          assert t.counts.Requested(ops[0].kind, ops[0].on) == t.counts;
        }
      }
      DisabledIgnores(t, ops[1..]);
    }
  }

  /** A disabled tracker is untouched by any event that does not enable it. */
  lemma DisabledStaysSilent<T, S>(w: World<T, S>, e: Event<T, S>, t: T)
    requires Wired(w) && t in w.trackers && w.trackers[t].counts == DISABLED
    requires e.Enable? ==> t !in e.targets
    ensures t in Step(w, e).trackers && Step(w, e).trackers[t] == w.trackers[t]
  {
    StepProjects(w, e);
    OnlyEnableTurnsOn(w, e, t);
    DisabledIgnores(w.trackers[t], OpsOf(w, e, t));
  }

  lemma RunSilent<T, S>(w: World<T, S>, es: seq<Event<T, S>>, t: T)
    requires Wired(w) && t in w.trackers && w.trackers[t].counts == DISABLED
    requires forall e | e in es && e.Enable? :: t !in e.targets
    ensures t in Run(w, es).trackers && Run(w, es).trackers[t] == w.trackers[t]
    decreases |es|
  {
    if es != [] {
      assert es[0] in es;
      StepProjects(w, es[0]);
      DisabledStaysSilent(w, es[0], t);
      RunSilent(Step(w, es[0]), es[1..], t);
    }
  }

  /** How a tracker starts out that is added now. */
  function Fresh<T, S>(g: Engine<T, S>, needs: bool, wrapped: Wrapped): Tracker {
    NewTracker(wrapped).(counts := if g.status == TurnedOff || (needs && !g.satellites) then DISABLED else NONE)
  }

  /** The provider added by a command is disabled at once if the configuration gates it. */
  lemma AddedIsGated<T, S>(g: Engine<T, S>, t: T, needs: bool, wrapped: Wrapped)
    requires t !in g.world.trackers && t !in g.needy
    ensures Obey(g, AddProvider(t, needs, wrapped)) ==
            Engine(g.status, g.satellites, if needs then g.needy + {t} else g.needy,
                   World(g.world.trackers[t := Fresh(g, needs, wrapped)], g.world.sessions))
  {
    var add := AddTracker(t, wrapped);
    var w1 := Step(g.world, add);
    var off: Event<T, S> := Disable({t});
    var first: seq<Event<T, S>> := if needs && !g.satellites then [off] else [];
    var second: seq<Event<T, S>> := if g.status == TurnedOff then [off] else [];
    RunAppend(g.world, [add] + first, second);
    RunAppend(g.world, [add], first);
    RunOne(g.world, add);
    RunOne(w1, off);
    RunOne(Run(w1, first), off);
    assert Run(w1, []) == w1;
    assert Run(Run(w1, first), []) == Run(w1, first);
    assert Events(g, AddProvider(t, needs, wrapped)) == [add] + first + second;
    assert NewTracker(wrapped).Disabled() == NewTracker(wrapped).(counts := DISABLED);
    assert NewTracker(wrapped).(counts := DISABLED).Disabled() == NewTracker(wrapped).(counts := DISABLED);
  }

  lemma ConfigurationKeepsGate<T, S>(g: Engine<T, S>, c: Command<T, S>)
    requires Obeyed(g) && (c.SetEngine? || c.SetSatellites?)
    ensures Obeyed(Obey(g, c))
  {
    var es := Events(g, c);
    if es != [] {
      assert es == [es[0]];
      RunOne(g.world, es[0]);
      StepProjects(g.world, es[0]);
    }
  }

  lemma SessionKeepsGate<T, S>(g: Engine<T, S>, c: Command<T, S>)
    requires Obeyed(g) && (c.OpenSession? || c.SetUpdates? || c.CloseSession?)
    ensures Obeyed(Obey(g, c))
  {
    var e := Events(g, c)[0];
    assert Events(g, c) == [e];
    RunOne(g.world, e);
    StepProjects(g.world, e);
    var g' := Obey(g, c);
    forall t | t in g'.world.trackers && g'.Gated(t) ensures g'.world.trackers[t].counts == DISABLED {
      assert t in g.world.trackers;
      DisabledStaysSilent(g.world, e, t);
    }
  }

  lemma ObeyKeepsGate<T, S>(g: Engine<T, S>, c: Command<T, S>)
    requires Obeyed(g)
    ensures Obeyed(Obey(g, c))
  {
    match c {
      case AddProvider(t, needs, wrapped) =>
        if t !in g.world.trackers {
          AddedIsGated(g, t, needs, wrapped);
        }
      case SetEngine(_) => ConfigurationKeepsGate(g, c);
      case SetSatellites(_) => ConfigurationKeepsGate(g, c);
      case _ => SessionKeepsGate(g, c);
    }
  }

  /** After any run of commands, whatever the configuration gates is disabled. */
  lemma {:induction false} GateHoldsThroughout<T, S>(g: Engine<T, S>, cs: seq<Command<T, S>>)
    requires Obeyed(g)
    ensures Obeyed(ObeyAll(g, cs))
    decreases |cs|
  {
    if cs != [] {
      ObeyKeepsGate(g, cs[0]);
      GateHoldsThroughout(Obey(g, cs[0]), cs[1..]);
    }
  }

  /** A gated provider runs no hook, neither start nor stop, whatever the command. */
  lemma GatedProviderIsSilent<T, S>(g: Engine<T, S>, c: Command<T, S>, t: T)
    requires Obeyed(g) && t in g.world.trackers && g.Gated(t)
    ensures t in Obey(g, c).world.trackers
    ensures Obey(g, c).world.trackers[t].wrapped == g.world.trackers[t].wrapped
  {
    match c {
      case AddProvider(u, needs, wrapped) =>
        if u !in g.world.trackers {
          AddedIsGated(g, u, needs, wrapped);
        }
      case SetEngine(_) => ConfigurationIsSilent(g, c, t);
      case SetSatellites(_) => ConfigurationIsSilent(g, c, t);
      case _ =>
        var e := Events(g, c)[0];
        assert Events(g, c) == [e];
        RunOne(g.world, e);
        DisabledStaysSilent(g.world, e, t);
    }
  }

  lemma ConfigurationIsSilent<T, S>(g: Engine<T, S>, c: Command<T, S>, t: T)
    requires Obeyed(g) && t in g.world.trackers && g.Gated(t) && (c.SetEngine? || c.SetSatellites?)
    ensures t in Obey(g, c).world.trackers
    ensures Obey(g, c).world.trackers[t].wrapped == g.world.trackers[t].wrapped
  {
    var es := Events(g, c);
    if es != [] {
      assert es == [es[0]];
      RunOne(g.world, es[0]);
    }
  }

  // ----- When the engine itself enables a counted controller -----

  /** The engine is turned on while it is navigating and some ungated tracker counts a request. */
  ghost predicate Resets<T, S>(g: Engine<T, S>, c: Command<T, S>) {
    && c == SetEngine(TurnedOn)
    && g.status == Navigating
    && exists t | t in g.world.trackers :: !g.Gated(t) && g.world.trackers[t].counts.AnyPositive()
  }

  lemma OverwritesIffResets<T, S>(g: Engine<T, S>, c: Command<T, S>)
    requires Obeyed(g) && Events(g, c) != []
    ensures Overwrites(g.world, Events(g, c)[0]) <==> Resets(g, c)
  {
    var e := Events(g, c)[0];
    if Overwrites(g.world, e) {
      var t :| t in g.world.trackers && t in e.targets && g.world.trackers[t].counts.AnyPositive();
      assert !g.Gated(t);
    }
    if Resets(g, c) {
      var t :| t in g.world.trackers && !g.Gated(t) && g.world.trackers[t].counts.AnyPositive();
      assert t in e.targets;
    }
  }

  /** The provider that is added counts something already. */
  ghost predicate BringsCounted<T, S>(g: Engine<T, S>, c: Command<T, S>) {
    c.AddProvider? && c.tracker !in g.world.trackers && c.wrapped.counts != NONE
  }

  /** Of a provider that is added: it has run its hooks as its counters say. */
  ghost predicate Sane<T, S>(c: Command<T, S>) {
    c.AddProvider? ==> Sound(NewTracker(c.wrapped))
  }

  lemma FreshIsSound<T, S>(g: Engine<T, S>, needs: bool, wrapped: Wrapped)
    requires Sound(NewTracker(wrapped))
    ensures Sound(Fresh(g, needs, wrapped))
    ensures Aligned(Fresh(g, needs, wrapped)) <==> wrapped.counts == NONE
  {
    var t := Fresh(g, needs, wrapped);
    NewIsAlignedIffUncounted(wrapped);
    forall k
      ensures SoundFor(t, k) && (t.counts.Of(k) > 0 <==> NewTracker(wrapped).counts.Of(k) > 0)
    {
      assert SoundFor(NewTracker(wrapped), k);
    }
  }

  lemma ObeyAligned<T, S>(g: Engine<T, S>, c: Command<T, S>)
    requires Obeyed(g) && Good(g.world) && Sane(c)
    ensures Good(Obey(g, c).world)
    ensures AllAligned(g.world) ==>
              (AllAligned(Obey(g, c).world) <==> !Resets(g, c) && !BringsCounted(g, c))
  {
    var es := Events(g, c);
    if c.AddProvider? {
      if c.tracker !in g.world.trackers {
        AddedIsGated(g, c.tracker, c.needsSatellites, c.wrapped);
        FreshIsSound(g, c.needsSatellites, c.wrapped);
        var added := Obey(g, c).world.trackers;
        assert added[c.tracker] == Fresh(g, c.needsSatellites, c.wrapped);
        assert forall t | t in g.world.trackers :: t in added && added[t] == g.world.trackers[t];
      }
    } else if es != [] {
      assert es == [es[0]];
      RunOne(g.world, es[0]);
      StepGood(g.world, es[0]);
      OverwritesIffResets(g, c);
    }
  }

  ghost predicate AlwaysAlignedUnder<T, S>(g: Engine<T, S>, cs: seq<Command<T, S>>)
    decreases |cs|
  {
    AllAligned(g.world) && (cs != [] ==> AlwaysAlignedUnder(Obey(g, cs[0]), cs[1..]))
  }

  ghost predicate NeverUpsetUnder<T, S>(g: Engine<T, S>, cs: seq<Command<T, S>>)
    decreases |cs|
  {
    cs != [] ==> !Resets(g, cs[0]) && !BringsCounted(g, cs[0]) && NeverUpsetUnder(Obey(g, cs[0]), cs[1..])
  }

  /** Under the engine, trackers and wrapped providers agree throughout exactly when it is never
      turned on from navigating while an ungated tracker counts a request, and is never given a
      provider that counts one already. */
  lemma {:induction false} EngineAlignedIffNeverUpset<T, S>(g: Engine<T, S>, cs: seq<Command<T, S>>)
    requires Obeyed(g) && Good(g.world) && AllAligned(g.world) && forall c | c in cs :: Sane(c)
    ensures AlwaysAlignedUnder(g, cs) <==> NeverUpsetUnder(g, cs)
    decreases |cs|
  {
    if cs != [] {
      assert cs[0] in cs;
      ObeyKeepsGate(g, cs[0]);
      ObeyAligned(g, cs[0]);
      if !Resets(g, cs[0]) && !BringsCounted(g, cs[0]) {
        EngineAlignedIffNeverUpset(Obey(g, cs[0]), cs[1..]);
      }
    }
  }

  // ----- The engine itself can strand a provider -----

  lemma ObeyAllOne<T, S>(g: Engine<T, S>, cs: seq<Command<T, S>>)
    requires cs != []
    ensures ObeyAll(g, cs) == ObeyAll(Obey(g, cs[0]), cs[1..])
  {
  }

  lemma ObeyOne<T, S>(g: Engine<T, S>, c: Command<T, S>, e: Event<T, S>)
    requires Events(g, c) == [e]
    ensures Obey(g, c).world == Step(g.world, e)
  {
    RunOne(g.world, e);
  }

  /** A session starts a provider, the engine goes navigating and is turned on again, the session
      closes: the provider runs on for nobody. */
  lemma {:induction false} EngineCanStrandAProvider(t: int, s: int)
    ensures var g := ObeyAll(Engine(TurnedOn, true, {}, World(map[], map[])),
                             [AddProvider(t, false, UNUSED), OpenSession(s), SetUpdates(s, Position, true),
                              SetEngine(Navigating), SetEngine(TurnedOn), CloseSession(s)]);
            && g.world.sessions == map[]
            && t in g.world.trackers
            && Running(g.world.trackers[t].wrapped.hooks, Position)
  {
    var g0: Engine<int, int> := Engine(TurnedOn, true, {}, World(map[], map[]));
    var cs := [AddProvider(t, false, UNUSED), OpenSession(s), SetUpdates(s, Position, true),
               SetEngine(Navigating), SetEngine(TurnedOn), CloseSession(s)];
    var g3 := StartedSession(t, s, cs);
    var g4 := Obey(g3, cs[3]);
    ObeyEngine(g3, Navigating);
    var g5 := Obey(g4, cs[4]);
    ObeyEngine(g4, TurnedOn);
    assert (set u | u in g4.world.trackers && (u in g4.needy ==> g4.satellites)) == {t};
    var g6 := Obey(g5, cs[5]);
    ObeyOne(g5, cs[5], Close(s));
    ObeyAllOne(g3, cs[3..]);
    ObeyAllOne(g4, cs[4..]);
    ObeyAllOne(g5, cs[5..]);
    var w := StrandingSteps<int, int>(t, s);
  }

  lemma {:induction false} StartedSession(t: int, s: int, cs: seq<Command<int, int>>) returns (g: Engine<int, int>)
    requires |cs| >= 3 && cs[..3] == [AddProvider(t, false, UNUSED), OpenSession(s), SetUpdates(s, Position, true)]
    ensures ObeyAll(Engine(TurnedOn, true, {}, World(map[], map[])), cs) == ObeyAll(g, cs[3..])
    ensures g == Engine(TurnedOn, true, {}, Step(Step(Step(World(map[], map[]),
                          AddTracker(t, UNUSED)), Open(s)), SetStatus(s, Position, true)))
    ensures g.world.trackers.Keys == {t}
  {
    var g0: Engine<int, int> := Engine(TurnedOn, true, {}, World(map[], map[]));
    var c0, c1, c2 := cs[..3][0], cs[..3][1], cs[..3][2];
    assert Events(g0, c0) == [AddTracker(t, UNUSED)];
    ObeyOne(g0, c0, AddTracker(t, UNUSED));
    var g1 := Obey(g0, c0);
    ObeyOne(g1, c1, Open(s));
    var g2 := Obey(g1, c1);
    ObeyOne(g2, c2, SetStatus(s, Position, true));
    g := Obey(g2, c2);
    StepProjects(g2.world, SetStatus(s, Position, true));
    ObeyAllOne(g0, cs);
    ObeyAllOne(g1, cs[1..]);
    ObeyAllOne(g2, cs[2..]);
  }
}
