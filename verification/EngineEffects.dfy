/** What each command does, field by field, to the engine's configuration, its sessions, and the
    counters and hooks of every provider. */
module EngineEffects {
  import opened Counters
  import opened Tower
  import opened TowerTheorems
  import opened EngineGating

  /** From `t` to `t'` by one request: the counter moves unless it is negative; only the first
      start and the last stop reach the provider, and of those only its own first and last one
      run its hook. */
  ghost predicate Asked(t: Tracker, t': Tracker, k: Kind, on: bool) {
    var c, w, edge, step := t.counts.Of(k), t.wrapped.counts.Of(k), if on then 0 else 1, if on then 1 else -1;
    && (forall j :: t'.counts.Of(j) == if j == k && c >= 0 then c + step else t.counts.Of(j))
    && (c != edge ==> t'.state == t.state && t'.wrapped == t.wrapped)
    && (c == edge ==>
          && t'.state == (if on then Active else Idle)
          && (forall j :: t'.wrapped.counts.Of(j) == if j == k && w >= 0 then w + step else t.wrapped.counts.Of(j))
          && t'.wrapped.hooks == t.wrapped.hooks + if w == edge then [Hook(k, on)] else [])
  }

  lemma RequestSpelledOut(t: Tracker, k: Kind, on: bool)
    ensures Asked(t, t.Requested(k, on), k, on)
  {
  }

  ghost predicate SameConfiguration<T, S>(g: Engine<T, S>, g': Engine<T, S>) {
    g'.status == g.status && g'.satellites == g.satellites && g'.needy == g.needy
  }

  // ----- Sessions -----

  /** A status property of a live session: its kind is enabled exactly as asked, no other kind and
      no other session changes, and exactly if that is news each tracker in its bag is asked. */
  lemma SetUpdatesSpelledOut<T, S>(g: Engine<T, S>, s: S, k: Kind, on: bool)
    requires Obeyed(g) && s in g.world.sessions
    ensures var g' := Obey(g, SetUpdates(s, k, on));
      var before := g.world.sessions[s];
      && SameConfiguration(g, g')
      && g'.world.sessions.Keys == g.world.sessions.Keys
      && (forall r | r in g.world.sessions && r != s :: g'.world.sessions[r] == g.world.sessions[r])
      && g'.world.sessions[s].bag == before.bag
      && (forall j :: j in g'.world.sessions[s].enabled <==> if j == k then on else j in before.enabled)
      && g'.world.trackers.Keys == g.world.trackers.Keys
      && forall t | t in g.world.trackers ::
           if t in before.bag && (k in before.enabled) != on
           then Asked(g.world.trackers[t], g'.world.trackers[t], k, on)
           else g'.world.trackers[t] == g.world.trackers[t]
  {
    RunOne(g.world, SetStatus(s, k, on));
    StatusSpelledOut(g.world, s, k, on);
    TrackersAsked(g.world, s, k, on);
  }

  lemma {:induction false} StatusSpelledOut<T, S>(w: World<T, S>, s: S, k: Kind, on: bool)
    requires Wired(w) && s in w.sessions
    ensures var w' := Step(w, SetStatus(s, k, on));
      && w'.sessions.Keys == w.sessions.Keys
      && (forall r | r in w.sessions && r != s :: w'.sessions[r] == w.sessions[r])
      && w'.sessions[s].bag == w.sessions[s].bag
      && (forall j :: j in w'.sessions[s].enabled <==> if j == k then on else j in w.sessions[s].enabled)
  {
    if (k in w.sessions[s].enabled) != on {
      StatusStep(w, s, k, on);
      var w' := Step(w, SetStatus(s, k, on));
      forall r | r in w.sessions && r != s
        ensures w'.sessions[r] == w.sessions[r]
      {
        assert r in w'.sessions - {s};
      }
    }
  }

  lemma {:induction false} TrackersAsked<T, S>(w: World<T, S>, s: S, k: Kind, on: bool)
    requires Wired(w) && s in w.sessions
    ensures var w' := Step(w, SetStatus(s, k, on));
      && w'.trackers.Keys == w.trackers.Keys
      && forall t | t in w.trackers ::
           if t in w.sessions[s].bag && (k in w.sessions[s].enabled) != on
           then Asked(w.trackers[t], w'.trackers[t], k, on)
           else w'.trackers[t] == w.trackers[t]
  {
    if (k in w.sessions[s].enabled) != on {
      StatusStep(w, s, k, on);
      forall t | t in w.trackers
      {
        RequestSpelledOut(w.trackers[t], k, on);
      }
    }
  }

  lemma UnknownSessionChangesNothing<T, S>(g: Engine<T, S>, s: S, k: Kind, on: bool)
    requires s !in g.world.sessions
    ensures Obey(g, SetUpdates(s, k, on)) == g && Obey(g, CloseSession(s)) == g
  {
    var e: Event<T, S> := SetStatus(s, k, on);
    RunOne(g.world, e);
    RunOne(g.world, Close(s));
  }

  /** A new session has nothing enabled and holds every tracker there is. */
  lemma OpenSessionSpelledOut<T, S>(g: Engine<T, S>, s: S)
    ensures var g' := Obey(g, OpenSession(s));
      && SameConfiguration(g, g')
      && g'.world.trackers == g.world.trackers
      && g'.world.sessions.Keys == g.world.sessions.Keys + {s}
      && (forall r | r in g.world.sessions :: g'.world.sessions[r] == g.world.sessions[r])
      && (s !in g.world.sessions ==>
            g'.world.sessions[s].enabled == {} && g'.world.sessions[s].bag == g.world.trackers.Keys)
  {
    RunOne(g.world, Open(s));
  }

  /** The stop of kind `j` that closing a session brings to a tracker. */
  ghost predicate Released<T>(t: Tracker, t': Tracker, s: Session<T>, j: Kind) {
    if j in s.enabled then Asked(t, t', j, false) else t' == t
  }

  /** A closed session is gone, and the trackers in its bag are asked to stop what it had enabled:
      position, then heading, then velocity. Nothing else changes. */
  lemma CloseSessionSpelledOut<T, S>(g: Engine<T, S>, s: S)
    requires Obeyed(g) && s in g.world.sessions
    ensures var g' := Obey(g, CloseSession(s));
      var before := g.world.sessions[s];
      && SameConfiguration(g, g')
      && g'.world.sessions == g.world.sessions - {s}
      && g'.world.trackers.Keys == g.world.trackers.Keys
      && forall t | t in g.world.trackers ::
           if t in before.bag
           then exists t1, t2 :: Released(g.world.trackers[t], t1, before, Position)
                              && Released(t1, t2, before, Heading)
                              && Released(t2, g'.world.trackers[t], before, Velocity)
           else g'.world.trackers[t] == g.world.trackers[t]
  {
    RunOne(g.world, Close(s));
    CloseStep(g.world, s);
    var before := g.world.sessions[s];
    forall t | t in g.world.trackers && t in before.bag
      ensures exists t1, t2 :: Released(g.world.trackers[t], t1, before, Position)
                            && Released(t1, t2, before, Heading)
                            && Released(t2, Step(g.world, Close(s)).trackers[t], before, Velocity)
    {
      var t0 := g.world.trackers[t];
      var t1 := Apply(t0, StopOf(before, Position));
      var t2 := Apply(t1, StopOf(before, Heading));
      ApplyAppend(t0, StopOf(before, Position) + StopOf(before, Heading), StopOf(before, Velocity));
      ApplyAppend(t0, StopOf(before, Position), StopOf(before, Heading));
      StopSpelledOut(t0, before, Position);
      StopSpelledOut(t1, before, Heading);
      StopSpelledOut(t2, before, Velocity);
    }
  }

  lemma StopSpelledOut<T>(t: Tracker, s: Session<T>, j: Kind)
    ensures Released(t, Apply(t, StopOf(s, j)), s, j)
  {
    if j in s.enabled {
      assert Apply(t, [Request(j, false)]) == t.Requested(j, false);
      RequestSpelledOut(t, j, false);
    }
  }

  // ----- What a session has enabled, from the commands alone -----

  /** A client as the commands tell of it: gone, or live with kind `k` last switched as said. */
  datatype Client = Gone | Live(on: bool)

  ghost function Heard<T, S>(c: Client, cmd: Command<T, S>, s: S, k: Kind): Client {
    match cmd
    case OpenSession(r) => if r == s && c.Gone? then Live(false) else c
    case CloseSession(r) => if r == s then Gone else c
    case SetUpdates(r, j, on) => if r == s && j == k && c.Live? then Live(on) else c
    case _ => c
  }

  ghost function HeardAll<T, S>(c: Client, cs: seq<Command<T, S>>, s: S, k: Kind): Client
    decreases |cs|
  {
    if cs == [] then c else HeardAll(Heard(c, cs[0], s, k), cs[1..], s, k)
  }

  function ClientOf<T, S>(g: Engine<T, S>, s: S, k: Kind): Client {
    if s in g.world.sessions then Live(k in g.world.sessions[s].enabled) else Gone
  }

  lemma ConfigurationKeepsSessions<T, S>(g: Engine<T, S>, c: Command<T, S>)
    requires Obeyed(g) && (c.AddProvider? || c.SetEngine? || c.SetSatellites?)
    ensures Obey(g, c).world.sessions == g.world.sessions
  {
    match c {
      case AddProvider(t, needs, wrapped) =>
        if t !in g.world.trackers {
          AddedIsGated(g, t, needs, wrapped);
        }
      case SetEngine(status) => ObeyEngine(g, status);
      case SetSatellites(on) => ObeySatellites(g, on);
    }
  }

  lemma ClientAfter<T, S>(g: Engine<T, S>, c: Command<T, S>, s: S, k: Kind)
    requires Obeyed(g)
    ensures ClientOf(Obey(g, c), s, k) == Heard(ClientOf(g, s, k), c, s, k)
  {
    match c {
      case OpenSession(r) => OpenSessionSpelledOut(g, r);
      case CloseSession(r) =>
        if r in g.world.sessions {
          CloseSessionSpelledOut(g, r);
        } else {
          UnknownSessionChangesNothing(g, r, k, true);
        }
      case SetUpdates(r, j, on) =>
        if r in g.world.sessions {
          SetUpdatesSpelledOut(g, r, j, on);
        } else {
          UnknownSessionChangesNothing(g, r, j, on);
        }
      case _ => ConfigurationKeepsSessions(g, c);
    }
  }

  /** After any run of commands a session is live exactly if it was opened and not closed since,
      and has a kind enabled exactly if the last command about both, since then, switched it on. */
  lemma {:induction false} EnabledIffLastSwitchedOn<T, S>(g: Engine<T, S>, cs: seq<Command<T, S>>, s: S, k: Kind)
    requires Obeyed(g)
    ensures ClientOf(ObeyAll(g, cs), s, k) == HeardAll(ClientOf(g, s, k), cs, s, k)
    decreases |cs|
  {
    if cs != [] {
      ClientAfter(g, cs[0], s, k);
      ObeyKeepsGate(g, cs[0]);
      EnabledIffLastSwitchedOn(Obey(g, cs[0]), cs[1..], s, k);
    }
  }

  // ----- Configuration -----

  /** Enabled afresh: nothing is counted, whatever was before, and the provider is not told. */
  predicate Reopened(t: Tracker, t': Tracker) {
    t'.counts == Counts(0, 0, 0) && t'.state == t.state && t'.wrapped == t.wrapped
  }

  /** A change to turned on enables every tracker the satellites allow, and no other. */
  lemma TurnOnSpelledOut<T, S>(g: Engine<T, S>)
    requires Obeyed(g) && g.status != TurnedOn
    ensures var g' := Obey(g, SetEngine(TurnedOn));
      && g'.status == TurnedOn && g'.satellites == g.satellites && g'.needy == g.needy
      && g'.world.sessions == g.world.sessions
      && g'.world.trackers.Keys == g.world.trackers.Keys
      && forall t | t in g.world.trackers ::
           if t in g.needy && !g.satellites then g'.world.trackers[t] == g.world.trackers[t]
           else Reopened(g.world.trackers[t], g'.world.trackers[t])
  {
    ObeyEngine(g, TurnedOn);
  }

  /** A change of the setting to on, while the engine is turned on, enables the trackers that need
      satellites, and no other; while it is not, nothing but the setting changes. */
  lemma SatellitesOnSpelledOut<T, S>(g: Engine<T, S>)
    requires Obeyed(g) && !g.satellites
    ensures var g' := Obey(g, SetSatellites(true));
      && g'.status == g.status && g'.satellites && g'.needy == g.needy
      && g'.world.sessions == g.world.sessions
      && g'.world.trackers.Keys == g.world.trackers.Keys
      && forall t | t in g.world.trackers ::
           if t in g.needy && g.status == TurnedOn then Reopened(g.world.trackers[t], g'.world.trackers[t])
           else g'.world.trackers[t] == g.world.trackers[t]
  {
    ObeySatellites(g, true);
  }

  /** From `t` to `t'` by disabling: every counter is -1, and the provider loses the one request it
      had for each kind that was counted. */
  ghost predicate ShutDown(t: Tracker, t': Tracker) {
    && t'.counts == Counts(-1, -1, -1)
    && t'.state == (if t.counts.AnyPositive() then Idle else t.state)
    && forall k ::
         var w := t.wrapped.counts.Of(k);
         && t'.wrapped.counts.Of(k) == (if t.counts.Of(k) > 0 && w >= 0 then w - 1 else w)
         && Running(t'.wrapped.hooks, k) == (t'.wrapped.counts.Of(k) > 0)
  }

  lemma DisabledSpelledOut(t: Tracker)
    requires Sound(t)
    ensures ShutDown(t, t.Disabled())
  {
    forall k
    {
      DisabledSound(t, k);
    }
  }

  lemma TurnOffSpelledOut<T, S>(g: Engine<T, S>)
    requires Obeyed(g) && Good(g.world) && g.status != TurnedOff
    ensures var g' := Obey(g, SetEngine(TurnedOff));
      && g'.status == TurnedOff && g'.satellites == g.satellites && g'.needy == g.needy
      && g'.world.sessions == g.world.sessions
      && g'.world.trackers.Keys == g.world.trackers.Keys
      && forall t | t in g.world.trackers :: ShutDown(g.world.trackers[t], g'.world.trackers[t])
  {
    ObeyEngine(g, TurnedOff);
    forall t | t in g.world.trackers
    {
      DisabledSpelledOut(g.world.trackers[t]);
    }
  }

  lemma SatellitesOffSpelledOut<T, S>(g: Engine<T, S>)
    requires Obeyed(g) && Good(g.world) && g.satellites
    ensures var g' := Obey(g, SetSatellites(false));
      && g'.status == g.status && !g'.satellites && g'.needy == g.needy
      && g'.world.sessions == g.world.sessions
      && g'.world.trackers.Keys == g.world.trackers.Keys
      && forall t | t in g.world.trackers ::
           if t in g.needy then ShutDown(g.world.trackers[t], g'.world.trackers[t])
           else g'.world.trackers[t] == g.world.trackers[t]
  {
    ObeySatellites(g, false);
    forall t | t in g.world.trackers
    {
      DisabledSpelledOut(g.world.trackers[t]);
    }
  }

  /** Going to navigating, and setting what is set already, leave every tracker alone. */
  lemma QuietSettings<T, S>(g: Engine<T, S>)
    ensures Obey(g, SetEngine(Navigating)) == g.(status := Navigating)
    ensures Obey(g, SetEngine(g.status)) == g
    ensures Obey(g, SetSatellites(g.satellites)) == g
  {
    ObeyEngine(g, Navigating);
    ObeyEngine(g, g.status);
    ObeySatellites(g, g.satellites);
  }

  /** A provider that is new to the engine counts nothing, or is disabled, as the configuration
      asks; what it has been through is kept, and nothing else changes. */
  lemma AddProviderSpelledOut<T, S>(g: Engine<T, S>, t: T, needs: bool, wrapped: Wrapped)
    requires Obeyed(g)
    ensures var g' := Obey(g, AddProvider(t, needs, wrapped));
      if t in g.world.trackers then g' == g
      else
        && g'.status == g.status && g'.satellites == g.satellites
        && g'.needy == (if needs then g.needy + {t} else g.needy)
        && g'.world.sessions == g.world.sessions
        && g'.world.trackers.Keys == g.world.trackers.Keys + {t}
        && (forall u | u in g.world.trackers :: g'.world.trackers[u] == g.world.trackers[u])
        && g'.world.trackers[t] ==
             Tracker(if g.status == TurnedOff || (needs && !g.satellites) then Counts(-1, -1, -1) else Counts(0, 0, 0),
                     Idle, wrapped)
  {
    if t !in g.world.trackers {
      AddedIsGated(g, t, needs, wrapped);
    }
  }
}
