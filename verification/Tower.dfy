/** The tower of providers as a state machine on values: sessions drive a proxy, the proxy
    drives the session's fusion provider, and that fans out to every tracker the session
    saw when it was created. Each tracker drives the one provider that it wraps. */
module Tower {
  import opened Counters

  /** A start or stop hook that the wrapped provider was made to run. */
  datatype Hook = Hook(kind: Kind, on: bool)

  datatype Activity = Active | Idle

  datatype Wrapped = Wrapped(counts: Counts, hooks: seq<Hook>) {
    function Requested(k: Kind, on: bool): Wrapped {
      Wrapped(counts.Requested(k, on),
              if counts.Fires(k, on) then hooks + [Hook(k, on)] else hooks)
    }
  }

  datatype Tracker = Tracker(counts: Counts, state: Activity, wrapped: Wrapped) {
    function Hooked(k: Kind, on: bool): Tracker {
      this.(state := if on then Active else Idle, wrapped := wrapped.Requested(k, on))
    }

    function Requested(k: Kind, on: bool): Tracker {
      var t := this.(counts := counts.Requested(k, on));
      if counts.Fires(k, on) then t.Hooked(k, on) else t
    }

    function StoppedIfRunning(k: Kind): Tracker {
      if counts.Of(k) > 0 then Hooked(k, false) else this
    }

    function Disabled(): Tracker {
      StoppedIfRunning(Position).StoppedIfRunning(Heading).StoppedIfRunning(Velocity).(counts := DISABLED)
    }

    /** Overwrites every counter, whatever it was. */
    function Enabled(): Tracker {
      this.(counts := NONE)
    }
  }

  /** A tracker that counts nothing yet, whatever the provider has been through. */
  function NewTracker(wrapped: Wrapped): Tracker {
    Tracker(NONE, Idle, wrapped)
  }

  /** A provider that no one has used yet. */
  const UNUSED := Wrapped(NONE, [])

  datatype Session<T> = Session(enabled: set<Kind>, proxy: Counts, fusion: Counts, bag: set<T>) {

    /** A request to the proxy gets as far as the trackers. */
    predicate Reaches(k: Kind, on: bool) {
      proxy.Fires(k, on) && fusion.Fires(k, on)
    }

    function Requested(k: Kind, on: bool): Session<T> {
      var proxied := this.(proxy := proxy.Requested(k, on));
      if proxy.Fires(k, on) then proxied.(fusion := fusion.Requested(k, on)) else proxied
    }
  }

  datatype World<T, S> = World(trackers: map<T, Tracker>, sessions: map<S, Session<T>>)

  datatype Event<T, S> =
    | AddTracker(tracker: T, wrapped: Wrapped)
    | Open(session: S)
    | SetStatus(session: S, kind: Kind, on: bool)
    | Close(session: S)
    | Disable(targets: set<T>)
    | Enable(targets: set<T>)

  function FanOut<T>(trackers: map<T, Tracker>, bag: set<T>, k: Kind, on: bool): map<T, Tracker> {
    map t | t in trackers :: if t in bag then trackers[t].Requested(k, on) else trackers[t]
  }

  /** One start or stop request of session `s`, through its proxy and its fusion provider. */
  function SessionRequest<T, S>(w: World<T, S>, s: S, k: Kind, on: bool): World<T, S>
    requires s in w.sessions
  {
    World(if w.sessions[s].Reaches(k, on) then FanOut(w.trackers, w.sessions[s].bag, k, on) else w.trackers,
          w.sessions[s := w.sessions[s].Requested(k, on)])
  }

  function Step<T, S>(w: World<T, S>, e: Event<T, S>): World<T, S> {
    match e
    case AddTracker(t, wrapped) =>
      if t in w.trackers then w else w.(trackers := w.trackers[t := NewTracker(wrapped)])
    case Open(s) =>
      if s in w.sessions then w
      else w.(sessions := w.sessions[s := Session({}, NONE, NONE, w.trackers.Keys)])
    case SetStatus(s, k, on) =>
      if s !in w.sessions || (k in w.sessions[s].enabled) == on then w
      else
        var enabled := if on then w.sessions[s].enabled + {k} else w.sessions[s].enabled - {k};
        SessionRequest(w.(sessions := w.sessions[s := w.sessions[s].(enabled := enabled)]), s, k, on)
    case Close(s) =>
      if s !in w.sessions then w
      else
        var stopped := SessionRequest(SessionRequest(SessionRequest(w,
          s, Position, false), s, Heading, false), s, Velocity, false);
        stopped.(sessions := stopped.sessions - {s})
    case Disable(ts) =>
      w.(trackers := map t | t in w.trackers :: if t in ts then w.trackers[t].Disabled() else w.trackers[t])
    case Enable(ts) =>
      w.(trackers := map t | t in w.trackers :: if t in ts then w.trackers[t].Enabled() else w.trackers[t])
  }

  function Run<T, S>(w: World<T, S>, es: seq<Event<T, S>>): World<T, S>
    decreases |es|
  {
    if es == [] then w else Run(Step(w, es[0]), es[1..])
  }

  // ----- What each tracker sees of a step -----

  datatype Op = Request(kind: Kind, on: bool) | Off | On

  function ApplyOne(t: Tracker, op: Op): Tracker {
    match op
    case Request(k, on) => t.Requested(k, on)
    case Off => t.Disabled()
    case On => t.Enabled()
  }

  function Apply(t: Tracker, ops: seq<Op>): Tracker
    decreases |ops|
  {
    if ops == [] then t else Apply(ApplyOne(t, ops[0]), ops[1..])
  }

  /** Sessions between events: all layers above the trackers agree with the session's status. */
  ghost predicate Wired<T, S>(w: World<T, S>) {
    forall s | s in w.sessions :: w.sessions[s].bag <= w.trackers.Keys && Agrees(w.sessions[s])
  }

  ghost predicate Agrees<T>(s: Session<T>) {
    forall k :: s.proxy.Of(k) == s.fusion.Of(k) == (if k in s.enabled then 1 else 0)
  }

  function StopOf<T>(s: Session<T>, k: Kind): seq<Op> {
    if k in s.enabled then [Request(k, false)] else []
  }

  /** The operations that event `e` amounts to for tracker `t`. */
  function OpsOf<T, S>(w: World<T, S>, e: Event<T, S>, t: T): seq<Op> {
    match e
    case SetStatus(s, k, on) =>
      if s in w.sessions && (k in w.sessions[s].enabled) != on && t in w.sessions[s].bag then [Request(k, on)] else []
    case Close(s) =>
      if s in w.sessions && t in w.sessions[s].bag
      then StopOf(w.sessions[s], Position) + StopOf(w.sessions[s], Heading) + StopOf(w.sessions[s], Velocity)
      else []
    case Disable(ts) => if t in ts then [Off] else []
    case Enable(ts) => if t in ts then [On] else []
    case _ => []
  }

  lemma RequestPassesThrough<T, S>(w: World<T, S>, s: S, k: Kind, on: bool)
    requires s in w.sessions
    requires w.sessions[s].proxy.Of(k) == w.sessions[s].fusion.Of(k) == if on then 0 else 1
    ensures SessionRequest(w, s, k, on) ==
            World(FanOut(w.trackers, w.sessions[s].bag, k, on),
                  w.sessions[s := w.sessions[s].(proxy := w.sessions[s].proxy.Requested(k, on),
                                                 fusion := w.sessions[s].fusion.Requested(k, on))])
  {
  }

  lemma StatusStep<T, S>(w: World<T, S>, s: S, k: Kind, on: bool)
    requires Wired(w) && s in w.sessions && (k in w.sessions[s].enabled) != on
    ensures var w' := Step(w, SetStatus(s, k, on));
            && w'.trackers == FanOut(w.trackers, w.sessions[s].bag, k, on)
            && w'.sessions.Keys == w.sessions.Keys
            && w'.sessions - {s} == w.sessions - {s}
            && w'.sessions[s].bag == w.sessions[s].bag
            && w'.sessions[s].enabled == (if on then w.sessions[s].enabled + {k} else w.sessions[s].enabled - {k})
            && Agrees(w'.sessions[s])
  {
    var before := w.sessions[s];
    var enabled := if on then before.enabled + {k} else before.enabled - {k};
    assert before.proxy.Of(k) == before.fusion.Of(k) == if on then 0 else 1;
    RequestPassesThrough(w.(sessions := w.sessions[s := before.(enabled := enabled)]), s, k, on);
    var after := Step(w, SetStatus(s, k, on)).sessions[s];
    forall j ensures after.proxy.Of(j) == after.fusion.Of(j) == (if j in enabled then 1 else 0) {
      if j != k {
        assert before.proxy.Of(j) == before.fusion.Of(j) == (if j in before.enabled then 1 else 0);
      }
    }
  }

  /** Closing: a kind that is enabled is stopped everywhere below; one that is not only takes
      the proxy's own counter below zero. */
  lemma ClosePart<T, S>(w: World<T, S>, s: S, k: Kind, enabled: set<Kind>)
    requires s in w.sessions
    requires w.sessions[s].proxy.Of(k) == w.sessions[s].fusion.Of(k) == (if k in enabled then 1 else 0)
    ensures var w' := SessionRequest(w, s, k, false);
            && w'.sessions - {s} == w.sessions - {s}
            && w'.sessions[s].bag == w.sessions[s].bag
            && (forall j | j != k :: w'.sessions[s].proxy.Of(j) == w.sessions[s].proxy.Of(j)
                                     && w'.sessions[s].fusion.Of(j) == w.sessions[s].fusion.Of(j))
            && w'.trackers == if k in enabled then FanOut(w.trackers, w.sessions[s].bag, k, false) else w.trackers
  {
    if k in enabled {
      RequestPassesThrough(w, s, k, false);
    }
  }

  lemma {:induction false} ApplyAppend(t: Tracker, xs: seq<Op>, ys: seq<Op>)
    ensures Apply(t, xs + ys) == Apply(Apply(t, xs), ys)
    decreases |xs|
  {
    if xs == [] {
      assert xs + ys == ys;
    } else {
      assert (xs + ys)[1..] == xs[1..] + ys;
      ApplyAppend(ApplyOne(t, xs[0]), xs[1..], ys);
    }
  }

  lemma CloseStep<T, S>(w: World<T, S>, s: S)
    requires Wired(w) && s in w.sessions
    ensures var w' := Step(w, Close(s));
            && w'.trackers.Keys == w.trackers.Keys
            && w'.sessions == w.sessions - {s}
            && forall t | t in w.trackers :: w'.trackers[t] == Apply(w.trackers[t], OpsOf(w, Close(s), t))
  {
    var se := w.sessions[s];
    var w1 := SessionRequest(w, s, Position, false);
    var w2 := SessionRequest(w1, s, Heading, false);
    ClosePart(w, s, Position, se.enabled);
    ClosePart(w1, s, Heading, se.enabled);
    ClosePart(w2, s, Velocity, se.enabled);
    forall t | t in w.trackers && t in se.bag
      ensures Step(w, Close(s)).trackers[t] == Apply(w.trackers[t], OpsOf(w, Close(s), t))
    {
      ApplyAppend(w.trackers[t], StopOf(se, Position) + StopOf(se, Heading), StopOf(se, Velocity));
      ApplyAppend(w.trackers[t], StopOf(se, Position), StopOf(se, Heading));
    }
  }

  /** Every event acts on every tracker as its own list of operations, and keeps the layers
      above the trackers in agreement. */
  lemma StepProjects<T, S>(w: World<T, S>, e: Event<T, S>)
    requires Wired(w)
    ensures Wired(Step(w, e))
    ensures w.trackers.Keys <= Step(w, e).trackers.Keys
    ensures forall t | t in w.trackers :: Step(w, e).trackers[t] == Apply(w.trackers[t], OpsOf(w, e, t))
    ensures forall t | t in Step(w, e).trackers && t !in w.trackers ::
              e.AddTracker? && e.tracker == t && Step(w, e).trackers[t] == NewTracker(e.wrapped)
  {
    match e {
      case SetStatus(s, k, on) =>
        if s in w.sessions && (k in w.sessions[s].enabled) != on {
          StatusStep(w, s, k, on);
        }
      case Close(s) =>
        if s in w.sessions {
          CloseStep(w, s);
        }
      case _ =>
    }
  }
}
