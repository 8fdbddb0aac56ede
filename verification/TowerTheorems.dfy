/** What every run of the tower keeps. */
module TowerTheorems {
  import opened Counters
  import opened Tower

  // ----- One tracker and the provider it wraps -----

  /** Whether kind `k` is running after the hooks `h`. */
  function Running(h: seq<Hook>, k: Kind): bool {
    if h == [] then false
    else if h[|h| - 1].kind == k then h[|h| - 1].on
    else Running(h[..|h| - 1], k)
  }

  /** Starts and stops of `k` strictly alternate, a start coming first. */
  ghost predicate Alternates(h: seq<Hook>, k: Kind) {
    forall i | 0 <= i < |h| && h[i].kind == k :: h[i].on != Running(h[..i], k)
  }

  /** A wrapped provider that was stopped once too often ignores that kind for good. */
  ghost predicate SoundFor(t: Tracker, k: Kind) {
    && t.counts.Of(k) >= -1
    && Heeds(t, k)
    && Consistent(t.wrapped, k)
  }

  predicate Heeds(t: Tracker, k: Kind) {
    t.wrapped.counts.Of(k) == -1 || t.wrapped.counts.Of(k) >= if t.counts.Of(k) > 0 then 1 else 0
  }

  ghost predicate Consistent(w: Wrapped, k: Kind) {
    Alternates(w.hooks, k) && Running(w.hooks, k) == (w.counts.Of(k) > 0)
  }

  ghost predicate Sound(t: Tracker) {
    forall k :: SoundFor(t, k)
  }

  /** The wrapped provider runs a kind exactly when the tracker counts a request for it, and
      the tracker reports itself active only if it counts some request. */
  ghost predicate Aligned(t: Tracker) {
    && (forall k :: t.wrapped.counts.Of(k) == if t.counts.Of(k) > 0 then 1 else 0)
    && (t.state == Active ==> t.counts.AnyPositive())
  }

  lemma AppendHook(h: seq<Hook>, x: Hook, k: Kind)
    requires Alternates(h, k)
    requires x.kind == k ==> x.on != Running(h, k)
    ensures Alternates(h + [x], k)
    ensures Running(h + [x], k) == if x.kind == k then x.on else Running(h, k)
  {
    assert (h + [x])[..|h|] == h;
    forall i | 0 <= i < |h| + 1 && (h + [x])[i].kind == k
      ensures (h + [x])[i].on != Running((h + [x])[..i], k)
    {
      assert (h + [x])[..i] == h[..i];
      if i == |h| {
        assert h[..i] == h;
      }
    }
  }

  /** One request to a wrapped provider that ignores it or whose count allows it. */
  lemma WrappedRequestSound(t: Tracker, j: Kind, on: bool, k: Kind)
    requires Consistent(t.wrapped, k)
    requires t.wrapped.counts.Of(j) == -1 || t.wrapped.counts.Of(j) >= (if on then 0 else 1)
    ensures var t' := t.Hooked(j, on);
            && Consistent(t'.wrapped, k)
            && t'.wrapped.counts.Of(k) == (if j == k then Moved(t.wrapped.counts.Of(k), on) else t.wrapped.counts.Of(k))
  {
    if t.wrapped.counts.Fires(j, on) {
      AppendHook(t.wrapped.hooks, Hook(j, on), k);
    }
  }

  lemma StopPartSound(t: Tracker, j: Kind, k: Kind)
    requires Consistent(t.wrapped, k) && Heeds(t, j)
    ensures var t' := t.StoppedIfRunning(j);
            && t'.counts == t.counts
            && t'.wrapped.counts.Of(k) == (if j == k && t.counts.Of(k) > 0 then Moved(t.wrapped.counts.Of(k), false)
                                           else t.wrapped.counts.Of(k))
            && Consistent(t'.wrapped, k)
  {
    if t.counts.Of(j) > 0 {
      WrappedRequestSound(t, j, false, k);
    }
  }

  lemma DisabledSound(t: Tracker, k: Kind)
    requires Sound(t)
    ensures SoundFor(t.Disabled(), k)
    ensures t.Disabled().wrapped.counts.Of(k)
         == if t.counts.Of(k) > 0 then Moved(t.wrapped.counts.Of(k), false) else t.wrapped.counts.Of(k)
    ensures t.Disabled().state == if t.counts.AnyPositive() then Idle else t.state
  {
    assert SoundFor(t, Position) && SoundFor(t, Heading) && SoundFor(t, Velocity) && SoundFor(t, k);
    var t1 := t.StoppedIfRunning(Position);
    StopPartSound(t, Position, k);
    StopPartSound(t, Position, Heading);
    StopPartSound(t, Position, Velocity);
    StopPartSound(t1, Heading, k);
    StopPartSound(t1, Heading, Velocity);
    StopPartSound(t1.StoppedIfRunning(Heading), Velocity, k);
  }

  lemma ApplyOneSound(t: Tracker, op: Op)
    requires Sound(t)
    ensures Sound(ApplyOne(t, op))
  {
    forall k ensures SoundFor(ApplyOne(t, op), k) {
      assert SoundFor(t, k);
      match op {
        case Request(j, on) =>
          assert SoundFor(t, j);
          if t.counts.Fires(j, on) {
            WrappedRequestSound(t.(counts := t.counts.Requested(j, on)), j, on, k);
          }
        case Off => DisabledSound(t, k);
        case On =>
      }
    }
  }

  lemma ApplyOneAligned(t: Tracker, op: Op)
    requires Sound(t) && Aligned(t)
    ensures Aligned(ApplyOne(t, op)) <==> !(op.On? && t.counts.AnyPositive())
  {
    match op {
      case Request(j, on) =>
      case Off =>
        forall k { DisabledSound(t, k); }
      case On =>
        if t.counts.position > 0 { assert t.wrapped.counts.Of(Position) == 1; }
        if t.counts.heading > 0 { assert t.wrapped.counts.Of(Heading) == 1; }
        if t.counts.velocity > 0 { assert t.wrapped.counts.Of(Velocity) == 1; }
        if t.counts.AnyPositive() {
          assert exists k: Kind :: t.wrapped.counts.Of(k) == 1 && NONE.Of(k) == 0;
        }
    }
  }

  lemma ApplySound(t: Tracker, ops: seq<Op>)
    requires Sound(t)
    ensures Sound(Apply(t, ops))
    ensures Aligned(t) && On !in ops ==> Aligned(Apply(t, ops))
    decreases |ops|
  {
    if ops != [] {
      ApplyOneSound(t, ops[0]);
      if Aligned(t) {
        ApplyOneAligned(t, ops[0]);
      }
      ApplySound(ApplyOne(t, ops[0]), ops[1..]);
    }
  }

  // ----- Whole runs: soundness and alignment -----

  ghost predicate AllSound<T, S>(w: World<T, S>) {
    forall t | t in w.trackers :: Sound(w.trackers[t])
  }

  ghost predicate AllAligned<T, S>(w: World<T, S>) {
    forall t | t in w.trackers :: Aligned(w.trackers[t])
  }

  ghost predicate Good<T, S>(w: World<T, S>) {
    Wired(w) && AllSound(w)
  }

  /** `e` enables a controller that still counts a request. */
  ghost predicate Overwrites<T, S>(w: World<T, S>, e: Event<T, S>) {
    e.Enable? && exists t | t in w.trackers :: t in e.targets && w.trackers[t].counts.AnyPositive()
  }

  /** `e` adds a provider that already counts something. */
  ghost predicate AddsCounted<T, S>(w: World<T, S>, e: Event<T, S>) {
    e.AddTracker? && e.tracker !in w.trackers && e.wrapped.counts != NONE
  }

  ghost predicate Upsets<T, S>(w: World<T, S>, e: Event<T, S>) {
    Overwrites(w, e) || AddsCounted(w, e)
  }

  /** A provider that is added has run its hooks as its counters say. */
  ghost predicate Sensible<T, S>(e: Event<T, S>) {
    e.AddTracker? ==> Sound(NewTracker(e.wrapped))
  }

  lemma {:induction false} RequestKeepsConsistent(w: Wrapped, j: Kind, on: bool, k: Kind)
    requires Consistent(w, k) && Consistent(w, j) && w.counts.Of(j) >= -1 && w.counts.Of(k) >= -1
    ensures Consistent(w.Requested(j, on), k) && w.Requested(j, on).counts.Of(k) >= -1
  {
    if w.counts.Fires(j, on) {
      AppendHook(w.hooks, Hook(j, on), k);
    }
  }

  /** As every provider has that was only ever started and stopped. */
  lemma {:induction false} EveryHistoryIsSensible(requests: seq<(Kind, bool)>)
    ensures Sound(NewTracker(History(requests)))
    decreases |requests|
  {
    if requests != [] {
      var n := |requests| - 1;
      EveryHistoryIsSensible(requests[..n]);
      var w := History(requests[..n]);
      var j, on := requests[n].0, requests[n].1;
      assert SoundFor(NewTracker(w), j);
      forall k
        ensures SoundFor(NewTracker(w.Requested(j, on)), k)
      {
        assert SoundFor(NewTracker(w), k);
        RequestKeepsConsistent(w, j, on, k);
      }
    }
  }

  function History(requests: seq<(Kind, bool)>): Wrapped
    decreases |requests|
  {
    if requests == [] then UNUSED
    else History(requests[..|requests| - 1]).Requested(requests[|requests| - 1].0, requests[|requests| - 1].1)
  }

  lemma OnlyEnableTurnsOn<T, S>(w: World<T, S>, e: Event<T, S>, t: T)
    ensures if e.Enable? && t in e.targets then OpsOf(w, e, t) == [On] else On !in OpsOf(w, e, t)
  {
  }

  lemma TrackerStep<T, S>(w: World<T, S>, e: Event<T, S>, t: T)
    requires t in w.trackers && Sound(w.trackers[t])
    ensures var t' := Apply(w.trackers[t], OpsOf(w, e, t));
            && Sound(t')
            && (Aligned(w.trackers[t]) ==>
                  (Aligned(t') <==> !(e.Enable? && t in e.targets && w.trackers[t].counts.AnyPositive())))
  {
    OnlyEnableTurnsOn(w, e, t);
    ApplySound(w.trackers[t], OpsOf(w, e, t));
    if e.Enable? && t in e.targets {
      assert Apply(w.trackers[t], [On]) == ApplyOne(w.trackers[t], On);
      if Aligned(w.trackers[t]) {
        ApplyOneAligned(w.trackers[t], On);
      }
    }
  }

  lemma StepGood<T, S>(w: World<T, S>, e: Event<T, S>)
    requires Good(w) && Sensible(e)
    ensures Good(Step(w, e))
    ensures AllAligned(w) ==> (AllAligned(Step(w, e)) <==> !Upsets(w, e))
  {
    StepProjects(w, e);
    forall t | t in w.trackers {
      TrackerStep(w, e, t);
    }
    if AllAligned(w) && Overwrites(w, e) {
      var t :| t in w.trackers && t in e.targets && w.trackers[t].counts.AnyPositive();
      assert !Aligned(Step(w, e).trackers[t]);
    }
    if e.AddTracker? {
      NewIsAlignedIffUncounted(e.wrapped);
    }
  }

  lemma NewIsAlignedIffUncounted(wrapped: Wrapped)
    ensures Aligned(NewTracker(wrapped)) <==> wrapped.counts == NONE
  {
    if Aligned(NewTracker(wrapped)) {
      assert wrapped.counts.Of(Position) == wrapped.counts.Of(Heading) == wrapped.counts.Of(Velocity) == 0;
    }
  }

  ghost predicate AlwaysAligned<T, S>(w: World<T, S>, es: seq<Event<T, S>>)
    decreases |es|
  {
    AllAligned(w) && (es != [] ==> AlwaysAligned(Step(w, es[0]), es[1..]))
  }

  ghost predicate NeverUpset<T, S>(w: World<T, S>, es: seq<Event<T, S>>)
    decreases |es|
  {
    es != [] ==> !Upsets(w, es[0]) && NeverUpset(Step(w, es[0]), es[1..])
  }

  /** In every run whatsoever, the hooks of each wrapped provider strictly alternate for each
      kind, and a kind that the tracker counts a request for is running, unless the provider was
      stopped once too often before it was added. */
  lemma {:induction false} RunSound<T, S>(w: World<T, S>, es: seq<Event<T, S>>)
    requires Good(w) && forall e | e in es :: Sensible(e)
    ensures Good(Run(w, es))
    decreases |es|
  {
    if es != [] {
      assert es[0] in es;
      StepGood(w, es[0]);
      RunSound(Step(w, es[0]), es[1..]);
    }
  }

  /** Trackers and wrapped providers agree throughout a run exactly when no controller is
      enabled while it counts a request, and no provider is added that counts one already. */
  lemma {:induction false} AlignedIffNeverUpset<T, S>(w: World<T, S>, es: seq<Event<T, S>>)
    requires Good(w) && AllAligned(w) && forall e | e in es :: Sensible(e)
    ensures AlwaysAligned(w, es) <==> NeverUpset(w, es)
    decreases |es|
  {
    if es != [] {
      assert es[0] in es;
      StepGood(w, es[0]);
      if !Upsets(w, es[0]) {
        AlignedIffNeverUpset(Step(w, es[0]), es[1..]);
      }
    }
  }

  // ----- Whole runs: counters against sessions -----

  /** The live sessions that hold tracker `t` and have kind `k` enabled. */
  ghost function Holders<T, S>(w: World<T, S>, t: T, k: Kind): set<S> {
    set s | s in w.sessions && t in w.sessions[s].bag && k in w.sessions[s].enabled
  }

  ghost predicate Bounded<T, S>(w: World<T, S>) {
    forall t, k | t in w.trackers :: -1 <= w.trackers[t].counts.Of(k) <= |Holders(w, t, k)|
  }

  ghost predicate Conserved<T, S>(w: World<T, S>) {
    forall t, k | t in w.trackers :: w.trackers[t].counts.Of(k) == |Holders(w, t, k)|
  }

  lemma ClosingCounter<T>(tr: Tracker, s: Session<T>, k: Kind)
    ensures Apply(tr, StopOf(s, Position) + StopOf(s, Heading) + StopOf(s, Velocity)).counts.Of(k)
            == if k in s.enabled then Moved(tr.counts.Of(k), false) else tr.counts.Of(k)
  {
    var p, h, v := StopOf(s, Position), StopOf(s, Heading), StopOf(s, Velocity);
    ApplyAppend(tr, p + h, v);
    ApplyAppend(tr, p, h);
    StopCounter(tr, s, Position, k);
    StopCounter(Apply(tr, p), s, Heading, k);
    StopCounter(Apply(Apply(tr, p), h), s, Velocity, k);
  }

  lemma StopCounter<T>(tr: Tracker, s: Session<T>, j: Kind, k: Kind)
    ensures Apply(tr, StopOf(s, j)).counts.Of(k)
            == if j == k && k in s.enabled then Moved(tr.counts.Of(k), false) else tr.counts.Of(k)
  {
    if j in s.enabled {
      assert Apply(tr, [Request(j, false)]) == tr.Requested(j, false);
    }
  }

  ghost predicate Follows(c: int, h: int, c': int, h': int) {
    || (c' == c && h' == h)
    || (c' == Moved(c, true) && h' == h + 1)
    || (c' == Moved(c, false) && h' == h - 1)
  }

  lemma StatusHolders<T, S>(w: World<T, S>, s: S, j: Kind, on: bool, t: T, k: Kind)
    requires Wired(w) && s in w.sessions && (j in w.sessions[s].enabled) != on
    ensures var H, H' := Holders(w, t, k), Holders(Step(w, SetStatus(s, j, on)), t, k);
            if t !in w.sessions[s].bag || j != k then H' == H
            else if on then s !in H && H' == H + {s} else s in H && H' == H - {s}
  {
    StatusStep(w, s, j, on);
    var w' := Step(w, SetStatus(s, j, on));
    forall r | r in w.sessions && r != s ensures w'.sessions[r] == w.sessions[r] {
      assert r in w'.sessions - {s};
    }
  }

  lemma StatusFollows<T, S>(w: World<T, S>, s: S, j: Kind, on: bool, t: T, k: Kind)
    requires Wired(w) && t in w.trackers && s in w.sessions && (j in w.sessions[s].enabled) != on
    ensures t in Step(w, SetStatus(s, j, on)).trackers
    ensures Follows(w.trackers[t].counts.Of(k), |Holders(w, t, k)|,
                    Step(w, SetStatus(s, j, on)).trackers[t].counts.Of(k),
                    |Holders(Step(w, SetStatus(s, j, on)), t, k)|)
  {
    StatusStep(w, s, j, on);
    StatusHolders(w, s, j, on, t, k);
  }

  lemma CloseFollows<T, S>(w: World<T, S>, s: S, t: T, k: Kind)
    requires Wired(w) && t in w.trackers && s in w.sessions
    ensures var w' := Step(w, Close(s));
            && t in w'.trackers
            && Follows(w.trackers[t].counts.Of(k), |Holders(w, t, k)|,
                       w'.trackers[t].counts.Of(k), |Holders(w', t, k)|)
  {
    CloseStep(w, s);
    ClosingCounter(w.trackers[t], w.sessions[s], k);
    HoldersAfterClose(w, s, t, k);
  }

  lemma HoldersAfterClose<T, S>(w: World<T, S>, s: S, t: T, k: Kind)
    requires Wired(w) && t in w.trackers && s in w.sessions
    ensures Holders(Step(w, Close(s)), t, k) == Holders(w, t, k) - {s}
  {
    CloseStep(w, s);
  }

  /** A tracker's counter moves with the set of its holders, unless it is disabled or enabled. */
  lemma CounterFollowsHolders<T, S>(w: World<T, S>, e: Event<T, S>, t: T, k: Kind)
    requires Wired(w) && t in w.trackers && t in Step(w, e).trackers
    ensures var c, c' := w.trackers[t].counts.Of(k), Step(w, e).trackers[t].counts.Of(k);
            var h, h' := |Holders(w, t, k)|, |Holders(Step(w, e), t, k)|;
            if e.Disable? && t in e.targets then c' == -1 && h' == h
            else if e.Enable? && t in e.targets then c' == 0 && h' == h
            else Follows(c, h, c', h')
  {
    match e {
      case SetStatus(s, j, on) =>
        if s in w.sessions && (j in w.sessions[s].enabled) != on {
          StatusFollows(w, s, j, on, t, k);
        }
      case Close(s) =>
        if s in w.sessions {
          CloseFollows(w, s, t, k);
        }
      case _ =>
        assert Holders(Step(w, e), t, k) == Holders(w, t, k);
    }
  }

  lemma NewTrackerHasNoHolders<T, S>(w: World<T, S>, e: Event<T, S>, t: T, k: Kind)
    requires Wired(w) && t in Step(w, e).trackers && t !in w.trackers
    ensures Step(w, e).trackers[t].counts == NONE
    ensures Holders(Step(w, e), t, k) == {}
  {
    StepProjects(w, e);
    assert Step(w, e).sessions == w.sessions;
  }

  lemma StepBounded<T, S>(w: World<T, S>, e: Event<T, S>)
    requires Wired(w) && Bounded(w)
    ensures Bounded(Step(w, e))
  {
    var w' := Step(w, e);
    forall t, k | t in w'.trackers
      ensures -1 <= w'.trackers[t].counts.Of(k) <= |Holders(w', t, k)|
    {
      if t in w.trackers {
        CounterFollowsHolders(w, e, t, k);
      } else {
        NewTrackerHasNoHolders(w, e, t, k);
      }
    }
  }

  /** `e` disables a tracker, or enables one that counts anything other than nothing. */
  ghost predicate Disturbs<T, S>(w: World<T, S>, e: Event<T, S>) {
    || (e.Disable? && exists t | t in w.trackers :: t in e.targets)
    || (e.Enable? && exists t | t in w.trackers :: t in e.targets && w.trackers[t].counts != NONE)
  }

  lemma StepConserved<T, S>(w: World<T, S>, e: Event<T, S>)
    requires Wired(w) && Conserved(w)
    ensures Conserved(Step(w, e)) <==> !Disturbs(w, e)
  {
    var w' := Step(w, e);
    StepProjects(w, e);
    if Disturbs(w, e) {
      var t :| t in w.trackers && t in e.targets && (e.Disable? || w.trackers[t].counts != NONE);
      var k :| e.Disable? || w.trackers[t].counts.Of(k) != 0 by { SomeNonzero(w.trackers[t].counts); }
      CounterFollowsHolders(w, e, t, k);
      assert w'.trackers[t].counts.Of(k) != |Holders(w', t, k)|;
    } else {
      forall t, k | t in w'.trackers
        ensures w'.trackers[t].counts.Of(k) == |Holders(w', t, k)|
      {
        if t in w.trackers {
          CounterFollowsHolders(w, e, t, k);
        } else {
          NewTrackerHasNoHolders(w, e, t, k);
        }
      }
    }
  }

  lemma SomeNonzero(c: Counts)
    ensures exists k :: c == NONE || c.Of(k) != 0
  {
    assert c.Of(Position) == 0 && c.Of(Heading) == 0 && c.Of(Velocity) == 0 ==> c == NONE;
  }

  ghost predicate AlwaysConserved<T, S>(w: World<T, S>, es: seq<Event<T, S>>)
    decreases |es|
  {
    Conserved(w) && (es != [] ==> AlwaysConserved(Step(w, es[0]), es[1..]))
  }

  ghost predicate NeverDisturbed<T, S>(w: World<T, S>, es: seq<Event<T, S>>)
    decreases |es|
  {
    es != [] ==> !Disturbs(w, es[0]) && NeverDisturbed(Step(w, es[0]), es[1..])
  }

  /** In every run, with trackers disabled and enabled at any moment, each counter stays
      between -1 and the number of sessions that hold the tracker with that kind enabled. */
  lemma {:induction false} RunBounded<T, S>(w: World<T, S>, es: seq<Event<T, S>>)
    requires Wired(w) && Bounded(w)
    ensures Wired(Run(w, es)) && Bounded(Run(w, es))
    decreases |es|
  {
    if es != [] {
      StepProjects(w, es[0]);
      StepBounded(w, es[0]);
      RunBounded(Step(w, es[0]), es[1..]);
    }
  }

  /** Each counter equals the number of its holders throughout a run exactly when no tracker is
      disabled and none is enabled while its counters are not all zero. */
  lemma {:induction false} ConservedIffNeverDisturbed<T, S>(w: World<T, S>, es: seq<Event<T, S>>)
    requires Wired(w) && Conserved(w)
    ensures AlwaysConserved(w, es) <==> NeverDisturbed(w, es)
    decreases |es|
  {
    if es != [] {
      StepProjects(w, es[0]);
      StepConserved(w, es[0]);
      if !Disturbs(w, es[0]) {
        ConservedIffNeverDisturbed(Step(w, es[0]), es[1..]);
      }
    }
  }

  /** Sessions alone: with trackers never disabled or enabled, after any run of providers added,
      sessions opened, statuses toggled and sessions closed, a tracker counts its holders and
      the wrapped provider counts one request if there is a holder and none otherwise. */
  lemma {:induction false} SessionsAlone<T, S>(w: World<T, S>, es: seq<Event<T, S>>)
    requires Good(w) && AllAligned(w) && Conserved(w)
    requires forall e | e in es :: !e.Disable? && !e.Enable? && Sensible(e) && (e.AddTracker? ==> e.wrapped.counts == NONE)
    ensures var w' := Run(w, es);
            && Good(w') && AllAligned(w') && Conserved(w')
            && forall t, k | t in w'.trackers ::
                 w'.trackers[t].wrapped.counts.Of(k) == if Holders(w', t, k) == {} then 0 else 1
    decreases |es|
  {
    if es != [] {
      assert es[0] in es;
      StepGood(w, es[0]);
      StepConserved(w, es[0]);
      SessionsAlone(Step(w, es[0]), es[1..]);
    } else {
      forall t, k | t in w.trackers
        ensures w.trackers[t].wrapped.counts.Of(k) == if Holders(w, t, k) == {} then 0 else 1
      {
        assert w.trackers[t].counts.Of(k) == |Holders(w, t, k)|;
        assert Aligned(w.trackers[t]);
      }
    }
  }

  // ----- What enabling a counted controller costs -----

  /** What the wrapped provider counts beyond the one request of a tracker that counts some; -1 if
      it ignores the kind. */
  function Excess(t: Tracker, k: Kind): int {
    if t.wrapped.counts.Of(k) < 0 || t.counts.Of(k) <= 0 then t.wrapped.counts.Of(k) else t.wrapped.counts.Of(k) - 1
  }

  lemma ApplyOneExcess(t: Tracker, op: Op, k: Kind)
    requires Sound(t)
    ensures Excess(ApplyOne(t, op), k)
         == Excess(t, k) + if op.On? && t.counts.Of(k) > 0 && t.wrapped.counts.Of(k) >= 0 then 1 else 0
  {
    assert SoundFor(t, k);
    match op {
      case Request(j, on) =>
        assert SoundFor(t, j);
        if t.counts.Fires(j, on) {
          WrappedRequestSound(t.(counts := t.counts.Requested(j, on)), j, on, k);
        }
      case Off => DisabledSound(t, k);
      case On =>
    }
  }

  lemma ApplyExcess(t: Tracker, ops: seq<Op>, k: Kind)
    requires Sound(t) && On !in ops
    ensures Excess(Apply(t, ops), k) == Excess(t, k)
    decreases |ops|
  {
    if ops != [] {
      ApplyOneExcess(t, ops[0], k);
      ApplyOneSound(t, ops[0]);
      ApplyExcess(ApplyOne(t, ops[0]), ops[1..], k);
    }
  }

  function ExcessIn<T, S>(w: World<T, S>, t: T, k: Kind): int {
    if t in w.trackers then Excess(w.trackers[t], k) else 0
  }

  /** One for a positive counter that is overwritten, unless the provider ignores the kind, and
      what an added provider counts already. */
  function Gain<T, S>(w: World<T, S>, e: Event<T, S>, t: T, k: Kind): int {
    match e
    case Enable(targets) =>
      if t in targets && t in w.trackers && w.trackers[t].counts.Of(k) > 0 && w.trackers[t].wrapped.counts.Of(k) >= 0
      then 1 else 0
    case AddTracker(u, wrapped) => if u == t && t !in w.trackers then wrapped.counts.Of(k) else 0
    case _ => 0
  }

  function Gains<T, S>(w: World<T, S>, es: seq<Event<T, S>>, t: T, k: Kind): int
    decreases |es|
  {
    if es == [] then 0 else Gain(w, es[0], t, k) + Gains(Step(w, es[0]), es[1..], t, k)
  }

  lemma StepExcess<T, S>(w: World<T, S>, e: Event<T, S>, t: T, k: Kind)
    requires Good(w)
    ensures ExcessIn(Step(w, e), t, k) == ExcessIn(w, t, k) + Gain(w, e, t, k)
  {
    StepProjects(w, e);
    if t in w.trackers {
      OnlyEnableTurnsOn(w, e, t);
      if e.Enable? && t in e.targets {
        assert Apply(w.trackers[t], [On]) == ApplyOne(w.trackers[t], On);
        ApplyOneExcess(w.trackers[t], On, k);
      } else {
        ApplyExcess(w.trackers[t], OpsOf(w, e, t), k);
      }
    }
  }

  /** In every run the wrapped provider counts one request if its tracker counts some, and one
      more for every positive counter that was overwritten, unless it ignores the kind. */
  lemma {:induction false} RunExcess<T, S>(w: World<T, S>, es: seq<Event<T, S>>, t: T, k: Kind)
    requires Good(w) && forall e | e in es :: Sensible(e)
    ensures Good(Run(w, es))
    ensures ExcessIn(Run(w, es), t, k) == ExcessIn(w, t, k) + Gains(w, es, t, k)
    decreases |es|
  {
    if es != [] {
      assert es[0] in es;
      StepGood(w, es[0]);
      StepExcess(w, es[0], t, k);
      RunExcess(Step(w, es[0]), es[1..], t, k);
    }
  }

  /** Once the last session is closed, a provider still runs a kind exactly if a positive counter
      of that kind was overwritten, or it counted more to begin with. */
  lemma StrandedIffOverwritten<T, S>(w: World<T, S>, es: seq<Event<T, S>>, t: T, k: Kind)
    requires Good(w) && Bounded(w) && forall e | e in es :: Sensible(e)
    requires Run(w, es).sessions == map[] && t in Run(w, es).trackers
    ensures Running(Run(w, es).trackers[t].wrapped.hooks, k) <==> ExcessIn(w, t, k) + Gains(w, es, t, k) > 0
  {
    RunExcess(w, es, t, k);
    RunBounded(w, es);
    var w' := Run(w, es);
    assert Holders(w', t, k) == {};
    assert w'.trackers[t].counts.Of(k) <= |Holders(w', t, k)|;
    assert SoundFor(w'.trackers[t], k);
  }

  lemma {:induction false} StartedAlone<T, S>(t: T, s: S) returns (w: World<T, S>)
    ensures w == Step(Step(Step(World(map[], map[]), AddTracker(t, UNUSED)), Open(s)), SetStatus(s, Position, true))
    ensures Wired(w) && w.trackers == map[t := NewTracker(UNUSED).Requested(Position, true)]
    ensures w.sessions.Keys == {s} && w.sessions[s].bag == {t} && w.sessions[s].enabled == {Position}
  {
    var w1: World<T, S> := Step(World(map[], map[]), AddTracker(t, UNUSED));
    assert w1 == World(map[t := NewTracker(UNUSED)], map[]) && w1.trackers.Keys == {t};
    var w2 := Step(w1, Open(s));
    assert w2 == World(w1.trackers, map[s := Session({}, NONE, NONE, {t})]);
    w := Step(w2, SetStatus(s, Position, true));
    StatusStep(w2, s, Position, true);
    StepProjects(w2, SetStatus(s, Position, true));
  }

  /** The world after the steps of a session whose tracker is enabled under it. */
  lemma {:induction false} StrandingSteps<T, S>(t: T, s: S) returns (w: World<T, S>)
    ensures w == Step(Step(Step(Step(Step(World(map[], map[]),
                   AddTracker(t, UNUSED)), Open(s)), SetStatus(s, Position, true)), Enable({t})), Close(s))
    ensures w.sessions == map[] && t in w.trackers
    ensures w.trackers[t].counts.Of(Position) == -1 && w.trackers[t].wrapped.hooks == [Hook(Position, true)]
  {
    var w3 := StartedAlone<T, S>(t, s);
    var w4 := Step(w3, Enable({t}));
    StepProjects(w3, Enable({t}));
    assert w4.trackers[t] == w3.trackers[t].Enabled() && w4.sessions == w3.sessions;
    w := Step(w4, Close(s));
    CloseStep(w4, s);
    assert OpsOf(w4, Close(s), t) == [Request(Position, false)];
    assert w.trackers[t] == ApplyOne(w4.trackers[t], Request(Position, false));
  }

  /** A provider left running with no session. */
  lemma EnableCanStrandAProvider(t: int, s: int)
    ensures var w := Run(World(map[], map[]),
                         [AddTracker(t, UNUSED), Open(s), SetStatus(s, Position, true), Enable({t}), Close(s)]);
            && w.sessions == map[]
            && t in w.trackers
            && w.trackers[t].counts.Of(Position) == -1
            && Running(w.trackers[t].wrapped.hooks, Position)
  {
    var w0: World<int, int> := World(map[], map[]);
    var es := [AddTracker(t, UNUSED), Open(s), SetStatus(s, Position, true), Enable({t}), Close(s)];
    var w := StrandingSteps<int, int>(t, s);
    RunUnfolds(w0, es);
    RunUnfolds(Step(w0, es[0]), es[1..]);
    RunUnfolds(Step(Step(w0, es[0]), es[1]), es[2..]);
    RunUnfolds(Step(Step(Step(w0, es[0]), es[1]), es[2]), es[3..]);
    RunUnfolds(Step(Step(Step(Step(w0, es[0]), es[1]), es[2]), es[3]), es[4..]);
  }

  lemma RunUnfolds<T, S>(w: World<T, S>, es: seq<Event<T, S>>)
    requires es != []
    ensures Run(w, es) == Run(Step(w, es[0]), es[1..])
  {
  }

  // ----- The one activity state of a tracker -----

  /** A tracker is active exactly if the last hook of its provider was a start. */
  ghost predicate ShowsLastHook(t: Tracker) {
    var h := t.wrapped.hooks;
    t.state == Active <==> h != [] && h[|h| - 1].on
  }

  lemma ApplyOneShows(t: Tracker, op: Op)
    requires Sound(t) && Aligned(t) && ShowsLastHook(t)
    requires op.On? ==> !t.counts.AnyPositive()
    ensures ShowsLastHook(ApplyOne(t, op))
  {
    match op {
      case Request(k, on) =>
        assert t.wrapped.counts.Of(k) == if t.counts.Of(k) > 0 then 1 else 0;
      case Off => DisabledShows(t);
      case On =>
    }
  }

  lemma StoppedShows(t: Tracker, k: Kind)
    requires ShowsLastHook(t) && (t.counts.Of(k) > 0 ==> t.wrapped.counts.Of(k) == 1)
    ensures var t' := t.StoppedIfRunning(k);
      && ShowsLastHook(t')
      && t'.counts == t.counts
      && (forall j :: j != k ==> t'.wrapped.counts.Of(j) == t.wrapped.counts.Of(j))
      && t'.wrapped.hooks == t.wrapped.hooks + if t.counts.Of(k) > 0 then [Hook(k, false)] else []
  {
  }

  /** Disabling stops what runs, in a fixed order. */
  lemma DisabledShows(t: Tracker)
    requires Aligned(t) && ShowsLastHook(t)
    ensures ShowsLastHook(t.Disabled())
    ensures t.Disabled().wrapped.hooks == t.wrapped.hooks
      + (if t.counts.position > 0 then [Hook(Position, false)] else [])
      + (if t.counts.heading > 0 then [Hook(Heading, false)] else [])
      + (if t.counts.velocity > 0 then [Hook(Velocity, false)] else [])
  {
    assert forall k: Kind :: t.counts.Of(k) > 0 ==> t.wrapped.counts.Of(k) == 1;
    var t1 := t.StoppedIfRunning(Position);
    var t2 := t1.StoppedIfRunning(Heading);
    StoppedShows(t, Position);
    StoppedShows(t1, Heading);
    StoppedShows(t2, Velocity);
  }

  lemma ApplyShows(t: Tracker, ops: seq<Op>)
    requires Sound(t) && Aligned(t) && ShowsLastHook(t) && On !in ops
    ensures ShowsLastHook(Apply(t, ops))
    decreases |ops|
  {
    if ops != [] {
      ApplyOneShows(t, ops[0]);
      ApplyOneSound(t, ops[0]);
      ApplyOneAligned(t, ops[0]);
      ApplyShows(ApplyOne(t, ops[0]), ops[1..]);
    }
  }

  lemma NewShows(wrapped: Wrapped)
    requires Sound(NewTracker(wrapped)) && wrapped.counts == NONE
    ensures ShowsLastHook(NewTracker(wrapped))
  {
    if wrapped.hooks != [] {
      var last := wrapped.hooks[|wrapped.hooks| - 1];
      assert SoundFor(NewTracker(wrapped), last.kind);
      assert Running(wrapped.hooks, last.kind) == last.on;
    }
  }

  ghost predicate AllShow<T, S>(w: World<T, S>) {
    forall t | t in w.trackers :: ShowsLastHook(w.trackers[t])
  }

  lemma StepShows<T, S>(w: World<T, S>, e: Event<T, S>)
    requires Good(w) && AllAligned(w) && AllShow(w) && Sensible(e) && !Upsets(w, e)
    ensures AllShow(Step(w, e))
  {
    StepProjects(w, e);
    forall t | t in Step(w, e).trackers
      ensures ShowsLastHook(Step(w, e).trackers[t])
    {
      if t !in w.trackers {
        NewShows(e.wrapped);
      } else {
        OnlyEnableTurnsOn(w, e, t);
        if e.Enable? && t in e.targets {
          assert Apply(w.trackers[t], [On]) == ApplyOne(w.trackers[t], On);
          ApplyOneShows(w.trackers[t], On);
        } else {
          ApplyShows(w.trackers[t], OpsOf(w, e, t));
        }
      }
    }
  }

  /** In every run in which trackers and wrapped providers agree, a tracker is active exactly if
      the last hook of its provider was a start. */
  lemma {:induction false} ActiveIffLastHookStarts<T, S>(w: World<T, S>, es: seq<Event<T, S>>)
    requires Good(w) && AllAligned(w) && AllShow(w) && NeverUpset(w, es) && forall e | e in es :: Sensible(e)
    ensures AllShow(Run(w, es))
    decreases |es|
  {
    if es != [] {
      assert es[0] in es;
      StepGood(w, es[0]);
      StepShows(w, es[0]);
      ActiveIffLastHookStarts(Step(w, es[0]), es[1..]);
    }
  }

  /** So a tracker can be idle while its provider runs: one state serves three kinds. */
  lemma {:induction false} IdleWhileRunning()
    ensures var t := NewTracker(UNUSED).Requested(Position, true).Requested(Heading, true).Requested(Heading, false);
      t.state == Idle && t.counts == Counts(1, 0, 0) && Running(t.wrapped.hooks, Position)
  {
    var t := NewTracker(UNUSED).Requested(Position, true).Requested(Heading, true).Requested(Heading, false);
    var h := [Hook(Position, true), Hook(Heading, true), Hook(Heading, false)];
    assert t.wrapped.hooks == h;
    assert h[..2] == [Hook(Position, true), Hook(Heading, true)] && h[..2][..1] == [Hook(Position, true)];
    assert Running(h[..2][..1], Position);
  }
}
