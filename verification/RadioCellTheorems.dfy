/** What every run of property changes, passing time and timeouts keeps of a radio cell that
    was registered when it was created. */
module RadioCellTheorems {
  import opened Wrappers
  import opened RadioRecord

  datatype Event = Property(change: Change) | Advance(seconds: nat) | Timeout

  /** `changedAt` is when a handler last got as far as the heuristics with a new identity. */
  datatype Timed = Timed(state: State, now: int, changedAt: int)

  function Next(h: Heuristics, t: Timed, e: Event): Timed {
    match e
    case Property(c) =>
      var o := Handled(h, t.state, t.now, c);
      Timed(o.state, t.now, if o.identified then t.now else t.changedAt)
    case Advance(d) => t.(now := t.now + d)
    case Timeout => t.(state := Expired(t.state))
  }

  function Run(h: Heuristics, t: Timed, es: seq<Event>): Timed
    decreases |es|
  {
    if es == [] then t else Run(h, Next(h, t, es[0]), es[1..])
  }

  /** The cell as `CachedRadioCell.Create` leaves it for a registered modem. */
  ghost predicate Created(h: Heuristics, t: Timed) {
    exists c: Cell, roaming: bool ::
      && c.kind != Unknown && CodeOk(c.mcc) && CodeOk(c.mnc) && AreaOk(c.area)
      && 0 <= c.id <= MaxId(c.kind) && 0 <= c.strength <= 31 && c.pid == NO_PID
      && t == Timed(Watched(h, State(c, true, roaming, None), t.now), t.now, t.now)
  }

  // ----- Every field is in its range or unknown -----

  ghost predicate WellFormed(c: Cell) {
    && c.kind != Unknown
    && CodeOk(c.mcc) && CodeOk(c.mnc) && AreaOk(c.area)
    && (0 <= c.id <= MaxId(c.kind) || c.id == NO_ID)
    && (0 <= c.strength <= 31 || c.strength == NO_STRENGTH)
    && (if c.kind == Lte then c.pid == NO_PID || 0 <= c.pid <= 31 || c.pid == NO_STRENGTH else c.pid == NO_PID)
  }

  lemma SwitchedInRange(c: Cell, k: RadioType)
    requires WellFormed(c) && k != Unknown && k != c.kind
    ensures WellFormed(Switched(c, k))
  {
  }

  lemma NextCell(h: Heuristics, t: Timed, e: Event)
    ensures Next(h, t, e).state.cell == if e.Property? then Reported(t.state.cell, e.change) else t.state.cell
  {
  }

  lemma NextKeepsRanges(h: Heuristics, t: Timed, e: Event)
    requires WellFormed(t.state.cell)
    ensures WellFormed(Next(h, t, e).state.cell)
  {
    NextCell(h, t, e);
    if e.Property? && e.change.Technology? && Identifies(t.state.cell, e.change) {
      SwitchedInRange(t.state.cell, e.change.kind.value);
    }
  }

  lemma {:induction false} RangesKept(h: Heuristics, t: Timed, es: seq<Event>)
    requires WellFormed(t.state.cell)
    ensures WellFormed(Run(h, t, es).state.cell)
    decreases |es|
  {
    if es != [] {
      NextKeepsRanges(h, t, es[0]);
      RangesKept(h, Next(h, t, es[0]), es[1..]);
    }
  }

  // ----- The place in the network survives every switch -----

  datatype Place = Place(mcc: int, mnc: int, area: int)

  /** The codes last reported within their range, whatever the technology was. */
  function LastReported(p: Place, es: seq<Event>): Place
    decreases |es|
  {
    if es == [] then p
    else
      var p1 := match es[0]
        case Property(CountryCode(n)) => if CodeOk(n) then p.(mcc := n) else p
        case Property(NetworkCode(n)) => if CodeOk(n) then p.(mnc := n) else p
        case Property(AreaCode(n)) => if AreaOk(n) then p.(area := n) else p
        case _ => p;
      LastReported(p1, es[1..])
  }

  function PlaceOf(c: Cell): Place {
    Place(c.mcc, c.mnc, c.area)
  }

  lemma {:induction false} PlaceSurvives(h: Heuristics, t: Timed, es: seq<Event>)
    ensures PlaceOf(Run(h, t, es).state.cell) == LastReported(PlaceOf(t.state.cell), es)
    decreases |es|
  {
    if es != [] {
      NextCell(h, t, es[0]);
      PlaceSurvives(h, Next(h, t, es[0]), es[1..]);
    }
  }

  /** After a switch, identity and strength stay unknown until they are reported again. */
  lemma {:induction false} UnknownUntilReported(h: Heuristics, t: Timed, es: seq<Event>)
    ensures t.state.cell.id == NO_ID && (forall e | e in es && e.Property? :: !e.change.CellId?) ==>
              Run(h, t, es).state.cell.id == NO_ID
    ensures t.state.cell.strength == NO_STRENGTH && (forall e | e in es && e.Property? :: !e.change.SignalStrength?) ==>
              Run(h, t, es).state.cell.strength == NO_STRENGTH
    decreases |es|
  {
    if es != [] {
      assert es[0] in es;
      NextCell(h, t, es[0]);
      UnknownUntilReported(h, Next(h, t, es[0]), es[1..]);
    }
  }

  // ----- Validity of UMTS cells on problematic firmware -----

  ghost predicate Trustworthy(h: Heuristics, t: Timed) {
    h.needed && t.state.cell.kind == Umts && t.state.valid ==>
      Complete(t.state.cell) && t.state.deadline == Some(t.changedAt + h.timeout)
  }

  /** A UMTS cell marked valid has all five details, after any run. */
  lemma {:induction false} ValidUmtsIsComplete(h: Heuristics, t: Timed, es: seq<Event>)
    requires Trustworthy(h, t)
    ensures Trustworthy(h, Run(h, t, es))
    decreases |es|
  {
    if es != [] {
      ValidUmtsIsComplete(h, Next(h, t, es[0]), es[1..]);
    }
  }

  /** Time never passes a pending deadline before the timer has run. */
  ghost predicate Punctual(h: Heuristics, t: Timed, es: seq<Event>)
    decreases |es|
  {
    && (t.state.deadline.Some? ==> t.now <= t.state.deadline.value)
    && (es != [] ==> Punctual(h, Next(h, t, es[0]), es[1..]))
  }

  lemma PunctualAtEnd(h: Heuristics, t: Timed, es: seq<Event>)
    requires Punctual(h, t, es)
    ensures Punctual(h, Run(h, t, es), [])
    decreases |es|
  {
    if es != [] {
      PunctualAtEnd(h, Next(h, t, es[0]), es[1..]);
    }
  }

  /** With timers that run in time, a UMTS cell marked valid changed its identity within the
      last timeout. */
  lemma ValidUmtsIsRecent(h: Heuristics, t: Timed, es: seq<Event>)
    requires Created(h, t) && h.needed && Punctual(h, t, es)
    ensures var t' := Run(h, t, es);
            t'.state.cell.kind == Umts && t'.state.valid ==>
              Complete(t'.state.cell) && t'.now - t'.changedAt <= h.timeout
  {
    ValidUmtsIsComplete(h, t, es);
    PunctualAtEnd(h, t, es);
  }

  // ----- The physical id of an LTE cell -----

  /** The event names another technology than LTE. */
  predicate LeavesLte(e: Event) {
    e == Property(Technology(Some(Gsm))) || e == Property(Technology(Some(Umts)))
  }

  /** The cell of kind `k` with physical id `pid` was something other than LTE, or becomes so in
      the run. */
  ghost predicate OnceOther(k: RadioType, pid: int, es: seq<Event>) {
    k != Lte || 0 <= pid || exists e | e in es :: LeavesLte(e)
  }

  lemma NextPhysicalId(h: Heuristics, t: Timed, e: Event)
    requires WellFormed(t.state.cell)
    ensures var c, c' := t.state.cell, Next(h, t, e).state.cell;
            if c.kind == Lte && LeavesLte(e) then c'.kind != Lte
            else if c.kind == Lte then c'.kind == Lte && c'.pid == c.pid
            else c'.kind == Lte ==> 0 <= c'.pid
  {
    NextCell(h, t, e);
  }

  /** No event carries a physical id. An LTE cell has one exactly when it was something other
      than LTE before, and then it is what the signal strength used to be. */
  lemma {:induction false} PhysicalIdIffSwitched(h: Heuristics, t: Timed, es: seq<Event>)
    requires WellFormed(t.state.cell)
    ensures var c := Run(h, t, es).state.cell;
            c.kind == Lte ==>
              (0 <= c.pid <= 503 <==> OnceOther(t.state.cell.kind, t.state.cell.pid, es))
    decreases |es|
  {
    if es != [] {
      var c, c1 := t.state.cell, Next(h, t, es[0]).state.cell;
      NextKeepsRanges(h, t, es[0]);
      NextPhysicalId(h, t, es[0]);
      PhysicalIdIffSwitched(h, Next(h, t, es[0]), es[1..]);
      OnceOtherLater(c, c1, es);
    }
  }

  lemma OnceOtherLater(c: Cell, c1: Cell, es: seq<Event>)
    requires es != []
    requires if c.kind == Lte && LeavesLte(es[0]) then c1.kind != Lte
             else if c.kind == Lte then c1.kind == Lte && c1.pid == c.pid
             else c1.kind == Lte ==> 0 <= c1.pid
    ensures OnceOther(c1.kind, c1.pid, es[1..]) <==> OnceOther(c.kind, c.pid, es)
  {
    assert es == [es[0]] + es[1..];
    if exists e | e in es :: LeavesLte(e) {
      var e :| e in es && LeavesLte(e);
      assert e == es[0] || e in es[1..];
    }
  }

  /** An LTE cell that never leaves LTE is never complete, whatever is reported about it. */
  lemma LteAloneIsNeverComplete(h: Heuristics, t: Timed, es: seq<Event>)
    requires Created(h, t) && t.state.cell.kind == Lte
    requires forall e | e in es :: !LeavesLte(e)
    ensures !Complete(Run(h, t, es).state.cell)
  {
    PhysicalIdIffSwitched(h, t, es);
    StaysLte(h, t, es);
  }

  lemma StaysLte(h: Heuristics, t: Timed, es: seq<Event>)
    requires WellFormed(t.state.cell) && t.state.cell.kind == Lte
    requires forall e | e in es :: !LeavesLte(e)
    ensures Run(h, t, es).state.cell.kind == Lte
    decreases |es|
  {
    if es != [] {
      assert es[0] in es;
      NextKeepsRanges(h, t, es[0]);
      NextPhysicalId(h, t, es[0]);
      StaysLte(h, Next(h, t, es[0]), es[1..]);
    }
  }
}
