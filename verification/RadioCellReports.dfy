/** What the reports about a radio cell amount to: its record from the events alone, and what each
    of them makes of its validity. */
module RadioCellReports {
  import opened Wrappers
  import opened RadioRecord
  import opened RadioCellTheorems

  // ----- The record, from the events alone -----

  datatype Report = Report(kind: RadioType, id: int, strength: int, roaming: bool)

  predicate IdInRange(k: RadioType, id: int) {
    0 <= id && if k == Gsm then id < 0x1_0000 else id < 0x1000_0000
  }

  /** The last identity reported within the range of the technology of that moment, the last
      strength, both forgotten by a switch to another technology, and the last roaming status. */
  function Heard(r: Report, e: Event): Report {
    match e
    case Property(Technology(Some(k))) =>
      if k == Unknown || k == r.kind then r else r.(kind := k, id := 0x7fff_ffff, strength := 99)
    case Property(CellId(id)) => if IdInRange(r.kind, id) then r.(id := id) else r
    case Property(SignalStrength(p)) => r.(strength := FromPercent(p))
    case Property(Status(roaming)) => r.(roaming := roaming)
    case _ => r
  }

  function HeardAll(r: Report, es: seq<Event>): Report
    decreases |es|
  {
    if es == [] then r else HeardAll(Heard(r, es[0]), es[1..])
  }

  function ReportOf(s: State): Report {
    Report(s.cell.kind, s.cell.id, s.cell.strength, s.roaming)
  }

  lemma HeardIsNext(h: Heuristics, t: Timed, e: Event)
    requires t.state.cell.kind != Unknown
    ensures ReportOf(Next(h, t, e).state) == Heard(ReportOf(t.state), e)
    ensures Next(h, t, e).state.cell.kind != Unknown
  {
  }

  /** In every run technology, identity, strength and roaming are what was heard of them. */
  lemma {:induction false} RecordIsWhatWasHeard(h: Heuristics, t: Timed, es: seq<Event>)
    requires t.state.cell.kind != Unknown
    ensures ReportOf(Run(h, t, es).state) == HeardAll(ReportOf(t.state), es)
    decreases |es|
  {
    if es != [] {
      HeardIsNext(h, t, es[0]);
      RecordIsWhatWasHeard(h, Next(h, t, es[0]), es[1..]);
    }
  }

  // ----- One report -----

  /** It tells something new about which cell this is. */
  predicate IsNews(k: RadioType, ch: Change) {
    match ch
    case Technology(Some(to)) => to != Unknown && to != k
    case CellId(id) => IdInRange(k, id)
    case AreaCode(n) => 0 <= n < 0x1_0000
    case CountryCode(n) => 0 <= n < 1000
    case NetworkCode(n) => 0 <= n < 1000
    case _ => false
  }

  predicate IsRefused(k: RadioType, ch: Change) {
    match ch
    case CellId(id) => !IdInRange(k, id)
    case AreaCode(n) => !(0 <= n < 0x1_0000)
    case CountryCode(n) => !(0 <= n < 1000)
    case NetworkCode(n) => !(0 <= n < 1000)
    case Malformed => true
    case _ => false
  }

  /** Nothing is unset: how a well-formed cell is complete. An old strength that was unset is within
      the range of a physical id. */
  predicate NothingUnset(c: Cell) {
    c.id != 0x7fff_ffff && c.strength != 99 && (c.kind == Lte ==> c.pid != -1)
  }

  lemma CompleteIffNothingUnset(c: Cell)
    requires WellFormed(c)
    ensures Complete(c) <==> NothingUnset(c)
  {
  }

  predicate IsWatched(h: Heuristics, k: RadioType) {
    h.needed && (k == Umts || h.everyKind)
  }

  /** What a report throws, announces and makes of validity and timer: only news of a watched cell
      touches these, and then the cell is valid exactly if nothing of it is unset. */
  lemma ReportSpelledOut(h: Heuristics, s: State, now: int, ch: Change)
    requires WellFormed(s.cell)
    ensures var o := Handled(h, s, now, ch);
      && (o.threw <==> IsRefused(s.cell.kind, ch))
      && (o.announced <==> s.valid && (IsNews(s.cell.kind, ch) || ch.SignalStrength?))
      && (if IsNews(s.cell.kind, ch) && IsWatched(h, o.state.cell.kind)
          then o.state.deadline == Some(now + h.timeout) && (o.state.valid <==> NothingUnset(o.state.cell))
          else o.state.deadline == s.deadline && o.state.valid == s.valid)
  {
    var c' := Handled(h, s, now, ch).state.cell;
    assert WellFormed(c') by {
      NextKeepsRanges(h, Timed(s, now, now), Property(ch));
    }
    CompleteIffNothingUnset(c');
  }

  /** The physical id: an LTE cell that was another keeps its old strength for one, and no report
      changes it while the cell is LTE. */
  lemma PhysicalIdSpelledOut(h: Heuristics, s: State, now: int, ch: Change)
    requires WellFormed(s.cell) && Handled(h, s, now, ch).state.cell.kind == Lte
    ensures Handled(h, s, now, ch).state.cell.pid == if s.cell.kind == Lte then s.cell.pid else s.cell.strength
  {
  }

  // ----- Validity over runs -----

  predicate IsNewsEvent(k: RadioType, e: Event) {
    e.Property? && IsNews(k, e.change)
  }

  predicate LeavesValidity(k: RadioType, e: Event) {
    !IsNewsEvent(k, e) && !e.Timeout?
  }

  lemma {:induction false} ValidityStays(h: Heuristics, t: Timed, es: seq<Event>)
    requires WellFormed(t.state.cell) && forall e | e in es :: LeavesValidity(t.state.cell.kind, e)
    ensures var t' := Run(h, t, es);
      t'.state.valid == t.state.valid && t'.state.deadline == t.state.deadline && t'.state.cell.kind == t.state.cell.kind
    decreases |es|
  {
    if es != [] {
      assert es[0] in es;
      if es[0].Property? {
        ReportSpelledOut(h, t.state, t.now, es[0].change);
      }
      HeardIsNext(h, t, es[0]);
      NextKeepsRanges(h, t, es[0]);
      ValidityStays(h, Next(h, t, es[0]), es[1..]);
    }
  }

  /** In every run a watched cell is valid exactly if nothing of it was unset when the last news of
      it came, until its timer runs out; and then it is not until there is news again. */
  lemma ValidIffNothingWasUnset(h: Heuristics, t: Timed, before: seq<Event>, ch: Change, after: seq<Event>)
    requires WellFormed(t.state.cell)
    requires IsNews(Run(h, t, before).state.cell.kind, ch)
    requires var k := Next(h, Run(h, t, before), Property(ch)).state.cell.kind;
      IsWatched(h, k) && forall e | e in after :: LeavesValidity(k, e)
    ensures var judged := Next(h, Run(h, t, before), Property(ch));
      && (Run(h, judged, after).state.valid <==> NothingUnset(judged.state.cell))
      && !Next(h, Run(h, judged, after), Timeout).state.valid
  {
    RangesKept(h, t, before);
    var t1 := Run(h, t, before);
    ReportSpelledOut(h, t1.state, t1.now, ch);
    NextKeepsRanges(h, t1, Property(ch));
    ValidityStays(h, Next(h, t1, Property(ch)), after);
  }
}
