/** A radio cell as a plain record: the reference for the cached cell, whose details live in
    overlapping memory. */
module RadioRecord {

  import opened Wrappers

  datatype RadioType = Unknown | Gsm | Umts | Lte

  const NO_ID := 0x7fff_ffff
  const NO_STRENGTH := 99
  const NO_PID := -1

  /** `pid` is the physical id of an LTE cell; other cells have none. */
  datatype Cell = Cell(kind: RadioType, mcc: int, mnc: int, area: int, id: int, strength: int, pid: int)

  type uint32 = n: int | 0 <= n < 0x1_0000_0000

  /** Largest cell identity that the kind allows. */
  function MaxId(k: RadioType): int {
    if k == Gsm then 65535 else 268435455
  }

  /** A percentage capped to [0, 100] and scaled to 0..31. */
  function FromPercent(p: int): (s: int)
    ensures 0 <= s <= 31
    ensures s == 0 <==> 31 * p < 100
    ensures s == 31 <==> p >= 100
    ensures 0 < s ==> 100 * s <= 31 * p
    ensures s < 31 ==> 31 * p < 100 * (s + 1)
  {
    if p <= 0 then 0 else if p >= 100 then 31 else p * 31 / 100
  }

  predicate CodeOk(n: int) { 0 <= n <= 999 }

  predicate AreaOk(n: int) { 0 <= n <= 65535 }

  predicate Complete(c: Cell) {
    && c.kind != Unknown
    && CodeOk(c.mcc) && CodeOk(c.mnc) && AreaOk(c.area)
    && 0 <= c.id <= MaxId(c.kind)
    && 0 <= c.strength <= 31
    && (c.kind == Lte ==> 0 <= c.pid <= 503)
  }

  /** The cell after the network moved it to another technology: its place in the network is
      kept, its identity and strength are unknown. An LTE cell takes the old strength for its
      physical id. */
  function Switched(c: Cell, k: RadioType): Cell {
    Cell(k, c.mcc, c.mnc, c.area, NO_ID, NO_STRENGTH, if k == Lte then c.strength else NO_PID)
  }

  /** A property change of the network registration. `Technology(None)` is a name that is not
      in the table, `Malformed` a value of the wrong type. */
  datatype Change =
    | Technology(kind: Option<RadioType>)
    | CellId(id: uint32)
    | AreaCode(code: int)
    | CountryCode(code: int)
    | NetworkCode(code: int)
    | SignalStrength(percent: int)
    | Status(roaming: bool)
    | Malformed
    | Other

  /** `needed`: the modem firmware is problematic; `everyKind`: also watch cells that are not
      UMTS; `timeout`: seconds until a cell without change becomes invalid. */
  datatype Heuristics = Heuristics(needed: bool, everyKind: bool, timeout: nat) {
    predicate Watches(k: RadioType) {
      needed && (k == Umts || everyKind)
    }
  }

  datatype State = State(cell: Cell, valid: bool, roaming: bool, deadline: Option<int>)

  /** What a handler did: the new state, whether it announced a change, whether it threw, and
      whether it got as far as running the heuristics. */
  datatype Outcome = Outcome(state: State, announced: bool, threw: bool, identified: bool)

  function Watched(h: Heuristics, s: State, now: int): State {
    if h.Watches(s.cell.kind) then s.(valid := Complete(s.cell), deadline := Some(now + h.timeout)) else s
  }

  /** The value has the right type and lies in the range of the member it is meant for. */
  predicate Accepted(c: Cell, ch: Change) {
    match ch
    case CellId(id) => 0 <= id <= MaxId(c.kind)
    case AreaCode(n) => AreaOk(n)
    case CountryCode(n) => CodeOk(n)
    case NetworkCode(n) => CodeOk(n)
    case Malformed => false
    case _ => true
  }

  /** The change says something new about which cell this is. */
  predicate Identifies(c: Cell, ch: Change) {
    match ch
    case Technology(k) => k.Some? && k.value != Unknown && k.value != c.kind
    case CellId(_) => Accepted(c, ch)
    case AreaCode(_) => Accepted(c, ch)
    case CountryCode(_) => Accepted(c, ch)
    case NetworkCode(_) => Accepted(c, ch)
    case _ => false
  }

  /** A handler takes these for a new identity even while the technology is unknown, when nothing
      of them is stored. */
  predicate IdentifiesUnknown(ch: Change) {
    match ch
    case Technology(k) => k.Some? && k.value != Unknown
    case CellId(_) => true
    case AreaCode(_) => true
    case CountryCode(_) => true
    case NetworkCode(_) => true
    case _ => false
  }

  lemma UnknownIdentified(ch: Change)
    ensures !IdentifiesUnknown(ch) <==>
      || ch.SignalStrength? || ch.Status? || ch.Malformed? || ch.Other?
      || ch == Technology(None) || ch == Technology(Some(Unknown))
  {
  }

  function Reported(c: Cell, ch: Change): Cell {
    if !Accepted(c, ch) then c
    else
      match ch
      case Technology(k) => if Identifies(c, ch) then Switched(c, k.value) else c
      case CellId(id) => c.(id := id)
      case AreaCode(n) => c.(area := n)
      case CountryCode(n) => c.(mcc := n)
      case NetworkCode(n) => c.(mnc := n)
      case SignalStrength(p) => c.(strength := FromPercent(p))
      case _ => c
  }

  /** Validity is recomputed, after the announcement, only if the change identifies the cell; a
      value that is not accepted throws and changes nothing. */
  function Handled(h: Heuristics, s: State, now: int, ch: Change): Outcome {
    var s1 := s.(cell := Reported(s.cell, ch), roaming := if ch.Status? then ch.roaming else s.roaming);
    var identified := Identifies(s.cell, ch);
    Outcome(if identified then Watched(h, s1, now) else s1,
            s.valid && (identified || ch.SignalStrength?), !Accepted(s.cell, ch), identified)
  }

  function Expired(s: State): State {
    if s.deadline == None then s else s.(valid := false, deadline := None)
  }
}

/** The cached cell as an object: six words of memory that the GSM, UMTS and LTE details share,
    without a tag, beside the radio type. */
module CachedRadioCell {
  import opened Wrappers
  import opened RadioRecord

  datatype Member = Mcc | Mnc | Area | Id | PhysicalId | Strength

  /** Where a member of the details of kind `k` lies, in words; the area code is the location
      area code or, for LTE, the tracking area code. */
  function Word(k: RadioType, m: Member): (w: nat)
    ensures w < 6
  {
    match m
    case Mcc => 0
    case Mnc => 1
    case Area => 2
    case Id => 3
    case PhysicalId => 4
    case Strength => if k == Lte then 5 else 4
  }

  /** An unsigned 32-bit property value passed where a signed one is expected. */
  function AsSigned(u: uint32): int {
    if u < 0x8000_0000 then u else u - 0x1_0000_0000
  }

  class CachedRadioCell {
    const heuristics: Heuristics
    const detail: array<int>
    var radioType: RadioType
    var valid: bool
    var roaming: bool
    var deadline: Option<int>

    ghost predicate Valid() {
      detail.Length == 6
    }

    function Read(m: Member): int
      requires Valid()
      reads this, detail
    {
      detail[Word(radioType, m)]
    }

    /** The record that the memory stands for while the radio type is known. */
    ghost function Record(): Cell
      requires Valid()
      reads this, detail
    {
      Cell(radioType, Read(Mcc), Read(Mnc), Read(Area), Read(Id), Read(Strength),
           if radioType == Lte then Read(PhysicalId) else NO_PID)
    }

    ghost function Value(): State
      requires Valid()
      reads this, detail
    {
      State(Record(), valid, roaming, deadline)
    }

    /** A cell whose memory holds whatever was there before. */
    constructor (heuristics: Heuristics, radioType: RadioType, uninitialised: seq<int>)
      requires |uninitialised| == 6
      ensures Valid() && fresh(detail) && detail[..] == uninitialised
      ensures this.heuristics == heuristics && this.radioType == radioType
      ensures valid && !roaming && deadline == None
    {
      this.heuristics := heuristics;
      this.radioType := radioType;
      valid, roaming, deadline := true, false, None;
      detail := new int[6](i requires 0 <= i < 6 => uninitialised[i]);
    }

    /** Creates the cell of a modem from what its network registration reports. Nothing is
        returned if a reported value is out of range; an unregistered modem or an unknown
        technology leaves the details uninitialised. */
    static method Create(heuristics: Heuristics, registered: bool, isRoaming: bool, kind: RadioType,
                         mcc: int, mnc: int, lac: int, id: int, percent: int,
                         uninitialised: seq<int>, now: int)
      returns (cell: Option<CachedRadioCell>)
      requires |uninitialised| == 6
      ensures cell.Some? ==> cell.value.Valid() && fresh(cell.value) && fresh(cell.value.detail)
      ensures cell.Some? ==> cell.value.heuristics == heuristics && cell.value.radioType == kind
      ensures registered && kind != Unknown ==>
                var built := Cell(kind, mcc, mnc, lac, id, FromPercent(percent), NO_PID);
                var ok := CodeOk(mcc) && CodeOk(mnc) && AreaOk(lac) && 0 <= id <= MaxId(kind);
                && cell.Some? == ok
                && (ok ==> cell.value.Value() == Watched(heuristics, State(built, true, isRoaming, None), now))
      ensures !(registered && kind != Unknown) ==>
                && cell.Some?
                && cell.value.detail[..] == uninitialised
                && cell.value.valid && !cell.value.roaming && cell.value.deadline == None
    {
      var c := new CachedRadioCell(heuristics, kind, uninitialised);
      if !registered || kind == Unknown {
        return Some(c);
      }
      if !(CodeOk(mcc) && CodeOk(mnc) && AreaOk(lac) && 0 <= id <= MaxId(kind)) {
        return None;
      }
      c.detail[Word(kind, Mcc)] := mcc;
      c.detail[Word(kind, Mnc)] := mnc;
      c.detail[Word(kind, Area)] := lac;
      c.detail[Word(kind, Id)] := id;
      if kind == Lte {
        c.detail[Word(kind, PhysicalId)] := NO_PID;
      }
      c.detail[Word(kind, Strength)] := FromPercent(percent);
      c.roaming := isRoaming;
      c.ExecuteHeuristics(now);
      cell := Some(c);
    }

    method IsComplete() returns (complete: bool)
      requires Valid()
      ensures complete == Complete(Record())
    {
      complete :=
        && radioType != Unknown
        && CodeOk(Read(Mcc)) && CodeOk(Read(Mnc)) && AreaOk(Read(Area))
        && 0 <= Read(Id) <= MaxId(radioType)
        && (radioType == Lte ==> 0 <= Read(PhysicalId) <= 503)
        && 0 <= Read(Strength) <= 31;
    }

    /** Re-arms the timer and recomputes validity, if this cell is watched. */
    method ExecuteHeuristics(now: int)
      requires Valid()
      modifies this`valid, this`deadline
      ensures Value() == Watched(heuristics, old(Value()), now)
    {
      if heuristics.needed && (radioType == Umts || heuristics.everyKind) {
        deadline := Some(now + heuristics.timeout);
        valid := IsComplete();
      }
    }

    /** Copies what the two technologies have in common from one view of the memory to the
        other, and resets the rest. */
    method SwitchTechnology(to: RadioType)
      requires Valid() && radioType != to && to != Unknown
      modifies this`radioType, detail
      ensures radioType == to
      ensures old(radioType) != Unknown ==> Record() == Switched(old(Record()), to)
      ensures old(radioType) == Unknown ==> detail[..] == old(detail[..])
    {
      if radioType != Unknown {
        detail[Word(to, Area)] := detail[Word(radioType, Area)];
        detail[Word(to, Mnc)] := detail[Word(radioType, Mnc)];
        detail[Word(to, Mcc)] := detail[Word(radioType, Mcc)];
        detail[Word(to, Strength)] := NO_STRENGTH;
        detail[Word(to, Id)] := NO_ID;
      }
      radioType := to;
    }

    /** Stores `value` through the view of the current technology, or refuses it. */
    method SetMember(m: Member, value: int, max: int) returns (threw: bool)
      requires Valid()
      modifies detail
      ensures threw == (radioType != Unknown && !(0 <= value <= max))
      ensures detail[..] == if radioType == Unknown || threw then old(detail[..])
                            else old(detail[..])[Word(radioType, m) := value]
    {
      if radioType == Unknown {
        return false;
      }
      if value < 0 || value > max {
        return true;
      }
      detail[Word(radioType, m)] := value;
      threw := false;
    }

    /** The part of the handler that stores the reported value. */
    method Store(c: Change) returns (identified: bool, threw: bool)
      requires Valid()
      modifies this`radioType, this`roaming, detail
      ensures old(radioType) != Unknown ==>
                && Record() == Reported(old(Record()), c)
                && identified == Identifies(old(Record()), c)
                && threw == !Accepted(old(Record()), c)
      ensures old(radioType) == Unknown ==>
                && detail[..] == old(detail[..])
                && radioType == (if c.Technology? && IdentifiesUnknown(c) then c.kind.value else Unknown)
                && identified == IdentifiesUnknown(c) && threw == c.Malformed?
      ensures roaming == if c.Status? then c.roaming else old(roaming)
    {
      identified, threw := false, false;
      match c {
        case Technology(k) =>
          if k == None || k == Some(Unknown) || k == Some(radioType) {
            return;
          }
          SwitchTechnology(k.value);
          identified := true;
        case CellId(id) =>
          threw := SetMember(Id, AsSigned(id), MaxId(radioType));
          identified := !threw;
        case AreaCode(n) =>
          threw := SetMember(Area, n, 65535);
          identified := !threw;
        case CountryCode(n) =>
          threw := SetMember(Mcc, n, 999);
          identified := !threw;
        case NetworkCode(n) =>
          threw := SetMember(Mnc, n, 999);
          identified := !threw;
        case SignalStrength(p) =>
          if radioType != Unknown {
            detail[Word(radioType, Strength)] := FromPercent(p);
          }
        case Status(r) =>
          roaming := r;
        case Malformed =>
          threw := true;
        case Other =>
      }
    }

    method OnPropertyChanged(c: Change, now: int) returns (announced: bool, threw: bool)
      requires Valid()
      modifies this, detail
      ensures old(radioType) != Unknown ==>
                Outcome(Value(), announced, threw, Identifies(old(Record()), c)) == Handled(heuristics, old(Value()), now, c)
      ensures old(radioType) == Unknown ==>
                var found := State(Record(), old(valid), if c.Status? then c.roaming else old(roaming), old(deadline));
                && detail[..] == old(detail[..])
                && radioType == (if c.Technology? && IdentifiesUnknown(c) then c.kind.value else Unknown)
                && Value() == (if IdentifiesUnknown(c) then Watched(heuristics, found, now) else found)
                && announced == (old(valid) && (IdentifiesUnknown(c) || c.SignalStrength?))
                && threw == c.Malformed?
    {
      var identified;
      identified, threw := Store(c);
      announced := valid && (identified || c.SignalStrength?);
      if identified {
        ExecuteHeuristics(now);
      }
    }

    /** The invalidation timer ran out. */
    method OnTimeout()
      requires Valid()
      modifies this`valid, this`deadline
      ensures Value() == Expired(old(Value()))
      ensures deadline == None && valid == (old(valid) && old(deadline) == None)
    {
      if deadline != None {
        valid, deadline := false, None;
      }
    }
  }
}
