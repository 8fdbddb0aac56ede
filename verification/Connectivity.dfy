/** The manager object: its caches, the lock that guards them, and a record of what each handler
    did with the lock. */
module Connectivity {
  import opened Wrappers
  import opened Announcements
  import R = RadioCaches
  import opened WifiAnnouncements

  datatype Action =
    | Lock
    | Unlock
    | EnterAccessPointAdded
    | AnnounceWifi(announcement: Announcement)
    | AnnounceCell(news: Announcement)

  /** Whether a handler's lock is held after the actions `t`; none if it was taken twice or
      released unowned, if an access point was handled without it, or if anything was announced
      under it. */
  function Held(t: seq<Action>): Option<bool> {
    if t == [] then Some(false) else Then(Held(t[..|t| - 1]), t[|t| - 1])
  }

  function Then(held: Option<bool>, a: Action): Option<bool> {
    if held == None then None
    else
      match a
      case Lock => if held.value then None else Some(true)
      case Unlock => if held.value then Some(false) else None
      case EnterAccessPointAdded => if held.value then Some(true) else None
      case AnnounceWifi(_) => if held.value then None else Some(false)
      case AnnounceCell(_) => if held.value then None else Some(false)
  }

  /** The discipline action by action. */
  lemma {:induction false} HeldSpellsOut(t: seq<Action>, i: nat)
    requires Held(t) != None && i < |t|
    ensures Held(t[..i]) == match t[i]
                            case Lock => Some(false)
                            case Unlock => Some(true)
                            case EnterAccessPointAdded => Some(true)
                            case AnnounceWifi(_) => Some(false)
                            case AnnounceCell(_) => Some(false)
  {
    if i < |t| - 1 {
      assert t[..|t| - 1][..i] == t[..i];
      HeldSpellsOut(t[..|t| - 1], i);
    }
  }

  lemma HeldOneMore(t: seq<Action>, a: Action)
    ensures Held(t + [a]) == Then(Held(t), a)
  {
    assert (t + [a])[..|t|] == t;
  }

  // ----- Handlers of access points among those of other threads -----

  /** Acts of other threads, which do not make the announcement with our ticket. */
  function Others(acts: seq<Act>, ticket: nat): (others: seq<Act>)
    ensures Announces(ticket) !in others
    decreases |acts|
  {
    if acts == [] then []
    else (if acts[0] == Announces(ticket) then [] else [acts[0]]) + Others(acts[1..], ticket)
  }

  /** A change, what other threads do before it is announced, and the announcement. */
  function Announced(n: Net, change: Act, during: seq<Act>): Net {
    After(AfterAll(After(n, change), Others(during, |n.book.made|)), Announces(|n.book.made|))
  }

  /** Where a handler stands: the networks, its lock, and its record. */
  datatype Progress = Progress(net: Net, held: bool, trace: seq<Action>)

  /** The handling of an access point, which is entered with the lock held. */
  function AccessPointAdded(s: Progress, path: Path, device: Path, wifi: Option<nat>, during: seq<Act>): Progress {
    if !Adds(s.net, device, wifi) then s.(trace := s.trace + [EnterAccessPointAdded])
    else Progress(Announced(s.net, Appears(path, device, wifi), during), false,
                  s.trace + [EnterAccessPointAdded, Unlock, AnnounceWifi(Appeared(path, wifi.value))])
  }

  function AccessPointRemoved(s: Progress, path: Path, during: seq<Act>): Progress {
    if path !in s.net.wifis then s
    else Progress(Announced(s.net, Vanishes(path), during), false,
                  s.trace + [Unlock, AnnounceWifi(Vanished(path, s.net.wifis[path]))])
  }

  /** An access point met while a device is added. `wifi` is the network object built for it, or
      none if building it throws. `before` is what other threads do before the lock is taken
      again, if it has to be, and `during` what they do before the announcement is made. */
  datatype Visit = Visit(path: Path, wifi: Option<nat>, before: seq<Act>, during: seq<Act>)

  function Visited(s: Progress, device: Path, v: Visit): Progress {
    var locked := if s.held then s else Entered(s.(net := AfterAll(s.net, v.before)));
    AccessPointAdded(locked, v.path, device, v.wifi, v.during)
  }

  function VisitedAll(s: Progress, device: Path, visits: seq<Visit>): Progress {
    if visits == [] then s
    else Visited(VisitedAll(s, device, visits[..|visits| - 1]), device, visits[|visits| - 1])
  }

  /** The handling of a device, entered with the lock held. The bus is asked for its kind twice,
      before a modem and before a wifi device would be stored, and then for the access points;
      each time it may throw. `again` tells whether the second question is answered. */
  function DeviceAdded(s: Progress, path: Path, kind: Option<DeviceKind>, again: bool,
                       visits: Option<seq<Visit>>): Progress {
    if path in s.net.devices || kind == None || (kind.value != ModemDevice && !again) then s
    else
      var added := s.(net := After(s.net, DeviceAppears(path, kind.value)));
      if kind.value == WifiDevice && visits.Some? then VisitedAll(added, path, visits.value) else added
  }

  predicate DeviceThrows(kind: Option<DeviceKind>, again: bool, visits: Option<seq<Visit>>) {
    kind == None || !again || (kind == Some(WifiDevice) && visits == None)
  }

  /** The lock is taken, and what is still owned of it released. */
  function Entered(s: Progress): Progress {
    s.(held := true, trace := s.trace + [Lock])
  }

  function Left(s: Progress): Progress {
    if s.held then s.(held := false, trace := s.trace + [Unlock]) else s
  }

  /** An announcement stays due until it is made. */
  lemma {:induction false} StaysDue(n: Net, acts: seq<Act>, ticket: nat)
    requires ticket in n.book.due && ticket < |n.book.made| && Announces(ticket) !in acts
    ensures var b := AfterAll(n, acts).book;
      ticket in b.due && ticket < |b.made| && b.made[ticket] == n.book.made[ticket]
    decreases |acts|
  {
    if acts != [] {
      assert acts[0] in acts;
      StaysDue(After(n, acts[0]), acts[1..], ticket);
    }
  }

  lemma {:induction false} HeldWhileAdded(s: Progress, path: Path, device: Path, wifi: Option<nat>, during: seq<Act>)
    requires s.held && Held(s.trace) == Some(true)
    ensures var s' := AccessPointAdded(s, path, device, wifi, during); Held(s'.trace) == Some(s'.held)
  {
    HeldOneMore(s.trace, EnterAccessPointAdded);
    var t := s.trace + [EnterAccessPointAdded];
    if Adds(s.net, device, wifi) {
      HeldOneMore(t, Unlock);
      HeldOneMore(t + [Unlock], AnnounceWifi(Appeared(path, wifi.value)));
      assert t + [Unlock] + [AnnounceWifi(Appeared(path, wifi.value))]
          == s.trace + [EnterAccessPointAdded, Unlock, AnnounceWifi(Appeared(path, wifi.value))];
    }
  }

  /** The acts of meeting one access point: those of other threads while the lock is released, and
      then, if the network is added, the addition, those of other threads, and the announcement. */
  lemma {:induction false} VisitIsARun(s: Progress, device: Path, v: Visit) returns (acts: seq<Act>)
    requires Held(s.trace) == Some(s.held)
    ensures var s' := Visited(s, device, v);
      s'.net == AfterAll(s.net, acts) && Held(s'.trace) == Some(s'.held)
    ensures var before := if s.held then [] else v.before;
      var n := AfterAll(s.net, before);
      acts == before + if device in n.devices && n.devices[device] == WifiDevice && v.wifi.Some?
                       then [Appears(v.path, device, v.wifi)] + Others(v.during, |n.book.made|) + [Announces(|n.book.made|)]
                       else []
  {
    HeldOneMore(s.trace, Lock);
    var before := if s.held then [] else v.before;
    var locked := if s.held then s else Entered(s.(net := AfterAll(s.net, v.before)));
    assert locked.net == AfterAll(s.net, before) && locked.held && Held(locked.trace) == Some(true);
    var own := AdditionSpelledOut(locked, v.path, device, v.wifi, v.during);
    AfterBoth(s.net, before, own);
    acts := before + own;
  }

  /** For any number of access points, with other threads in between: the discipline is kept, and
      what the handler and the others did is a run of their atomic parts, so that whatever holds
      in every run holds afterwards. */
  lemma {:induction false} VisitsAreARun(s: Progress, device: Path, visits: seq<Visit>) returns (acts: seq<Act>)
    requires Held(s.trace) == Some(s.held)
    ensures var s' := VisitedAll(s, device, visits);
      s'.net == AfterAll(s.net, acts) && Held(s'.trace) == Some(s'.held)
  {
    if visits == [] {
      acts := [];
    } else {
      var before := visits[..|visits| - 1];
      var earlier := VisitsAreARun(s, device, before);
      var last := VisitIsARun(VisitedAll(s, device, before), device, visits[|visits| - 1]);
      AfterBoth(s.net, earlier, last);
      acts := earlier + last;
    }
  }

  lemma {:induction false} AnnouncedIsARun(n: Net, change: Act, during: seq<Act>) returns (acts: seq<Act>)
    ensures acts == [change] + Others(during, |n.book.made|) + [Announces(|n.book.made|)]
    ensures Announced(n, change, during) == AfterAll(n, acts)
  {
    var others, last := Others(during, |n.book.made|), Announces(|n.book.made|);
    AfterBoth(After(n, change), others, [last]);
    acts := [change] + others + [last];
    assert acts[1..] == others + [last];
    assert AfterAll(AfterAll(After(n, change), others), [last]) == After(AfterAll(After(n, change), others), last);
  }

  /** Other threads do all that they do but our own announcement. */
  lemma {:induction false} OthersDoAllElse(acts: seq<Act>, ticket: nat)
    ensures Announces(ticket) !in acts ==> Others(acts, ticket) == acts
    decreases |acts|
  {
    if acts != [] {
      OthersDoAllElse(acts[1..], ticket);
    }
  }

  // ----- Handlers of access points, spelled out -----

  /** An access point that is removed: a known network is taken away and then, after the lock is
      released and other threads have come in, announced as vanished; for an unknown one nothing
      happens. */
  lemma {:induction false} RemovalSpelledOut(s: Progress, path: Path, during: seq<Act>) returns (acts: seq<Act>)
    requires s.held && Held(s.trace) == Some(true)
    ensures path !in s.net.wifis ==> AccessPointRemoved(s, path, during) == s
    ensures path in s.net.wifis ==>
      var s' := AccessPointRemoved(s, path, during);
      && acts == [Vanishes(path)] + Others(during, |s.net.book.made|) + [Announces(|s.net.book.made|)]
      && s'.net == AfterAll(s.net, acts)
      && !s'.held && Held(s'.trace) == Some(false)
      && s'.trace == s.trace + [Unlock, AnnounceWifi(Vanished(path, s.net.wifis[path]))]
  {
    acts := [];
    if path in s.net.wifis {
      acts := AnnouncedIsARun(s.net, Vanishes(path), during);
      var a := AnnounceWifi(Vanished(path, s.net.wifis[path]));
      HeldOneMore(s.trace, Unlock);
      HeldOneMore(s.trace + [Unlock], a);
      assert s.trace + [Unlock] + [a] == s.trace + [Unlock, a];
    }
  }

  /** An access point that is added, for a known wifi device and if its network could be built;
      nothing happens otherwise, and the lock is kept. */
  lemma {:induction false} AdditionSpelledOut(s: Progress, path: Path, device: Path, wifi: Option<nat>, during: seq<Act>)
    returns (acts: seq<Act>)
    requires s.held && Held(s.trace) == Some(true)
    ensures var s' := AccessPointAdded(s, path, device, wifi, during);
      && Held(s'.trace) == Some(s'.held)
      && if device in s.net.devices && s.net.devices[device] == WifiDevice && wifi.Some?
         then && acts == [Appears(path, device, wifi)] + Others(during, |s.net.book.made|) + [Announces(|s.net.book.made|)]
              && s'.net == AfterAll(s.net, acts) && !s'.held
              && s'.trace == s.trace + [EnterAccessPointAdded, Unlock, AnnounceWifi(Appeared(path, wifi.value))]
         else acts == [] && s'.net == s.net && s'.held && s'.trace == s.trace + [EnterAccessPointAdded]
  {
    acts := [];
    HeldWhileAdded(s, path, device, wifi, during);
    if Adds(s.net, device, wifi) {
      acts := AnnouncedIsARun(s.net, Appears(path, device, wifi), during);
    }
  }

  /** With the signal's lock around them. */
  lemma {:induction false} SignalledRemoval(s: Progress, path: Path, during: seq<Act>)
    requires !s.held
    ensures var s' := Left(AccessPointRemoved(Entered(s), path, during));
      && s'.trace == s.trace + [Lock, Unlock]
                     + (if path in s.net.wifis then [AnnounceWifi(Vanished(path, s.net.wifis[path]))] else [])
      && (during == [] ==> s'.net.wifis == s.net.wifis - {path})
  {
    if path in s.net.wifis {
      var a := AnnounceWifi(Vanished(path, s.net.wifis[path]));
      assert s.trace + [Lock] + [Unlock, a] == s.trace + [Lock, Unlock] + [a];
    } else {
      assert s.net.wifis - {path} == s.net.wifis;
    }
  }

  lemma {:induction false} SignalledAddition(s: Progress, path: Path, device: Path, wifi: Option<nat>, during: seq<Act>)
    requires !s.held
    ensures var s' := Left(AccessPointAdded(Entered(s), path, device, wifi, during));
      var added := device in s.net.devices && s.net.devices[device] == WifiDevice && wifi.Some?;
      && s'.trace == s.trace + [Lock, EnterAccessPointAdded, Unlock]
                     + (if added then [AnnounceWifi(Appeared(path, wifi.value))] else [])
      && (during == [] ==> s'.net.wifis == if added then s.net.wifis[path := wifi.value] else s.net.wifis)
  {
    if Adds(s.net, device, wifi) {
      var a := AnnounceWifi(Appeared(path, wifi.value));
      assert s.trace + [Lock] + [EnterAccessPointAdded, Unlock, a] == s.trace + [Lock, EnterAccessPointAdded, Unlock] + [a];
    }
  }

  /** Undisturbed, exactly the one network is gone or there, and an observer who agreed knows it. */
  lemma {:induction false} UndisturbedRemoval(s: Progress, path: Path)
    requires path in s.net.wifis
    ensures var n := AccessPointRemoved(s, path, []).net;
      && n.devices == s.net.devices && n.wifis == s.net.wifis - {path}
      && (Mirrors(s.net) ==> Mirrors(n) && path !in Observer(n.book))
  {
    if Mirrors(s.net) {
      AtomicHandlerMirrors(s.net, Vanishes(path));
    }
  }

  lemma {:induction false} UndisturbedAddition(s: Progress, path: Path, device: Path, wifi: nat)
    requires device in s.net.devices && s.net.devices[device] == WifiDevice
    ensures var n := AccessPointAdded(s, path, device, Some(wifi), []).net;
      && n.devices == s.net.devices && n.wifis == s.net.wifis[path := wifi]
      && (Mirrors(s.net) ==> Mirrors(n) && path in Observer(n.book) && Observer(n.book)[path] == wifi)
  {
    if Mirrors(s.net) {
      AtomicHandlerMirrors(s.net, Appears(path, device, Some(wifi)));
    }
  }

  /** Nothing is due and the observer agrees. */
  ghost predicate Mirrors(n: Net) {
    n.book.due == {} && Agrees(n)
  }

  /** A change that is announced before anything else happens keeps an observer in agreement. */
  lemma {:induction false} ChangeMirrors(n: Net, a: Announcement)
    requires Mirrors(n)
    ensures Mirrors(After(Changed(n, a), Announces(|n.book.made|)))
  {
    TellingAtOnceAgrees(n.book, n.wifis, a);
    assert After(Changed(n, a), Announces(|n.book.made|))
        == n.(wifis := Observed(n.wifis, a), book := Tell(Note(n.book, a), |n.book.made|));
  }

  /** A handler that no other thread comes into. */
  lemma {:induction false} AtomicHandlerMirrors(n: Net, act: Act)
    requires Mirrors(n)
    ensures Mirrors(Announced(n, act, []))
  {
    assert AfterAll(After(n, act), []) == After(n, act);
    match act {
      case Appears(p, device, wifi) =>
        if Adds(n, device, wifi) {
          ChangeMirrors(n, Appeared(p, wifi.value));
        }
      case Vanishes(p) =>
        if p in n.wifis {
          ChangeMirrors(n, Vanished(p, n.wifis[p]));
        }
      case _ =>
    }
  }

  function HandledAll(n: Net, acts: seq<Act>): Net
    decreases |acts|
  {
    if acts == [] then n else HandledAll(Announced(n, acts[0], []), acts[1..])
  }

  /** With handlers atomic, an observer holds exactly the cached networks after any run of them. */
  lemma {:induction false} AtomicHandlersMirror(n: Net, acts: seq<Act>)
    requires Mirrors(n)
    ensures Mirrors(HandledAll(n, acts))
    decreases |acts|
  {
    if acts != [] {
      AtomicHandlerMirrors(n, acts[0]);
      AtomicHandlersMirror(Announced(n, acts[0], []), acts[1..]);
    }
  }

  ghost predicate Undisturbed(visits: seq<Visit>) {
    forall v :: v in visits ==> v.before == [] && v.during == []
  }

  /** The networks cached after the access points in `visits` were met, some of which throw. */
  function Gathered(wifis: map<Path, nat>, visits: seq<Visit>): map<Path, nat> {
    if visits == [] then wifis
    else
      var before := Gathered(wifis, visits[..|visits| - 1]);
      var v := visits[|visits| - 1];
      if v.wifi == None then before else before[v.path := v.wifi.value]
  }

  /** Undisturbed, a wifi device adds exactly the networks that could be built, and observers keep
      in agreement. */
  lemma {:induction false} UndisturbedVisits(s: Progress, device: Path, visits: seq<Visit>)
    requires Undisturbed(visits) && device in s.net.devices && s.net.devices[device] == WifiDevice
    ensures var n := VisitedAll(s, device, visits).net;
      n.devices == s.net.devices && n.wifis == Gathered(s.net.wifis, visits) && (Mirrors(s.net) ==> Mirrors(n))
  {
    if visits != [] {
      var v := visits[|visits| - 1];
      assert v in visits;
      UndisturbedVisits(s, device, visits[..|visits| - 1]);
      var n := VisitedAll(s, device, visits[..|visits| - 1]).net;
      if v.wifi.Some? && Mirrors(n) {
        AtomicHandlerMirrors(n, Appears(v.path, device, v.wifi));
      }
    }
  }

  lemma {:induction false} DeviceAddedIsARun(s: Progress, path: Path, kind: Option<DeviceKind>, again: bool, visits: Option<seq<Visit>>)
    returns (acts: seq<Act>)
    requires s.held && Held(s.trace) == Some(true)
    ensures var s' := DeviceAdded(s, path, kind, again, visits);
      s'.net == AfterAll(s.net, acts) && Held(s'.trace) == Some(s'.held)
  {
    acts := [];
    if path !in s.net.devices && kind.Some? && (kind.value == ModemDevice || again) {
      var first := DeviceAppears(path, kind.value);
      acts := [first];
      if kind.value == WifiDevice && visits.Some? {
        var rest := VisitsAreARun(s.(net := After(s.net, first)), path, visits.value);
        AfterBoth(s.net, [first], rest);
        acts := [first] + rest;
      }
    }
  }

  /** Which device becomes known, and when its access points are met: a modem device even if the
      second question throws, a wifi device only if it is answered, and no other. */
  lemma DeviceSpelledOut(s: Progress, path: Path, kind: Option<DeviceKind>, again: bool, visits: Option<seq<Visit>>)
    ensures var s' := DeviceAdded(s, path, kind, again, visits);
      var stored := path !in s.net.devices
                    && (kind == Some(ModemDevice) || (kind == Some(WifiDevice) && again));
      && (!stored ==> s' == s)
      && (stored && (kind == Some(ModemDevice) || visits == None) ==>
            s' == s.(net := s.net.(devices := s.net.devices[path := kind.value])))
      && (stored && kind == Some(WifiDevice) && visits.Some? ==>
            s' == VisitedAll(s.(net := s.net.(devices := s.net.devices[path := WifiDevice])), path, visits.value))
  {
  }

  lemma {:induction false} UndisturbedDevice(s: Progress, path: Path, visits: seq<Visit>)
    requires Undisturbed(visits) && path !in s.net.devices
    ensures var n := DeviceAdded(s, path, Some(WifiDevice), true, Some(visits)).net;
      n.devices == s.net.devices[path := WifiDevice] && n.wifis == Gathered(s.net.wifis, visits)
  {
    UndisturbedVisits(s.(net := After(s.net, DeviceAppears(path, WifiDevice))), path, visits);
  }

  /** Whatever of it throws. */
  lemma {:induction false} UndisturbedDeviceMirrors(s: Progress, path: Path, kind: Option<DeviceKind>, again: bool,
                                                    visits: Option<seq<Visit>>)
    requires Mirrors(s.net) && (visits.Some? ==> Undisturbed(visits.value))
    ensures Mirrors(DeviceAdded(s, path, kind, again, visits).net)
  {
    if path !in s.net.devices && kind == Some(WifiDevice) && again && visits.Some? {
      UndisturbedVisits(s.(net := After(s.net, DeviceAppears(path, WifiDevice))), path, visits.value);
    }
  }

  class Manager {
    var locked: bool
    var modems: set<Path>
    var cells: map<Path, nat>
    var tasks: seq<R.Task>
    var devices: map<Path, DeviceKind>
    var wifis: map<Path, nat>
    var book: Book
    var trace: seq<Action>

    /** The lock discipline was kept so far. */
    ghost predicate Valid()
      reads this
    {
      Held(trace) == Some(locked)
    }

    ghost function Radio(): R.Caches
      reads this
    {
      R.Caches(modems, cells, tasks)
    }

    function Air(): Net
      reads this
    {
      Net(devices, wifis, book)
    }

    ghost function Stand(): Progress
      reads this
    {
      Progress(Air(), locked, trace)
    }

    constructor ()
      ensures Valid() && !locked && trace == [] && Mirrors(Air())
      ensures Air() == START && Kept(START)
      ensures Radio() == R.Caches({}, map[], []) && R.CellsHaveModems(Radio())
    {
      locked, trace := false, [];
      modems, cells, tasks := {}, map[], [];
      devices, wifis := map[], map[];
      book := BLANK;
      StartIsCurrent();
    }

    method Acquire()
      requires Valid() && !locked
      modifies this`locked, this`trace
      ensures Valid() && locked && trace == old(trace) + [Lock]
    {
      HeldOneMore(trace, Lock);
      locked, trace := true, trace + [Lock];
    }

    method Release()
      requires Valid() && locked
      modifies this`locked, this`trace
      ensures Valid() && !locked && trace == old(trace) + [Unlock]
    {
      HeldOneMore(trace, Unlock);
      locked, trace := false, trace + [Unlock];
    }

    /** A handler's lock releases what it still owns when the handler ends. */
    method Leave()
      requires Valid()
      modifies this`locked, this`trace
      ensures Valid() && !locked
      ensures trace == old(trace) + if old(locked) then [Unlock] else []
    {
      if locked {
        Release();
      }
    }

    // ----- Modems and radio cells -----

    /** What a handler of modems leaves in the record: its lock, then its news. */
    function Recorded(before: seq<Action>, news: Option<Announcement>): seq<Action> {
      before + [Lock, Unlock] + if news == None then [] else [AnnounceCell(news.value)]
    }

    /** The end of such a handler: the lock is released before the news, if there is any, and at
        the end otherwise. */
    method Publish(news: Option<Announcement>, ghost before: seq<Action>)
      requires Valid() && locked && trace == before + [Lock]
      modifies this`locked, this`trace
      ensures Valid() && !locked && trace == Recorded(before, news)
    {
      Release();
      if news.Some? {
        HeldOneMore(trace, AnnounceCell(news.value));
        trace := trace + [AnnounceCell(news.value)];
      }
    }

    /** The part under the lock. */
    method AddModem(path: Path, cell: Option<nat>) returns (adding: R.Adding)
      requires R.CellsHaveModems(Radio())
      modifies this`modems, this`cells
      ensures Radio() == R.Step(old(Radio()), R.ModemAdded(path, cell)) && R.CellsHaveModems(Radio())
      ensures adding == R.AddingModem(old(Radio()), path, cell) != R.KnownCell
    {
      if path in modems {
        return R.KnownModem;
      }
      modems := modems + {path};
      if cell == None {
        return R.Failed;
      }
      if path in cells {
        assert false;
      }
      cells := cells[path := cell.value];
      adding := R.Cached;
    }

    method OnModemAdded(path: Path, cell: Option<nat>) returns (adding: R.Adding)
      requires Valid() && !locked && R.CellsHaveModems(Radio())
      modifies this`modems, this`cells, this`locked, this`trace
      ensures Valid() && !locked && R.CellsHaveModems(Radio())
      ensures Radio() == R.Step(old(Radio()), R.ModemAdded(path, cell))
      ensures adding == R.AddingModem(old(Radio()), path, cell) != R.KnownCell
      ensures trace == Recorded(old(trace), R.NewsOf(old(Radio()), R.ModemAdded(path, cell)))
      ensures path in modems && (path in old(modems) ==> modems == old(modems))
      ensures path in old(modems) || cell == None ==> cells == old(cells) && trace == old(trace) + [Lock, Unlock]
      ensures path !in old(modems) && cell.Some? ==>
                && cells == old(cells)[path := cell.value]
                && trace == old(trace) + [Lock, Unlock, AnnounceCell(Appeared(path, cell.value))]
    {
      Acquire();
      adding := AddModem(path, cell);
      Publish(if adding == R.Cached then Some(Appeared(path, cell.value)) else None, old(trace));
    }

    method OnModemRemoved(path: Path)
      requires Valid() && !locked && R.CellsHaveModems(Radio())
      modifies this`modems, this`cells, this`locked, this`trace
      ensures Valid() && !locked && R.CellsHaveModems(Radio())
      ensures Radio() == R.Step(old(Radio()), R.ModemRemoved(path))
      ensures trace == Recorded(old(trace), R.NewsOf(old(Radio()), R.ModemRemoved(path)))
      ensures modems == old(modems) - {path} && cells == old(cells) - {path}
      ensures trace == old(trace) + [Lock, Unlock]
                       + if path in old(cells) then [AnnounceCell(Vanished(path, old(cells)[path]))] else []
    {
      Acquire();
      var news := if path in cells then Some(Vanished(path, cells[path])) else None;
      cells := cells - {path};
      modems := modems - {path};
      Publish(news, old(trace));
    }

    /** The signal only posts a task. */
    method OnInterfacesReported(path: Path, hasRegistration: bool)
      requires R.CellsHaveModems(Radio())
      modifies this`tasks
      ensures R.CellsHaveModems(Radio())
      ensures Radio() == R.Step(old(Radio()), R.InterfacesReported(path, hasRegistration))
    {
      tasks := tasks + [R.InterfacesChanged(path, hasRegistration)];
    }

    method RunTask(i: nat, cell: Option<nat>)
      requires Valid() && !locked && R.CellsHaveModems(Radio()) && i < |tasks|
      modifies this`cells, this`tasks, this`locked, this`trace
      ensures Valid() && !locked && R.CellsHaveModems(Radio())
      ensures Radio() == R.Step(old(Radio()), R.TaskRun(i, cell))
      ensures trace == Recorded(old(trace), R.NewsOf(old(Radio()), R.TaskRun(i, cell)))
    {
      var task := tasks[i];
      tasks := tasks[..i] + tasks[i + 1..];
      ghost var c := Radio();
      assert R.Step(old(Radio()), R.TaskRun(i, cell)) == R.Perform(c, task, cell);
      match task {
        case InterfacesChanged(path, has) => OnModemInterfacesChanged(path, has, cell);
        case CreateCell(path) => OnCreateCell(path, cell);
      }
    }

    method FollowInterfaces(path: Path, hasRegistration: bool, ghost cell: Option<nat>) returns (news: Option<Announcement>)
      requires R.CellsHaveModems(Radio())
      modifies this`cells, this`tasks
      ensures Radio() == R.Perform(old(Radio()), R.InterfacesChanged(path, hasRegistration), cell)
      ensures R.CellsHaveModems(Radio())
      ensures news == R.NewsOfTask(old(Radio()), R.InterfacesChanged(path, hasRegistration), cell)
    {
      news := None;
      if path !in modems {
        return;
      }
      if path in cells && !hasRegistration {
        news := Some(Vanished(path, cells[path]));
        cells := cells - {path};
      } else if path !in cells && hasRegistration {
        tasks := tasks + [R.CreateCell(path)];
      }
    }

    /** No cell is built here; `cell` is of no account. */
    method OnModemInterfacesChanged(path: Path, hasRegistration: bool, ghost cell: Option<nat>)
      requires Valid() && !locked && R.CellsHaveModems(Radio())
      modifies this`cells, this`tasks, this`locked, this`trace
      ensures Valid() && !locked && R.CellsHaveModems(Radio())
      ensures Radio() == R.Perform(old(Radio()), R.InterfacesChanged(path, hasRegistration), cell)
      ensures cells == if path in old(modems) && !hasRegistration then old(cells) - {path} else old(cells)
      ensures trace == old(trace) + [Lock, Unlock]
                       + if path in old(modems) && path in old(cells) && !hasRegistration
                         then [AnnounceCell(Vanished(path, old(cells)[path]))] else []
    {
      Acquire();
      var news := FollowInterfaces(path, hasRegistration, cell);
      Publish(news, old(trace));
    }

    /** A queued task may find that its modem has a cell by now: inserting another one then changes
        nothing, but it is announced all the same. */
    method OnCreateCell(path: Path, cell: Option<nat>)
      requires Valid() && !locked && R.CellsHaveModems(Radio())
      modifies this`cells, this`locked, this`trace
      ensures Valid() && !locked && R.CellsHaveModems(Radio())
      ensures Radio() == R.Perform(old(Radio()), R.CreateCell(path), cell)
      ensures trace == old(trace) + [Lock, Unlock]
                       + if path in old(modems) && cell.Some? then [AnnounceCell(Appeared(path, cell.value))] else []
      ensures path in old(modems) && cell.Some? ==>
                (path in cells && cells[path] == cell.value <==>
                   path !in old(cells) || old(cells)[path] == cell.value)
    {
      Acquire();
      var news := None;
      if path in modems && cell.Some? {
        if path !in cells {
          cells := cells[path := cell.value];
        }
        news := Some(Appeared(path, cell.value));
      }
      Publish(news, old(trace));
    }

    // ----- Devices and wireless networks -----

    /** Other threads come in, while this one does not hold the lock. */
    method LetOthers(acts: seq<Act>)
      requires Valid() && !locked && Kept(Air())
      modifies this`devices, this`wifis, this`book
      ensures Valid() && Kept(Air()) && Air() == AfterAll(old(Air()), acts)
    {
      var n := AfterAll(Air(), acts);
      AfterAllKept(Air(), acts);
      devices, wifis, book := n.devices, n.wifis, n.book;
    }

    /** The announcement that belongs to a change; by now it may be one among many. */
    method MakeAnnouncement(ticket: nat)
      requires Valid() && !locked && Kept(Air()) && ticket in book.due
      modifies this`book, this`trace
      ensures Valid() && Kept(Air()) && Air() == After(old(Air()), Announces(ticket))
      ensures trace == old(trace) + [AnnounceWifi(book.made[ticket])]
    {
      AfterKept(Air(), Announces(ticket));
      HeldOneMore(trace, AnnounceWifi(book.made[ticket]));
      book, trace := Tell(book, ticket), trace + [AnnounceWifi(book.made[ticket])];
    }

    /** A change of the networks under the lock, which is yet to be announced. */
    method Change(a: Announcement)
      requires Valid() && locked && Kept(Air())
      modifies this`wifis, this`book
      ensures Valid() && Kept(Air()) && Air() == Changed(old(Air()), a)
    {
      NotingKeepsTrack(book, wifis, a);
      book := Note(book, a);
      match a {
        case Appeared(path, wifi) => wifis := wifis[path := wifi];
        case Vanished(path, _) => wifis := wifis - {path};
      }
    }

    /** The part of a handler after its change: release the lock, and announce. */
    method ReleaseAndAnnounce(ticket: nat, during: seq<Act>)
      requires Valid() && locked && Kept(Air()) && ticket in book.due
      modifies this`devices, this`wifis, this`book, this`locked, this`trace
      ensures Valid() && !locked && Kept(Air())
      ensures Air() == After(AfterAll(old(Air()), Others(during, ticket)), Announces(ticket))
      ensures trace == old(trace) + [Unlock, AnnounceWifi(old(book).made[ticket])]
    {
      Release();
      StaysDue(Air(), Others(during, ticket), ticket);
      LetOthers(Others(during, ticket));
      MakeAnnouncement(ticket);
    }

    /** Entered with the lock owned; it is still owned on return unless the network was added. */
    method OnAccessPointAdded(path: Path, device: Path, wifi: Option<nat>, during: seq<Act>) returns (threw: bool)
      requires Valid() && locked && Kept(Air())
      modifies this`devices, this`wifis, this`book, this`locked, this`trace
      ensures Valid() && Kept(Air())
      ensures Stand() == AccessPointAdded(old(Stand()), path, device, wifi, during)
      ensures threw == (device in old(devices) && old(devices)[device] == WifiDevice && wifi == None)
      ensures during == [] && old(Mirrors(Air())) ==> Mirrors(Air())
    {
      ghost var n := Air();
      HeldOneMore(trace, EnterAccessPointAdded);
      trace := trace + [EnterAccessPointAdded];
      if device !in devices || devices[device] != WifiDevice {
        return false;
      }
      if wifi == None {
        return true;
      }
      var ticket := |book.made|;
      Change(Appeared(path, wifi.value));
      assert Air() == After(n, Appears(path, device, wifi));
      ReleaseAndAnnounce(ticket, during);
      assert Air() == Announced(n, Appears(path, device, wifi), during);
      assert trace == old(trace) + [EnterAccessPointAdded, Unlock, AnnounceWifi(Appeared(path, wifi.value))];
      if during == [] && Mirrors(n) {
        AtomicHandlerMirrors(n, Appears(path, device, wifi));
      }
      threw := false;
    }

    method OnAccessPointRemoved(path: Path, during: seq<Act>)
      requires Valid() && locked && Kept(Air())
      modifies this`devices, this`wifis, this`book, this`locked, this`trace
      ensures Valid() && Kept(Air())
      ensures Stand() == AccessPointRemoved(old(Stand()), path, during)
      ensures during == [] && old(Mirrors(Air())) ==> Mirrors(Air())
    {
      ghost var n := Air();
      if path !in wifis {
        return;
      }
      var ticket := |book.made|;
      Change(Vanished(path, wifis[path]));
      ReleaseAndAnnounce(ticket, during);
      if during == [] && Mirrors(n) {
        AtomicHandlerMirrors(n, Vanishes(path));
      }
    }

    /** Exceptions are caught per access point, and the lock is taken again only where it was
        released. */
    method ForEachAccessPoint(device: Path, visits: seq<Visit>)
      requires Valid() && Kept(Air())
      modifies this`devices, this`wifis, this`book, this`locked, this`trace
      ensures Valid() && Kept(Air())
      ensures Stand() == VisitedAll(old(Stand()), device, visits)
    {
      for i := 0 to |visits|
        invariant Valid() && Kept(Air())
        invariant Stand() == VisitedAll(old(Stand()), device, visits[..i])
      {
        assert visits[..i + 1][..i] == visits[..i];
        if !locked {
          LetOthers(visits[i].before);
          Acquire();
        }
        var threw := OnAccessPointAdded(visits[i].path, device, visits[i].wifi, visits[i].during);
      }
      assert visits[..|visits|] == visits;
    }

    /** Adds a device and, for a wifi device, every access point it reports. A modem device stays
        known even if the second question for its kind throws, and a wifi device even if asking
        for its access points does. */
    method OnDeviceAdded(path: Path, kind: Option<DeviceKind>, again: bool, visits: Option<seq<Visit>>)
      returns (threw: bool)
      requires Valid() && locked && Kept(Air())
      modifies this`devices, this`wifis, this`book, this`locked, this`trace
      ensures Valid() && Kept(Air())
      ensures Stand() == DeviceAdded(old(Stand()), path, kind, again, visits)
      ensures threw == (path !in old(devices) && DeviceThrows(kind, again, visits))
    {
      if path in devices {
        return false;
      }
      if kind == None {
        return true;
      }
      if kind == Some(ModemDevice) {
        devices := devices[path := ModemDevice];
      }
      if !again {
        return true;
      }
      if kind == Some(WifiDevice) {
        devices := devices[path := WifiDevice];
        if visits == None {
          return true;
        }
        ForEachAccessPoint(path, visits.value);
      }
      threw := false;
    }

    method OnDeviceRemoved(path: Path)
      requires Valid() && locked && Kept(Air())
      modifies this`devices
      ensures Valid() && Kept(Air()) && Air() == After(old(Air()), DeviceVanishes(path))
    {
      devices := devices - {path};
    }

    // ----- Signals of the network manager, which take the lock and leave it -----

    method DeviceAddedSignal(path: Path, kind: Option<DeviceKind>, again: bool, visits: Option<seq<Visit>>)
      returns (threw: bool)
      requires Valid() && !locked && Kept(Air())
      modifies this`devices, this`wifis, this`book, this`locked, this`trace
      ensures Valid() && !locked && Kept(Air())
      ensures Stand() == Left(DeviceAdded(Entered(old(Stand())), path, kind, again, visits))
      ensures (visits.Some? ==> Undisturbed(visits.value)) && old(Mirrors(Air())) ==> Mirrors(Air())
    {
      ghost var s := Entered(Stand());
      Acquire();
      threw := OnDeviceAdded(path, kind, again, visits);
      Leave();
      if (visits.Some? ==> Undisturbed(visits.value)) && Mirrors(s.net) {
        UndisturbedDeviceMirrors(s, path, kind, again, visits);
      }
    }

    method DeviceRemovedSignal(path: Path)
      requires Valid() && !locked && Kept(Air())
      modifies this`devices, this`locked, this`trace
      ensures Valid() && !locked && Kept(Air())
      ensures Air() == After(old(Air()), DeviceVanishes(path)) && trace == old(trace) + [Lock, Unlock]
      ensures old(Mirrors(Air())) ==> Mirrors(Air())
    {
      Acquire();
      OnDeviceRemoved(path);
      Leave();
    }

    /** What building the network throws is caught here. */
    method AccessPointAddedSignal(path: Path, device: Path, wifi: Option<nat>, during: seq<Act>)
      requires Valid() && !locked && Kept(Air())
      modifies this`devices, this`wifis, this`book, this`locked, this`trace
      ensures Valid() && !locked && Kept(Air())
      ensures Stand() == Left(AccessPointAdded(Entered(old(Stand())), path, device, wifi, during))
      ensures var added := device in old(devices) && old(devices)[device] == WifiDevice && wifi.Some?;
              && trace == old(trace) + [Lock, EnterAccessPointAdded, Unlock]
                          + (if added then [AnnounceWifi(Appeared(path, wifi.value))] else [])
              && (during == [] ==> wifis == if added then old(wifis)[path := wifi.value] else old(wifis))
      ensures during == [] && old(Mirrors(Air())) ==> Mirrors(Air())
    {
      SignalledAddition(Stand(), path, device, wifi, during);
      Acquire();
      var threw := OnAccessPointAdded(path, device, wifi, during);
      Leave();
    }

    method AccessPointRemovedSignal(path: Path, during: seq<Act>)
      requires Valid() && !locked && Kept(Air())
      modifies this`devices, this`wifis, this`book, this`locked, this`trace
      ensures Valid() && !locked && Kept(Air())
      ensures Stand() == Left(AccessPointRemoved(Entered(old(Stand())), path, during))
      ensures trace == old(trace) + [Lock, Unlock]
                       + if path in old(wifis) then [AnnounceWifi(Vanished(path, old(wifis)[path]))] else []
      ensures during == [] ==> wifis == old(wifis) - {path}
      ensures during == [] && old(Mirrors(Air())) ==> Mirrors(Air())
    {
      SignalledRemoval(Stand(), path, during);
      Acquire();
      OnAccessPointRemoved(path, during);
      Leave();
    }

    /** Reports every cached network, which are those that an observer of the announcements holds
        if nothing is due and the observer agrees. */
    method EnumerateVisibleWirelessNetworks() returns (networks: set<nat>)
      requires Valid() && !locked
      modifies this`locked, this`trace
      ensures Valid() && !locked && trace == old(trace) + [Lock, Unlock]
      ensures networks == set p | p in wifis :: wifis[p]
      ensures Agrees(Air()) ==> networks == Observer(book).Values
    {
      Acquire();
      networks := set p | p in wifis :: wifis[p];
      Release();
    }
  }
}
