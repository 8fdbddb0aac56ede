/** Devices and wireless networks as a state machine of the atomic parts of handlers, of any
    thread. */
module WifiAnnouncements {
  import opened Wrappers
  import opened Announcements

  datatype DeviceKind = WifiDevice | ModemDevice | OtherDevice

  datatype Net = Net(devices: map<Path, DeviceKind>, wifis: map<Path, nat>, book: Book)

  const START := Net(map[], map[], BLANK)

  /** What is done under the lock, and an announcement. `wifi` is the network object built for an
      access point, or none if building it throws. */
  datatype Act =
    | DeviceAppears(path: Path, kind: DeviceKind)
    | DeviceVanishes(path: Path)
    | Appears(path: Path, device: Path, wifi: Option<nat>)
    | Vanishes(path: Path)
    | Announces(ticket: nat)

  function Changed(n: Net, a: Announcement): Net {
    n.(wifis := Observed(n.wifis, a), book := Note(n.book, a))
  }

  /** An access point is handled only for a known wifi device. */
  predicate Adds(n: Net, device: Path, wifi: Option<nat>) {
    device in n.devices && n.devices[device] == WifiDevice && wifi.Some?
  }

  function After(n: Net, act: Act): Net {
    match act
    case DeviceAppears(p, kind) =>
      if p in n.devices || kind == OtherDevice then n else n.(devices := n.devices[p := kind])
    case DeviceVanishes(p) => n.(devices := n.devices - {p})
    case Appears(p, device, wifi) => if Adds(n, device, wifi) then Changed(n, Appeared(p, wifi.value)) else n
    case Vanishes(p) => if p in n.wifis then Changed(n, Vanished(p, n.wifis[p])) else n
    case Announces(t) => n.(book := Tell(n.book, t))
  }

  /** What each act does. An access point is cached and owed exactly if its device is a known wifi
      device and its network could be built, and is taken away exactly if it was cached. */
  lemma ActSpelledOut(n: Net, act: Act)
    ensures var n' := After(n, act);
      match act
      case DeviceAppears(p, kind) =>
        && n'.wifis == n.wifis && n'.book == n.book
        && n'.devices == (if p !in n.devices && (kind == WifiDevice || kind == ModemDevice) then n.devices[p := kind]
                          else n.devices)
      case DeviceVanishes(p) => n'.devices == n.devices - {p} && n'.wifis == n.wifis && n'.book == n.book
      case Appears(p, device, wifi) =>
        if device in n.devices && n.devices[device] == WifiDevice && wifi.Some?
        then && n'.devices == n.devices && n'.wifis == n.wifis[p := wifi.value]
             && Owes(n.book, n'.book, Appeared(p, wifi.value))
        else n' == n
      case Vanishes(p) =>
        if p in n.wifis
        then && n'.devices == n.devices && n'.wifis == n.wifis - {p}
             && Owes(n.book, n'.book, Vanished(p, n.wifis[p]))
        else n' == n
      case Announces(t) =>
        && n'.devices == n.devices && n'.wifis == n.wifis && n'.book.made == n.book.made
        && (if t in n.book.due then n'.book.due == n.book.due - {t} && n'.book.told == n.book.told + [t]
            else n'.book == n.book)
  {
  }

  function AfterAll(n: Net, acts: seq<Act>): Net
    decreases |acts|
  {
    if acts == [] then n else AfterAll(After(n, acts[0]), acts[1..])
  }

  lemma {:induction false} AfterBoth(n: Net, xs: seq<Act>, ys: seq<Act>)
    ensures AfterAll(n, xs + ys) == AfterAll(AfterAll(n, xs), ys)
    decreases |xs|
  {
    if xs == [] {
      assert xs + ys == ys;
    } else {
      assert (xs + ys)[1..] == xs[1..] + ys;
      AfterBoth(After(n, xs[0]), xs[1..], ys);
    }
  }

  // ----- Every change is announced once -----

  /** Every change has one ticket, which is due or was told, once; the cache is what the changes
      made of it. */
  ghost predicate Kept(n: Net) {
    Tracks(n.book, n.wifis)
  }

  lemma AfterKept(n: Net, act: Act)
    requires Kept(n)
    ensures Kept(After(n, act))
  {
    match act {
      case Appears(p, device, wifi) =>
        if Adds(n, device, wifi) {
          NotingKeepsTrack(n.book, n.wifis, Appeared(p, wifi.value));
        }
      case Vanishes(p) =>
        if p in n.wifis {
          NotingKeepsTrack(n.book, n.wifis, Vanished(p, n.wifis[p]));
        }
      case Announces(t) => TellAccounted(n.book, t);
      case _ =>
    }
  }

  lemma {:induction false} AfterAllKept(n: Net, acts: seq<Act>)
    requires Kept(n)
    ensures Kept(AfterAll(n, acts))
    decreases |acts|
  {
    if acts != [] {
      AfterKept(n, acts[0]);
      AfterAllKept(After(n, acts[0]), acts[1..]);
    }
  }

  // ----- When an observer agrees -----

  lemma StartIsCurrent()
    ensures Kept(START) && IsCurrent(START) && InStep(START.book)
  {
  }

  ghost predicate Agrees(n: Net) {
    Kept(n) && Observer(n.book) == n.wifis
  }

  /** At this moment, on every path about which nothing is due. */
  ghost predicate IsCurrent(n: Net) {
    Kept(n) && Current(n.book, n.wifis)
  }

  ghost predicate Misdelivering(n: Net, act: Act)
    requires Kept(n)
  {
    act.Announces? && Misdelivers(n.book, n.wifis, act.ticket)
  }

  lemma ChangedIsCurrent(n: Net, a: Announcement)
    requires IsCurrent(n)
    ensures IsCurrent(Changed(n, a))
  {
    NotingKeepsTrack(n.book, n.wifis, a);
    NotingKeepsCurrent(n.book, n.wifis, a, Observed(n.wifis, a));
  }

  lemma AfterIsCurrentIff(n: Net, act: Act)
    requires IsCurrent(n)
    ensures Kept(After(n, act)) && (IsCurrent(After(n, act)) <==> !Misdelivering(n, act))
  {
    match act {
      case Appears(p, device, wifi) =>
        if Adds(n, device, wifi) {
          ChangedIsCurrent(n, Appeared(p, wifi.value));
        }
      case Vanishes(p) =>
        if p in n.wifis {
          ChangedIsCurrent(n, Vanished(p, n.wifis[p]));
        }
      case Announces(t) =>
        AfterKept(n, act);
        TellingKeepsCurrentIff(n.book, n.wifis, t);
      case _ =>
    }
  }

  ghost predicate AlwaysCurrent(n: Net, acts: seq<Act>)
    decreases |acts|
  {
    IsCurrent(n) && (acts != [] ==> AlwaysCurrent(After(n, acts[0]), acts[1..]))
  }

  ghost predicate NeverMisdelivers(n: Net, acts: seq<Act>)
    requires Kept(n)
    decreases |acts|
  {
    acts != [] ==>
      !Misdelivering(n, acts[0]) && (AfterKept(n, acts[0]); NeverMisdelivers(After(n, acts[0]), acts[1..]))
  }

  /** At every moment of a run the observer agrees on every path about which nothing is due, if
      and only if no announcement that is the only one due about its path says other than the
      cache when it is made. */
  lemma {:induction false} CurrentIffNeverMisdelivered(n: Net, acts: seq<Act>)
    requires IsCurrent(n)
    ensures AlwaysCurrent(n, acts) <==> NeverMisdelivers(n, acts)
    decreases |acts|
  {
    if acts != [] {
      AfterIsCurrentIff(n, acts[0]);
      if !Misdelivering(n, acts[0]) {
        CurrentIffNeverMisdelivered(After(n, acts[0]), acts[1..]);
      }
    }
  }

  /** After any run, once nothing is due: the observer agrees with the cache if and only if, for
      each path, what was told last says what the last change said. */
  lemma QuietObserverAgreesIff(acts: seq<Act>)
    requires AfterAll(START, acts).book.due == {}
    ensures Kept(AfterAll(START, acts))
    ensures Agrees(AfterAll(START, acts)) <==> forall p :: ToldLast(AfterAll(START, acts).book, p)
  {
    AfterAllKept(START, acts);
    var n := AfterAll(START, acts);
    SameLookups(Observer(n.book), n.wifis);
    forall p
      ensures Lookup(Observer(n.book), p) == Lookup(n.wifis, p) <==> ToldLast(n.book, p)
    {
      ReplayIsLastTold(n.book.made, n.book.told, p);
      NewestWasTold(n.book, p);
      assert Lookup(n.wifis, p) == Saying(n.book.made, Newest(n.book.made, p));
    }
  }

  // ----- Announcing in order -----

  ghost predicate AllInOrder(n: Net, acts: seq<Act>)
    requires Kept(n)
    decreases |acts|
  {
    acts != [] ==>
      && (acts[0].Announces? ==> InOrder(n.book, acts[0].ticket))
      && (AfterKept(n, acts[0]); AllInOrder(After(n, acts[0]), acts[1..]))
  }

  lemma AfterInStep(n: Net, act: Act)
    requires Kept(n) && InStep(n.book)
    requires act.Announces? ==> InOrder(n.book, act.ticket)
    ensures Kept(After(n, act)) && InStep(After(n, act).book)
  {
    AfterKept(n, act);
    match act {
      case Appears(p, device, wifi) =>
        if Adds(n, device, wifi) {
          NotingKeepsStep(n.book, Appeared(p, wifi.value));
        }
      case Vanishes(p) =>
        if p in n.wifis {
          NotingKeepsStep(n.book, Vanished(p, n.wifis[p]));
        }
      case Announces(t) => TellingKeepsStep(n.book, t);
      case _ =>
    }
  }

  /** An observer to whom each path is told in order agrees, at every moment of any run, on every
      path about which nothing is due. */
  lemma {:induction false} InOrderAgrees(n: Net, acts: seq<Act>)
    requires IsCurrent(n) && InStep(n.book) && AllInOrder(n, acts)
    ensures AlwaysCurrent(n, acts)
    decreases |acts|
  {
    if acts != [] {
      if acts[0].Announces? {
        InOrderDelivers(n.book, n.wifis, acts[0].ticket);
      }
      AfterInStep(n, acts[0]);
      AfterIsCurrentIff(n, acts[0]);
      InOrderAgrees(After(n, acts[0]), acts[1..]);
    }
  }

  // ----- The program announces out of order -----

  /** A run that leaves the observer with a network that is gone. One thread adds an access point
      and is held up before its announcement; another removes the device, adds it again, meets the
      same access point, and announces first. */
  lemma {:induction false} ObserverCanBeMisled(device: Path, p: Path, first: nat, second: nat)
    requires first != second
    ensures var n := AfterAll(START, [DeviceAppears(device, WifiDevice), Appears(p, device, Some(first)),
                                      DeviceVanishes(device), DeviceAppears(device, WifiDevice),
                                      Appears(p, device, Some(second)), Announces(1), Announces(0)]);
      Kept(n) && n.book.due == {} && n.wifis == map[p := second] && Observer(n.book) == map[p := first]
  {
    var appears, vanishes := DeviceAppears(device, WifiDevice), DeviceVanishes(device);
    var one, two := Appears(p, device, Some(first)), Appears(p, device, Some(second));
    var rest := [appears, two, Announces(1), Announces(0)];
    var acts := [appears, one, vanishes] + rest;
    assert acts == [appears, one, vanishes, appears, two, Announces(1), Announces(0)];
    var n3 := AfterFirstAddition(device, p, first);
    AfterThree(START, appears, one, vanishes, rest);
    AfterThree(n3, appears, two, Announces(1), [Announces(0)]);
    assert [appears, two, Announces(1)] + [Announces(0)] == rest;
    var n6 := AfterSecondAddition(n3, device, p, first, second);
    StartIsCurrent();
    AfterAllKept(START, acts);
  }

  /** From where the device is gone and the first announcement is due. */
  lemma {:induction false} AfterSecondAddition(n: Net, device: Path, p: Path, first: nat, second: nat) returns (n': Net)
    requires n == Net(map[], map[p := first], Book([Appeared(p, first)], {0}, []))
    ensures n' == After(After(After(n, DeviceAppears(device, WifiDevice)), Appears(p, device, Some(second))), Announces(1))
    ensures var made := [Appeared(p, first), Appeared(p, second)];
      && AfterAll(n', [Announces(0)]) == Net(map[device := WifiDevice], map[p := second], Book(made, {}, [1, 0]))
      && Replay(made, [1, 0]) == map[p := first]
  {
    var made := [Appeared(p, first), Appeared(p, second)];
    var n1 := After(n, DeviceAppears(device, WifiDevice));
    assert n1 == n.(devices := map[device := WifiDevice]);
    var n2 := After(n1, Appears(p, device, Some(second)));
    assert n2.book == Book(made, {0, 1}, []) && n2.wifis == map[p := second];
    n' := After(n2, Announces(1));
    assert n'.book == Book(made, {0}, [1]);
    assert After(n', Announces(0)).book == Book(made, {}, [1, 0]);
    ReplayOneMore(made, [1], 0);
    ReplayOneMore(made, [], 1);
  }

  lemma {:induction false} AfterFirstAddition(device: Path, p: Path, first: nat) returns (n: Net)
    ensures n == After(After(After(START, DeviceAppears(device, WifiDevice)), Appears(p, device, Some(first))), DeviceVanishes(device))
    ensures n == Net(map[], map[p := first], Book([Appeared(p, first)], {0}, []))
  {
    var known := After(START, DeviceAppears(device, WifiDevice));
    assert known == START.(devices := map[device := WifiDevice]);
    var here := After(known, Appears(p, device, Some(first)));
    assert here == Net(known.devices, map[p := first], Book([Appeared(p, first)], {0}, []));
    n := After(here, DeviceVanishes(device));
    assert n.devices == map[];
  }

  lemma {:induction false} AfterThree(n: Net, a: Act, b: Act, c: Act, acts: seq<Act>)
    ensures AfterAll(n, [a, b, c] + acts) == AfterAll(After(After(After(n, a), b), c), acts)
  {
    assert ([a, b, c] + acts)[1..] == [b, c] + acts;
    assert ([b, c] + acts)[1..] == [c] + acts;
    assert ([c] + acts)[1..] == acts;
    assert AfterAll(n, [a, b, c] + acts) == AfterAll(After(n, a), [b, c] + acts);
    assert AfterAll(After(n, a), [b, c] + acts) == AfterAll(After(After(n, a), b), [c] + acts);
  }
}
