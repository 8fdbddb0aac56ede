/** The caches of modems and radio cells as a state machine: bus signals, and tasks that wait
    in the dispatcher's queue. */
module RadioCaches {
  import opened Wrappers
  import opened Announcements

  datatype Task = InterfacesChanged(path: Path, hasRegistration: bool) | CreateCell(path: Path)

  /** `cells` maps the path of a modem to the cell object cached for it. */
  datatype Caches = Caches(modems: set<Path>, cells: map<Path, nat>, tasks: seq<Task>)

  /** `cell` is the object that construction yields, or none if construction throws. */
  datatype Event =
    | ModemAdded(path: Path, cell: Option<nat>)
    | ModemRemoved(path: Path)
    | InterfacesReported(path: Path, hasRegistration: bool)
    | TaskRun(index: nat, cell: Option<nat>)

  datatype Adding = KnownModem | Failed | KnownCell | Cached

  /** How far adding a modem gets: it bails out for a known modem, and again for a known cell. */
  function AddingModem(c: Caches, path: Path, cell: Option<nat>): Adding {
    if path in c.modems then KnownModem
    else if cell == None then Failed
    else if path in c.cells then KnownCell
    else Cached
  }

  function Perform(c: Caches, task: Task, cell: Option<nat>): Caches {
    if task.path !in c.modems then c
    else
      match task
      case InterfacesChanged(p, has) =>
        if p in c.cells && !has then c.(cells := c.cells - {p})
        else if p !in c.cells && has then c.(tasks := c.tasks + [CreateCell(p)])
        else c
      case CreateCell(p) =>
        if cell == None || p in c.cells then c else c.(cells := c.cells[p := cell.value])
  }

  function Step(c: Caches, e: Event): Caches {
    match e
    case ModemAdded(p, cell) =>
      var c1 := c.(modems := c.modems + {p});
      if AddingModem(c, p, cell) == Cached then c1.(cells := c.cells[p := cell.value]) else c1
    case ModemRemoved(p) => c.(modems := c.modems - {p}, cells := c.cells - {p})
    case InterfacesReported(p, has) => c.(tasks := c.tasks + [InterfacesChanged(p, has)])
    case TaskRun(i, cell) =>
      if i < |c.tasks| then Perform(c.(tasks := c.tasks[..i] + c.tasks[i + 1..]), c.tasks[i], cell) else c
  }

  function Run(c: Caches, es: seq<Event>): Caches
    decreases |es|
  {
    if es == [] then c else Run(Step(c, es[0]), es[1..])
  }

  ghost predicate CellsHaveModems(c: Caches) {
    c.cells.Keys <= c.modems
  }

  /** In every interleaving of signals and tasks, with tasks run in any order and any
      construction throwing, each cached cell has a cached modem. */
  lemma {:induction false} CellsKeepTheirModems(c: Caches, es: seq<Event>)
    requires CellsHaveModems(c)
    ensures CellsHaveModems(Run(c, es))
    decreases |es|
  {
    if es != [] {
      assert CellsHaveModems(Step(c, es[0]));
      CellsKeepTheirModems(Step(c, es[0]), es[1..]);
    }
  }

  /** So adding a modem never gets as far as finding a cell already cached for it. */
  lemma SecondBailOutIsNeverTaken(c: Caches, es: seq<Event>, path: Path, cell: Option<nat>)
    requires CellsHaveModems(c)
    ensures AddingModem(Run(c, es), path, cell) != KnownCell
  {
    CellsKeepTheirModems(c, es);
  }

  // ----- What is announced about cells -----

  function NewsOfTask(c: Caches, task: Task, cell: Option<nat>): Option<Announcement> {
    if task.path !in c.modems then None
    else
      match task
      case InterfacesChanged(p, has) =>
        if p in c.cells && !has then Some(Vanished(p, c.cells[p])) else None
      case CreateCell(p) =>
        if cell == None then None else Some(Appeared(p, cell.value))
  }

  /** What a handler announces after it has released the lock. */
  function NewsOf(c: Caches, e: Event): Option<Announcement> {
    match e
    case ModemAdded(p, cell) =>
      if AddingModem(c, p, cell) == Cached then Some(Appeared(p, cell.value)) else None
    case ModemRemoved(p) => if p in c.cells then Some(Vanished(p, c.cells[p])) else None
    case InterfacesReported(_, _) => None
    case TaskRun(i, cell) => if i < |c.tasks| then NewsOfTask(c, c.tasks[i], cell) else None
  }

  function Learned(m: map<Path, nat>, news: Option<Announcement>): map<Path, nat> {
    if news == None then m else Observed(m, news.value)
  }

  /** A queued task has built a cell for a modem that has another one by now: the new cell is
      announced although it is not inserted. */
  predicate Late(c: Caches, e: Event) {
    && e.TaskRun? && e.index < |c.tasks| && c.tasks[e.index].CreateCell? && e.cell.Some?
    && c.tasks[e.index].path in c.modems && c.tasks[e.index].path in c.cells
    && c.cells[c.tasks[e.index].path] != e.cell.value
  }

  lemma LearnsIffNotLate(c: Caches, e: Event)
    ensures Learned(c.cells, NewsOf(c, e)) == Step(c, e).cells <==> !Late(c, e)
  {
    if Late(c, e) {
      var p := c.tasks[e.index].path;
      assert Learned(c.cells, NewsOf(c, e))[p] != Step(c, e).cells[p];
    }
  }

  lemma OnlyNewsChanges(c: Caches, e: Event)
    ensures NewsOf(c, e) == None ==> Step(c, e).cells == c.cells
    ensures NewsOf(c, e).Some? ==>
      forall p :: p != NewsOf(c, e).value.path ==> Lookup(Step(c, e).cells, p) == Lookup(c.cells, p)
  {
  }

  // ----- Handlers and their announcements, of any threads -----

  datatype Radio = Radio(caches: Caches, book: Book)

  const START := Radio(Caches({}, map[], []), BLANK)

  datatype Act = Handles(event: Event) | Announces(ticket: nat)

  function After(r: Radio, act: Act): Radio {
    match act
    case Handles(e) =>
      var news := NewsOf(r.caches, e);
      Radio(Step(r.caches, e), if news == None then r.book else Note(r.book, news.value))
    case Announces(t) => r.(book := Tell(r.book, t))
  }

  function AfterAll(r: Radio, acts: seq<Act>): Radio
    decreases |acts|
  {
    if acts == [] then r else AfterAll(After(r, acts[0]), acts[1..])
  }

  // ----- What each handler does, path by path -----

  /** A new modem is known, and has the cell that could be built, which is announced. */
  lemma ModemAddedSpelledOut(r: Radio, path: Path, cell: Option<nat>)
    requires CellsHaveModems(r.caches)
    ensures var r' := After(r, Handles(ModemAdded(path, cell)));
      if path in r.caches.modems then r' == r
      else
        && r'.caches.modems == r.caches.modems + {path} && r'.caches.tasks == r.caches.tasks
        && (match cell
            case Some(x) => r'.caches.cells == r.caches.cells[path := x] && Owes(r.book, r'.book, Appeared(path, x))
            case None => r'.caches.cells == r.caches.cells && r'.book == r.book)
  {
    if path in r.caches.modems {
      assert r.caches.modems + {path} == r.caches.modems;
    }
  }

  lemma ModemRemovedSpelledOut(r: Radio, path: Path)
    ensures var r' := After(r, Handles(ModemRemoved(path)));
      && r'.caches.modems == r.caches.modems - {path} && r'.caches.tasks == r.caches.tasks
      && r'.caches.cells == r.caches.cells - {path}
      && (if path in r.caches.cells then Owes(r.book, r'.book, Vanished(path, r.caches.cells[path])) else r'.book == r.book)
  {
  }

  lemma InterfacesReportedSpelledOut(r: Radio, path: Path, hasRegistration: bool)
    ensures var r' := After(r, Handles(InterfacesReported(path, hasRegistration)));
      && r' == r.(caches := r'.caches) && r'.caches.modems == r.caches.modems && r'.caches.cells == r.caches.cells
      && r'.caches.tasks == r.caches.tasks + [InterfacesChanged(path, hasRegistration)]
  {
  }

  /** A task leaves the queue, and does nothing for a modem that is gone. Otherwise a lost
      registration takes the cell away, a new one posts a task to build it, and that task announces
      what it built, which is cached unless the modem has a cell by then. */
  lemma TaskSpelledOut(r: Radio, i: nat, cell: Option<nat>)
    requires i < |r.caches.tasks|
    ensures var r' := After(r, Handles(TaskRun(i, cell)));
      var c, c', p, rest := r.caches, r'.caches, r.caches.tasks[i].path, r.caches.tasks[..i] + r.caches.tasks[i + 1..];
      && c'.modems == c.modems
      && (match c.tasks[i]
          case InterfacesChanged(_, has) =>
            && c'.cells == (if p in c.modems && !has then c.cells - {p} else c.cells)
            && c'.tasks == rest + (if p in c.modems && p !in c.cells && has then [CreateCell(p)] else [])
            && (if p in c.modems && p in c.cells && !has then Owes(r.book, r'.book, Vanished(p, c.cells[p]))
                else r'.book == r.book)
          case CreateCell(_) =>
            && c'.tasks == rest
            && (if p in c.modems && cell.Some?
                then && c'.cells == (if p in c.cells then c.cells else c.cells[p := cell.value])
                     && Owes(r.book, r'.book, Appeared(p, cell.value))
                else c'.cells == c.cells && r'.book == r.book))
  {
    if r.caches.tasks[i].path !in r.caches.cells {
      assert r.caches.cells - {r.caches.tasks[i].path} == r.caches.cells;
    }
  }

  /** The observer agrees on every path about which nothing is due. */
  ghost predicate IsCurrent(r: Radio) {
    Current(r.book, r.caches.cells)
  }

  lemma StartIsCurrent()
    ensures IsCurrent(START) && Tracks(START.book, START.caches.cells) && InStep(START.book)
  {
  }

  lemma AfterAccounted(r: Radio, act: Act)
    requires Accounted(r.book)
    ensures Accounted(After(r, act).book)
  {
    match act {
      case Handles(e) =>
        if NewsOf(r.caches, e).Some? {
          NoteAccounted(r.book, NewsOf(r.caches, e).value);
        }
      case Announces(t) => TellAccounted(r.book, t);
    }
  }

  ghost predicate Misdelivering(r: Radio, act: Act)
    requires Accounted(r.book)
  {
    act.Announces? && Misdelivers(r.book, r.caches.cells, act.ticket)
  }

  lemma AfterIsCurrentIff(r: Radio, act: Act)
    requires IsCurrent(r)
    ensures IsCurrent(After(r, act)) <==> !Misdelivering(r, act)
  {
    match act {
      case Handles(e) =>
        OnlyNewsChanges(r.caches, e);
        if NewsOf(r.caches, e).Some? {
          NotingKeepsCurrent(r.book, r.caches.cells, NewsOf(r.caches, e).value, Step(r.caches, e).cells);
        }
      case Announces(t) => TellingKeepsCurrentIff(r.book, r.caches.cells, t);
    }
  }

  ghost predicate AlwaysCurrent(r: Radio, acts: seq<Act>)
    decreases |acts|
  {
    IsCurrent(r) && (acts != [] ==> AlwaysCurrent(After(r, acts[0]), acts[1..]))
  }

  ghost predicate NeverMisdelivers(r: Radio, acts: seq<Act>)
    requires Accounted(r.book)
    decreases |acts|
  {
    acts != [] ==>
      !Misdelivering(r, acts[0]) && (AfterAccounted(r, acts[0]); NeverMisdelivers(After(r, acts[0]), acts[1..]))
  }

  /** At every moment of a run an observer agrees with the cached cells on every path about which
      nothing is due, if and only if no announcement that is the only one due about its path says
      other than the cache when it is made. */
  lemma {:induction false} CurrentIffNeverMisdelivered(r: Radio, acts: seq<Act>)
    requires IsCurrent(r)
    ensures AlwaysCurrent(r, acts) <==> NeverMisdelivers(r, acts)
    decreases |acts|
  {
    if acts != [] {
      AfterIsCurrentIff(r, acts[0]);
      if !Misdelivering(r, acts[0]) {
        CurrentIffNeverMisdelivered(After(r, acts[0]), acts[1..]);
      }
    }
  }

  ghost predicate NeverLate(r: Radio, acts: seq<Act>)
    decreases |acts|
  {
    acts != [] ==> !(acts[0].Handles? && Late(r.caches, acts[0].event)) && NeverLate(After(r, acts[0]), acts[1..])
  }

  ghost predicate AllInOrder(r: Radio, acts: seq<Act>)
    requires Accounted(r.book)
    decreases |acts|
  {
    acts != [] ==>
      && (acts[0].Announces? ==> InOrder(r.book, acts[0].ticket))
      && (AfterAccounted(r, acts[0]); AllInOrder(After(r, acts[0]), acts[1..]))
  }

  lemma AfterInStep(r: Radio, act: Act)
    requires Tracks(r.book, r.caches.cells) && InStep(r.book)
    requires if act.Handles? then !Late(r.caches, act.event) else InOrder(r.book, act.ticket)
    ensures var r' := After(r, act); Tracks(r'.book, r'.caches.cells) && InStep(r'.book)
  {
    match act {
      case Handles(e) =>
        LearnsIffNotLate(r.caches, e);
        if NewsOf(r.caches, e).Some? {
          NotingKeepsTrack(r.book, r.caches.cells, NewsOf(r.caches, e).value);
          NotingKeepsStep(r.book, NewsOf(r.caches, e).value);
        }
      case Announces(t) => TellingKeepsStep(r.book, t);
    }
  }

  /** Two guards are enough: no task is late, and each announcement waits for older ones about its
      path. */
  lemma {:induction false} InOrderAndNeverLate(r: Radio, acts: seq<Act>)
    requires IsCurrent(r) && Tracks(r.book, r.caches.cells) && InStep(r.book)
    requires NeverLate(r, acts) && AllInOrder(r, acts)
    ensures AlwaysCurrent(r, acts)
    decreases |acts|
  {
    if acts != [] {
      if acts[0].Announces? {
        InOrderDelivers(r.book, r.caches.cells, acts[0].ticket);
      }
      AfterInStep(r, acts[0]);
      AfterIsCurrentIff(r, acts[0]);
      InOrderAndNeverLate(After(r, acts[0]), acts[1..]);
    }
  }

  // ----- Each handler in one step with its announcement -----

  /** An observer who holds `m` and learns all news of a run holds the cached cells throughout. */
  ghost predicate FollowsThroughout(m: map<Path, nat>, c: Caches, es: seq<Event>)
    decreases |es|
  {
    m == c.cells && (es != [] ==> FollowsThroughout(Learned(m, NewsOf(c, es[0])), Step(c, es[0]), es[1..]))
  }

  ghost predicate NoneLate(c: Caches, es: seq<Event>)
    decreases |es|
  {
    es != [] ==> !Late(c, es[0]) && NoneLate(Step(c, es[0]), es[1..])
  }

  /** With each handler's change and announcement in one step, an observer holds the cached cells
      throughout a run if and only if no queued task is late. */
  lemma {:induction false} AtomicFollowsIffNoneLate(c: Caches, es: seq<Event>)
    ensures FollowsThroughout(c.cells, c, es) <==> NoneLate(c, es)
    decreases |es|
  {
    if es != [] {
      LearnsIffNotLate(c, es[0]);
      if !Late(c, es[0]) {
        AtomicFollowsIffNoneLate(Step(c, es[0]), es[1..]);
      }
    }
  }

  // ----- Neither guard is ensured by the program -----

  /** A task inserts a cell and is held up before its announcement; the modem is removed, and that
      is announced first. No task is late, and the observer keeps a cell that is gone. */
  lemma {:induction false} RemovalCanBeToldFirst(p: Path, cell: nat)
    ensures var acts := [Handles(ModemAdded(p, None)), Handles(InterfacesReported(p, true)),
                         Handles(TaskRun(0, None)), Handles(TaskRun(0, Some(cell))), Handles(ModemRemoved(p)),
                         Announces(1), Announces(0)];
      var r := AfterAll(START, acts);
      && NeverLate(START, acts)
      && r.caches == Caches({}, map[], []) && Accounted(r.book) && r.book.due == {}
      && Observer(r.book) == map[p := cell]
  {
    var reports, posts := Handles(InterfacesReported(p, true)), Handles(TaskRun(0, None));
    var last := [Handles(TaskRun(0, Some(cell))), Handles(ModemRemoved(p)), Announces(1), Announces(0)];
    var adds := Handles(ModemAdded(p, None));
    assert [adds, reports, posts] + last == [adds, reports, posts, Handles(TaskRun(0, Some(cell))),
                                             Handles(ModemRemoved(p)), Announces(1), Announces(0)];
    AfterThree(START, adds, reports, posts, last);
    var r := Posted(p);
    RemovalToldFirst(r, p, cell);
  }

  lemma {:induction false} Posted(p: Path) returns (r: Radio)
    ensures r == After(After(After(START, Handles(ModemAdded(p, None))), Handles(InterfacesReported(p, true))),
                       Handles(TaskRun(0, None)))
    ensures r == Radio(Caches({p}, map[], [CreateCell(p)]), BLANK)
  {
    var r1 := After(START, Handles(ModemAdded(p, None)));
    assert r1 == Radio(Caches({p}, map[], []), BLANK);
    var r2 := After(r1, Handles(InterfacesReported(p, true)));
    assert r2 == Radio(Caches({p}, map[], [InterfacesChanged(p, true)]), BLANK);
    r := After(r2, Handles(TaskRun(0, None)));
  }

  lemma {:induction false} RemovalToldFirst(r: Radio, p: Path, cell: nat)
    requires r == Radio(Caches({p}, map[], [CreateCell(p)]), BLANK)
    ensures var acts := [Handles(TaskRun(0, Some(cell))), Handles(ModemRemoved(p)), Announces(1), Announces(0)];
      && NeverLate(r, acts)
      && AfterAll(r, acts) == Radio(Caches({}, map[], []), Book([Appeared(p, cell), Vanished(p, cell)], {}, [1, 0]))
    ensures var b := Book([Appeared(p, cell), Vanished(p, cell)], {}, [1, 0]);
      Accounted(b) && Observer(b) == map[p := cell]
  {
    var creates, removes := Handles(TaskRun(0, Some(cell))), Handles(ModemRemoved(p));
    assert [creates, removes, Announces(1)] + [Announces(0)] == [creates, removes, Announces(1), Announces(0)];
    AfterThree(r, creates, removes, Announces(1), [Announces(0)]);
    var r2 := CreatedThenRemoved(r, p, cell);
    var b := ToldBackwards(r2.book, p, cell);
    var r4 := After(After(r2, Announces(1)), Announces(0));
    assert AfterAll(After(r2, Announces(1)), [Announces(0)]) == r4;
  }

  lemma {:induction false} CreatedThenRemoved(r: Radio, p: Path, cell: nat) returns (r': Radio)
    requires r == Radio(Caches({p}, map[], [CreateCell(p)]), BLANK)
    ensures var creates := TaskRun(0, Some(cell));
      !Late(r.caches, creates) && r' == After(After(r, Handles(creates)), Handles(ModemRemoved(p)))
    ensures r' == Radio(Caches({}, map[], []), Book([Appeared(p, cell), Vanished(p, cell)], {0, 1}, []))
  {
    var r1 := After(r, Handles(TaskRun(0, Some(cell))));
    assert r1 == Radio(Caches({p}, map[p := cell], []), Book([Appeared(p, cell)], {0}, []));
    r' := After(r1, Handles(ModemRemoved(p)));
  }

  lemma {:induction false} ToldBackwards(b: Book, p: Path, cell: nat) returns (b': Book)
    requires b == Book([Appeared(p, cell), Vanished(p, cell)], {0, 1}, [])
    ensures b' == Tell(Tell(b, 1), 0) == Book(b.made, {}, [1, 0]) && Accounted(b')
    ensures Replay(b.made, [1, 0]) == map[p := cell]
  {
    StartIsCurrent();
    NoteAccounted(BLANK, Appeared(p, cell));
    NoteAccounted(Note(BLANK, Appeared(p, cell)), Vanished(p, cell));
    assert b == Note(Note(BLANK, Appeared(p, cell)), Vanished(p, cell));
    TellAccounted(b, 1);
    assert Tell(b, 1) == Book(b.made, {0}, [1]);
    TellAccounted(Tell(b, 1), 0);
    b' := Tell(Tell(b, 1), 0);
    ReplayOneMore(b.made, [1], 0);
    ReplayOneMore(b.made, [], 1);
  }

  lemma {:induction false} AfterThree(r: Radio, a: Act, b: Act, c: Act, acts: seq<Act>)
    ensures AfterAll(r, [a, b, c] + acts) == AfterAll(After(After(After(r, a), b), c), acts)
    ensures NeverLate(r, [a, b, c] + acts)
       <==> !(a.Handles? && Late(r.caches, a.event))
            && !(b.Handles? && Late(After(r, a).caches, b.event))
            && !(c.Handles? && Late(After(After(r, a), b).caches, c.event))
            && NeverLate(After(After(After(r, a), b), c), acts)
  {
    assert ([a, b, c] + acts)[1..] == [b, c] + acts;
    assert ([b, c] + acts)[1..] == [c] + acts;
    assert ([c] + acts)[1..] == acts;
    assert AfterAll(r, [a, b, c] + acts) == AfterAll(After(r, a), [b, c] + acts);
    assert AfterAll(After(r, a), [b, c] + acts) == AfterAll(After(After(r, a), b), [c] + acts);
    assert NeverLate(r, [a, b, c] + acts)
      <==> !(a.Handles? && Late(r.caches, a.event)) && NeverLate(After(r, a), [b, c] + acts);
    assert NeverLate(After(r, a), [b, c] + acts)
      <==> !(b.Handles? && Late(After(r, a).caches, b.event)) && NeverLate(After(After(r, a), b), [c] + acts);
  }

  /** Two reports of a network registration, both before the first of their tasks is run. */
  lemma TaskCanBeLate(p: Path, first: nat, second: nat)
    requires first != second
    ensures var c := Run(Caches({}, map[], []),
                         [ModemAdded(p, None), InterfacesReported(p, true), InterfacesReported(p, true),
                          TaskRun(0, None), TaskRun(0, None), TaskRun(0, Some(first))]);
      c.cells == map[p := first] && c.tasks == [CreateCell(p)] && Late(c, TaskRun(0, Some(second)))
  {
    var start, known := Caches({}, map[], []), Caches({p}, map[], []);
    var report, run := InterfacesReported(p, true), TaskRun(0, None);
    var twice, posted := [InterfacesChanged(p, true), InterfacesChanged(p, true)], [CreateCell(p), CreateCell(p)];
    var last := TaskRun(0, Some(first));
    assert Step(start, ModemAdded(p, None)) == known;
    RunTwo(start, ModemAdded(p, None), report, [report, run, run, last]);
    assert [ModemAdded(p, None), report] + [report, run, run, last]
        == [ModemAdded(p, None), report, report, run, run, last];
    assert [report, run] + [run, last] == [report, run, run, last];
    assert [run, last] + [] == [run, last];
    RunTwo(Step(known, report), report, run, [run, last]);
    assert Step(Step(known, report), report) == known.(tasks := twice);
    assert Step(Step(known.(tasks := twice), run), run) == known.(tasks := posted);
    RunTwo(Step(known.(tasks := twice), run), run, last, []);
    assert Step(known.(tasks := posted), last) == Caches({p}, map[p := first], [CreateCell(p)]);
  }

  lemma {:induction false} RunTwo(c: Caches, e: Event, f: Event, es: seq<Event>)
    ensures Run(c, [e, f] + es) == Run(Step(Step(c, e), f), es)
  {
    assert ([e, f] + es)[1..] == [f] + es;
    assert ([f] + es)[1..] == es;
    assert Run(c, [e, f] + es) == Run(Step(c, e), [f] + es);
  }
}
