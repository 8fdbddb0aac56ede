/** Announcements of what a cache holds, and what an observer makes of them. A handler changes the
    cache under a lock and makes its announcement later, without the lock, so that the handlers of
    other threads may come in between. */
module Announcements {
  import opened Wrappers

  datatype Announcement = Appeared(path: Path, id: nat) | Vanished(path: Path, id: nat) {
    /** The object that there is now at the path. */
    function Said(): Option<nat> {
      if Appeared? then Some(id) else None
    }
  }

  /** `made` holds all announcements in the order in which the lock was held; the place of one is
      its ticket. Those in `due` are yet to be told, those in `told` have been, in that order. */
  datatype Book = Book(made: seq<Announcement>, due: set<nat>, told: seq<nat>)

  const BLANK := Book([], {}, [])

  function Note(b: Book, a: Announcement): Book {
    b.(made := b.made + [a], due := b.due + {|b.made|})
  }

  function Tell(b: Book, t: nat): Book {
    if t in b.due then b.(due := b.due - {t}, told := b.told + [t]) else b
  }

  /** From `b` to `b'` the one announcement `a` became due. */
  predicate Owes(b: Book, b': Book, a: Announcement) {
    b'.made == b.made + [a] && b'.due == b.due + {|b.made|} && b'.told == b.told
  }

  /** Every announcement is due, or was told once. */
  ghost predicate Accounted(b: Book) {
    && (forall t :: t in b.due ==> t < |b.made| && t !in b.told)
    && (forall i :: 0 <= i < |b.told| ==> b.told[i] < |b.made|)
    && (forall i, j :: 0 <= i < j < |b.told| ==> b.told[i] != b.told[j])
    && (forall t: nat :: t < |b.made| ==> t in b.due || t in b.told)
  }

  lemma NoteAccounted(b: Book, a: Announcement)
    requires Accounted(b)
    ensures Accounted(Note(b, a))
  {
    var b' := Note(b, a);
    forall t: nat | t < |b'.made|
      ensures t in b'.due || t in b'.told
    {
      assert t == |b.made| || t in b.due || t in b.told;
    }
  }

  lemma TellAccounted(b: Book, t: nat)
    requires Accounted(b)
    ensures Accounted(Tell(b, t))
  {
  }

  // ----- What an observer holds -----

  function Observed(m: map<Path, nat>, a: Announcement): map<Path, nat> {
    match a
    case Appeared(p, x) => m[p := x]
    case Vanished(p, _) => m - {p}
  }

  /** The objects held by an observer who starts with none and hears what was told. */
  function Replay(made: seq<Announcement>, told: seq<nat>): map<Path, nat>
    requires forall i :: 0 <= i < |told| ==> told[i] < |made|
  {
    if told == [] then map[] else Observed(Replay(made, told[..|told| - 1]), made[told[|told| - 1]])
  }

  function Lookup(m: map<Path, nat>, p: Path): Option<nat> {
    if p in m then Some(m[p]) else None
  }

  ghost function Observer(b: Book): map<Path, nat>
    requires Accounted(b)
  {
    Replay(b.made, b.told)
  }

  ghost predicate AgreesOn(b: Book, m: map<Path, nat>, p: Path)
    requires Accounted(b)
  {
    Lookup(Observer(b), p) == Lookup(m, p)
  }

  /** Something about the path is yet to be told. */
  ghost predicate Due(b: Book, p: Path)
    requires Accounted(b)
  {
    exists t :: t in b.due && b.made[t].path == p
  }

  lemma SameLookups(m: map<Path, nat>, n: map<Path, nat>)
    ensures m == n <==> forall p :: Lookup(m, p) == Lookup(n, p)
  {
    if forall p :: Lookup(m, p) == Lookup(n, p) {
      forall p
        ensures p in m <==> p in n
        ensures p in m ==> m[p] == n[p]
      {
        assert Lookup(m, p) == Lookup(n, p);
      }
    }
  }

  lemma ReplayOneMore(made: seq<Announcement>, told: seq<nat>, t: nat)
    requires t < |made| && forall i :: 0 <= i < |told| ==> told[i] < |made|
    ensures Replay(made, told + [t]) == Observed(Replay(made, told), made[t])
  {
    assert (told + [t])[..|told|] == told;
  }

  lemma {:induction false} ReplayOfMore(made: seq<Announcement>, told: seq<nat>, a: Announcement)
    requires forall i :: 0 <= i < |told| ==> told[i] < |made|
    ensures Replay(made + [a], told) == Replay(made, told)
    decreases |told|
  {
    if told != [] {
      ReplayOfMore(made, told[..|told| - 1], a);
    }
  }

  lemma NotedOne(b: Book, a: Announcement)
    requires Accounted(b)
    ensures Accounted(Note(b, a)) && Observer(Note(b, a)) == Observer(b)
    ensures forall p :: Due(Note(b, a), p) <==> Due(b, p) || p == a.path
  {
    NoteAccounted(b, a);
    ReplayOfMore(b.made, b.told, a);
    var b' := Note(b, a);
    forall p
      ensures Due(b', p) <==> Due(b, p) || p == a.path
    {
      if Due(b, p) {
        var t :| t in b.due && b.made[t].path == p;
        assert t in b'.due && b'.made[t].path == p;
      }
      if p == a.path {
        assert |b.made| in b'.due && b'.made[|b.made|].path == p;
      }
    }
  }

  lemma ToldOne(b: Book, t: nat, p: Path)
    requires Accounted(b) && t in b.due
    ensures Accounted(Tell(b, t))
    ensures Lookup(Observer(Tell(b, t)), p)
         == if b.made[t].path == p then b.made[t].Said() else Lookup(Observer(b), p)
  {
    TellAccounted(b, t);
    ReplayOneMore(b.made, b.told, t);
  }

  /** The last ticket of `told` that concerns path `p`. */
  function LastTold(made: seq<Announcement>, told: seq<nat>, p: Path): (t: Option<nat>)
    requires forall i :: 0 <= i < |told| ==> told[i] < |made|
    ensures t.Some? ==> t.value in told && t.value < |made| && made[t.value].path == p
    ensures t.None? ==> forall i :: 0 <= i < |told| ==> made[told[i]].path != p
  {
    if told == [] then None
    else if made[told[|told| - 1]].path == p then Some(told[|told| - 1])
    else LastTold(made, told[..|told| - 1], p)
  }

  function Saying(made: seq<Announcement>, t: Option<nat>): Option<nat>
    requires t.Some? ==> t.value < |made|
  {
    if t.None? then None else made[t.value].Said()
  }

  lemma {:induction false} ReplayIsLastTold(made: seq<Announcement>, told: seq<nat>, p: Path)
    requires forall i :: 0 <= i < |told| ==> told[i] < |made|
    ensures Lookup(Replay(made, told), p) == Saying(made, LastTold(made, told, p))
    decreases |told|
  {
    if told != [] {
      ReplayIsLastTold(made, told[..|told| - 1], p);
    }
  }

  // ----- Agreement at every moment -----

  /** The observer agrees with the cache `m` on every path about which nothing is due. */
  ghost predicate Current(b: Book, m: map<Path, nat>) {
    Accounted(b) && forall p :: !Due(b, p) ==> AgreesOn(b, m, p)
  }

  /** What is told is the only thing due about its path, and says other than the cache. */
  ghost predicate Misdelivers(b: Book, m: map<Path, nat>, t: nat)
    requires Accounted(b)
  {
    && t in b.due
    && b.made[t].Said() != Lookup(m, b.made[t].path)
    && forall u :: u in b.due && b.made[u].path == b.made[t].path ==> u == t
  }

  /** While something is due about a path the cache may change there. */
  lemma NotingKeepsCurrent(b: Book, m: map<Path, nat>, a: Announcement, m': map<Path, nat>)
    requires Current(b, m)
    requires forall p :: p != a.path ==> Lookup(m', p) == Lookup(m, p)
    ensures Current(Note(b, a), m')
  {
    NotedOne(b, a);
    forall p | !Due(Note(b, a), p)
      ensures AgreesOn(Note(b, a), m', p)
    {
      assert AgreesOn(b, m, p);
    }
  }

  lemma DueAfterTelling(b: Book, t: nat, p: Path)
    requires Accounted(b) && t in b.due
    ensures Accounted(Tell(b, t))
    ensures Due(Tell(b, t), p) <==> exists u :: u in b.due && u != t && b.made[u].path == p
  {
    TellAccounted(b, t);
    if Due(Tell(b, t), p) {
      var u :| u in Tell(b, t).due && b.made[u].path == p;
      assert u in b.due && u != t;
    }
    if u :| u in b.due && u != t && b.made[u].path == p {
      assert u in Tell(b, t).due;
    }
  }

  lemma TellingKeepsCurrentIff(b: Book, m: map<Path, nat>, t: nat)
    requires Current(b, m)
    ensures Current(Tell(b, t), m) <==> !Misdelivers(b, m, t)
  {
    if t in b.due {
      var q := b.made[t].path;
      TellAccounted(b, t);
      forall p | p != q
        ensures !Due(Tell(b, t), p) ==> AgreesOn(Tell(b, t), m, p)
      {
        DueAfterTelling(b, t, p);
        ToldOne(b, t, p);
        assert Due(b, p) || AgreesOn(b, m, p);
      }
      DueAfterTelling(b, t, q);
      ToldOne(b, t, q);
      if Misdelivers(b, m, t) {
        assert !AgreesOn(Tell(b, t), m, q);
      }
    }
  }

  // ----- Caches that are what the announcements made of them -----

  /** The last ticket that concerns path `p`. */
  function Newest(made: seq<Announcement>, p: Path): (t: Option<nat>)
    ensures t.Some? ==> t.value < |made| && made[t.value].path == p
    ensures t.Some? ==> forall u :: t.value < u < |made| ==> made[u].path != p
    ensures t.None? ==> forall u :: 0 <= u < |made| ==> made[u].path != p
  {
    if made == [] then None
    else if made[|made| - 1].path == p then Some(|made| - 1)
    else Newest(made[..|made| - 1], p)
  }

  /** What the cache `m` holds is what the newest announcement says. */
  ghost predicate Tracks(b: Book, m: map<Path, nat>) {
    Accounted(b) && forall p :: Lookup(m, p) == Saying(b.made, Newest(b.made, p))
  }

  lemma NotingKeepsTrack(b: Book, m: map<Path, nat>, a: Announcement)
    requires Tracks(b, m)
    ensures Tracks(Note(b, a), Observed(m, a))
  {
    NoteAccounted(b, a);
    var b', m' := Note(b, a), Observed(m, a);
    forall p
      ensures Lookup(m', p) == Saying(b'.made, Newest(b'.made, p))
    {
      assert b'.made[..|b.made|] == b.made;
      assert Lookup(m, p) == Saying(b.made, Newest(b.made, p));
    }
  }

  /** What was told last about a path says what its newest announcement says. */
  ghost predicate ToldLast(b: Book, p: Path)
    requires Accounted(b)
  {
    var last, newest := LastTold(b.made, b.told, p), Newest(b.made, p);
    newest.Some? ==> last.Some? && b.made[last.value].Said() == b.made[newest.value].Said()
  }

  /** With nothing due about a path, its newest announcement has been told. */
  lemma NewestWasTold(b: Book, p: Path)
    requires Accounted(b) && !Due(b, p)
    ensures Newest(b.made, p).Some? ==> Newest(b.made, p).value in b.told
    ensures LastTold(b.made, b.told, p).Some? <==> Newest(b.made, p).Some?
  {
    if Newest(b.made, p).Some? {
      var t := Newest(b.made, p).value;
      assert t in b.told;
      var i :| 0 <= i < |b.told| && b.told[i] == t;
      assert b.made[b.told[i]].path == p;
    }
  }

  /** The guard: nothing older about the same path is due. */
  ghost predicate InOrder(b: Book, t: nat)
    requires Accounted(b)
  {
    t in b.due ==> forall u :: u in b.due && b.made[u].path == b.made[t].path ==> t <= u
  }

  /** What was told of a path is older than what is due about it. */
  ghost predicate InStep(b: Book)
    requires Accounted(b)
  {
    forall i, u :: 0 <= i < |b.told| && u in b.due && b.made[b.told[i]].path == b.made[u].path ==> b.told[i] < u
  }

  lemma NotingKeepsStep(b: Book, a: Announcement)
    requires Accounted(b) && InStep(b)
    ensures Accounted(Note(b, a)) && InStep(Note(b, a))
  {
    NoteAccounted(b, a);
    assert forall t :: 0 <= t < |b.made| ==> Note(b, a).made[t] == b.made[t];
  }

  lemma TellingKeepsStep(b: Book, t: nat)
    requires Accounted(b) && InStep(b) && InOrder(b, t)
    ensures Accounted(Tell(b, t)) && InStep(Tell(b, t))
  {
    TellAccounted(b, t);
  }

  lemma InOrderDelivers(b: Book, m: map<Path, nat>, t: nat)
    requires Tracks(b, m) && InStep(b) && InOrder(b, t)
    ensures !Misdelivers(b, m, t)
  {
    if t in b.due && forall u :: u in b.due && b.made[u].path == b.made[t].path ==> u == t {
      var p := b.made[t].path;
      forall u: nat | t < u < |b.made|
        ensures b.made[u].path != p
      {
        assert u in b.due || u in b.told;
      }
      assert Newest(b.made, p) == Some(t);
      assert Lookup(m, p) == Saying(b.made, Newest(b.made, p));
    }
  }

  /** A change that is told before anything else happens keeps an observer in agreement. */
  lemma {:induction false} TellingAtOnceAgrees(b: Book, m: map<Path, nat>, a: Announcement)
    requires Tracks(b, m) && b.due == {} && Observer(b) == m
    ensures var b' := Tell(Note(b, a), |b.made|);
      Tracks(b', Observed(m, a)) && b'.due == {} && Observer(b') == Observed(m, a)
  {
    var b1, t := Note(b, a), |b.made|;
    NotingKeepsTrack(b, m, a);
    NotedOne(b, a);
    TellAccounted(b1, t);
    assert b1.due == {t} && b1.due - {t} == {};
    ReplayOneMore(b1.made, b1.told, t);
  }

  // ----- When every order will do -----

  /** All that is due about a path says what the cache holds; or nothing is, and the observer
      agrees. */
  ghost predicate SettledOn(b: Book, m: map<Path, nat>, p: Path)
    requires Accounted(b)
  {
    if Due(b, p) then forall t :: t in b.due && b.made[t].path == p ==> b.made[t].Said() == Lookup(m, p)
    else AgreesOn(b, m, p)
  }

  function TellAll(b: Book, ts: seq<nat>): Book
    decreases |ts|
  {
    if ts == [] then b else TellAll(Tell(b, ts[0]), ts[1..])
  }

  lemma TellingKeepsSettled(b: Book, m: map<Path, nat>, t: nat, p: Path)
    requires Accounted(b) && t in b.due && SettledOn(b, m, p)
    ensures Accounted(Tell(b, t)) && SettledOn(Tell(b, t), m, p)
  {
    ToldOne(b, t, p);
    var b' := Tell(b, t);
    if !Due(b', p) && Due(b, p) {
      assert b.made[t].path == p;
    } else if Due(b', p) {
      var u :| u in b'.due && b'.made[u].path == p;
      assert u in b.due;
    } else {
      assert b.made[t].path != p;
    }
  }

  lemma {:induction false} TellingAllKeepsSettled(b: Book, m: map<Path, nat>, ts: seq<nat>, p: Path)
    requires Accounted(b) && SettledOn(b, m, p)
    ensures Accounted(TellAll(b, ts)) && SettledOn(TellAll(b, ts), m, p)
    decreases |ts|
  {
    if ts != [] {
      TellAccounted(b, ts[0]);
      if ts[0] in b.due {
        TellingKeepsSettled(b, m, ts[0], p);
      }
      TellingAllKeepsSettled(Tell(b, ts[0]), m, ts[1..], p);
    }
  }

  lemma {:induction false} TellAllAccounted(b: Book, ts: seq<nat>)
    requires Accounted(b)
    ensures Accounted(TellAll(b, ts))
    decreases |ts|
  {
    if ts != [] {
      TellAccounted(b, ts[0]);
      TellAllAccounted(Tell(b, ts[0]), ts[1..]);
    }
  }

  /** A way to tell all that is due that tells `last` at the end, if that is due. */
  lemma {:induction false} TellLast(b: Book, last: nat, p: Path) returns (ts: seq<nat>)
    requires Accounted(b) && (b.due != {} ==> last in b.due)
    requires Due(b, p) ==> last in b.due && b.made[last].path == p
    ensures TellAll(b, ts).due == {} && Accounted(TellAll(b, ts))
    ensures Lookup(Observer(TellAll(b, ts)), p)
         == if Due(b, p) then b.made[last].Said() else Lookup(Observer(b), p)
    decreases |b.due|
  {
    if b.due == {} {
      ts := [];
    } else {
      var t :| t in b.due && (t == last ==> b.due == {last}) by { OtherThan(b.due, last); }
      ToldOne(b, t, p);
      DueAfterTelling(b, t, p);
      var rest := [];
      if t == last {
        assert TellAll(Tell(b, t), []) == Tell(b, t);
      } else {
        assert Due(b, p) <==> Due(Tell(b, t), p);
        rest := TellLast(Tell(b, t), last, p);
      }
      ts := [t] + rest;
      assert ts[1..] == rest;
    }
  }

  lemma OtherThan(s: set<nat>, x: nat)
    requires x in s
    ensures exists t :: t in s && (t == x ==> s == {x})
  {
    var rest := s - {x};
    if rest == {} {
      assert s == {x};
    } else {
      var t :| t in rest;
      assert t in s && t != x;
    }
  }

  /** From any state: whatever the order in which the due announcements are told, the observer
      ends up with what the cache holds, if and only if every path is settled. */
  lemma EveryOrderAgreesIff(b: Book, m: map<Path, nat>)
    requires Accounted(b)
    ensures (forall ts :: TellAll(b, ts).due == {} ==> Accounted(TellAll(b, ts)) && Observer(TellAll(b, ts)) == m)
       <==> forall p :: SettledOn(b, m, p)
  {
    if forall p :: SettledOn(b, m, p) {
      forall ts | TellAll(b, ts).due == {}
        ensures Accounted(TellAll(b, ts)) && Observer(TellAll(b, ts)) == m
      {
        TellAllAccounted(b, ts);
        forall p
          ensures Lookup(Observer(TellAll(b, ts)), p) == Lookup(m, p)
        {
          TellingAllKeepsSettled(b, m, ts, p);
        }
        SameLookups(Observer(TellAll(b, ts)), m);
      }
    } else {
      var p :| !SettledOn(b, m, p);
      var ts := Misleading(b, m, p);
    }
  }

  lemma Misleading(b: Book, m: map<Path, nat>, p: Path) returns (ts: seq<nat>)
    requires Accounted(b) && !SettledOn(b, m, p)
    ensures TellAll(b, ts).due == {} && Accounted(TellAll(b, ts)) && Observer(TellAll(b, ts)) != m
  {
    var last: nat := 0;
    if Due(b, p) {
      last :| last in b.due && b.made[last].path == p && b.made[last].Said() != Lookup(m, p);
    } else if b.due != {} {
      last :| last in b.due;
    }
    ts := TellLast(b, last, p);
  }
}
