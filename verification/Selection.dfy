/** Which provider a session gets for each kind of update. */
module ProviderSelection {
  import opened Counters

  /** A provider as the policy sees it while it enumerates. */
  datatype Provider = Null | Provider(id: nat, matches: bool, running: set<Kind>)

  /** The comparator: a running provider is before one that is not. */
  predicate Before(lhs: Provider, rhs: Provider, kind: Kind) {
    Runs(lhs, kind) && !Runs(rhs, kind)
  }

  predicate Runs(p: Provider, kind: Kind) {
    p.Provider? && kind in p.running
  }

  predicate Ordered(s: seq<Provider>, kind: Kind) {
    forall i, j :: 0 <= i < j < |s| ==> Before(s[i], s[j], kind)
  }

  /** Inserts before the first element that is not less, unless that one is equivalent. */
  method Insert(s: seq<Provider>, p: Provider, kind: Kind) returns (r: seq<Provider>)
    requires Ordered(s, kind)
    ensures Ordered(r, kind)
    ensures (exists q :: q in s && Runs(q, kind) == Runs(p, kind)) ==> r == s
    ensures (forall q :: q in s ==> Runs(q, kind) != Runs(p, kind)) ==>
      r == if Runs(p, kind) then [p] + s else s + [p]
  {
    var at := 0;
    while at < |s| && Before(s[at], p, kind)
      invariant 0 <= at <= |s| && forall i :: 0 <= i < at ==> Before(s[i], p, kind)
    {
      at := at + 1;
    }
    if at < |s| && !Before(p, s[at], kind) {
      r := s;
    } else {
      r := s[..at] + [p] + s[at..];
    }
  }

  predicate Fits(p: Provider, kind: Kind, running: bool) {
    p.Provider? && p.matches && Runs(p, kind) == running
  }

  /** The first matching provider that is, or is not, running. */
  function FirstOf(ps: seq<Provider>, kind: Kind, running: bool): Provider {
    if ps == [] then Null
    else if Fits(ps[0], kind, running) then ps[0]
    else FirstOf(ps[1..], kind, running)
  }

  lemma {:induction false} FirstOfAppend(ps: seq<Provider>, p: Provider, kind: Kind, running: bool)
    ensures FirstOf(ps + [p], kind, running)
         == if FirstOf(ps, kind, running) == Null && Fits(p, kind, running) then p
            else FirstOf(ps, kind, running)
  {
    if ps == [] {
      assert (ps + [p])[1..] == [];
    } else {
      assert (ps + [p])[1..] == ps[1..] + [p];
      FirstOfAppend(ps[1..], p, kind, running);
    }
  }

  lemma {:induction false} FirstOfFits(ps: seq<Provider>, kind: Kind, running: bool)
    ensures FirstOf(ps, kind, running) == Null <==> forall p :: p in ps ==> !Fits(p, kind, running)
    ensures FirstOf(ps, kind, running) != Null ==>
      FirstOf(ps, kind, running) in ps && Fits(FirstOf(ps, kind, running), kind, running)
  {
    if ps != [] {
      FirstOfFits(ps[1..], kind, running);
      assert forall p :: p in ps <==> p == ps[0] || p in ps[1..];
    }
  }

  function Held(ps: seq<Provider>, kind: Kind): seq<Provider> {
    (if FirstOf(ps, kind, true) == Null then [] else [FirstOf(ps, kind, true)])
    + if FirstOf(ps, kind, false) == Null then [] else [FirstOf(ps, kind, false)]
  }

  function Chosen(ps: seq<Provider>, kind: Kind): Provider {
    if FirstOf(ps, kind, true) != Null then FirstOf(ps, kind, true) else FirstOf(ps, kind, false)
  }

  /** The place in the enumeration that decides: of the first matching provider that runs, else
      of the first that matches. */
  ghost predicate Decides(ps: seq<Provider>, kind: Kind, i: int) {
    && 0 <= i < |ps| && ps[i].Provider? && ps[i].matches
    && (forall j :: 0 <= j < |ps| && ps[j].Provider? && ps[j].matches && kind in ps[j].running ==>
          kind in ps[i].running && i <= j)
    && (kind in ps[i].running || forall j :: 0 <= j < i ==> !(ps[j].Provider? && ps[j].matches))
  }

  /** The choice is the deciding provider, and the null provider exactly if none matches. */
  lemma {:induction false} ChosenIff(ps: seq<Provider>, kind: Kind)
    ensures Chosen(ps, kind) == Null <==> forall p :: p in ps ==> !(p.Provider? && p.matches)
    ensures forall i | Decides(ps, kind, i) :: Chosen(ps, kind) == ps[i]
    ensures Chosen(ps, kind) != Null ==> exists i :: Decides(ps, kind, i)
  {
    FirstOfFits(ps, kind, true);
    FirstOfFits(ps, kind, false);
    assert forall p: Provider :: p.Provider? && p.matches ==> Fits(p, kind, Runs(p, kind));
    if Chosen(ps, kind) != Null {
      var i := IndexOfFirst(ps, kind, FirstOf(ps, kind, true) != Null);
      assert Decides(ps, kind, i);
    }
  }

  lemma {:induction false} IndexOfFirst(ps: seq<Provider>, kind: Kind, running: bool) returns (i: nat)
    requires FirstOf(ps, kind, running) != Null
    ensures i < |ps| && ps[i] == FirstOf(ps, kind, running) && Fits(ps[i], kind, running)
    ensures forall j :: 0 <= j < i ==> !Fits(ps[j], kind, running)
  {
    if Fits(ps[0], kind, running) {
      i := 0;
    } else {
      i := IndexOfFirst(ps[1..], kind, running);
      i := i + 1;
    }
  }

  lemma HeldAfter(ps: seq<Provider>, p: Provider, kind: Kind)
    ensures Ordered(Held(ps, kind), kind) && |Held(ps, kind)| <= 2
    ensures var held := Held(ps, kind);
      Held(ps + [p], kind)
      == if !p.Provider? || !p.matches || exists q :: q in held && Runs(q, kind) == Runs(p, kind) then held
         else if Runs(p, kind) then [p] + held else held + [p]
  {
    FirstOfAppend(ps, p, kind, true);
    FirstOfAppend(ps, p, kind, false);
    FirstOfFits(ps, kind, true);
    FirstOfFits(ps, kind, false);
    var held := Held(ps, kind);
    var same := FirstOf(ps, kind, Runs(p, kind));
    if same != Null {
      assert same in held && Runs(same, kind) == Runs(p, kind);
    }
  }

  /** For any enumeration; of the matching providers no more than two are ever held. */
  method Determine(kind: Kind, ps: seq<Provider>) returns (r: Provider)
    ensures r == Chosen(ps, kind)
  {
    var held: seq<Provider> := [];
    for n := 0 to |ps|
      invariant held == Held(ps[..n], kind) && |held| <= 2
    {
      assert ps[..n + 1] == ps[..n] + [ps[n]];
      HeldAfter(ps[..n], ps[n], kind);
      if ps[n].Provider? && ps[n].matches {
        held := Insert(held, ps[n], kind);
      }
    }
    assert ps[..|ps|] == ps;
    r := if held == [] then Null else held[0];
  }

  datatype Selection = Selection(position: Provider, heading: Provider, velocity: Provider)

  method DetermineSelection(ps: seq<Provider>) returns (s: Selection)
    ensures s == Selection(Chosen(ps, Position), Chosen(ps, Heading), Chosen(ps, Velocity))
  {
    var position := Determine(Position, ps);
    var heading := Determine(Heading, ps);
    var velocity := Determine(Velocity, ps);
    s := Selection(position, heading, velocity);
  }
}
