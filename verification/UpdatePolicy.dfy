/** Which position update the engine keeps. */
module UpdatePolicy {
  import opened Wrappers

  /** An update as the policy sees it: its horizontal accuracy, if any, and the time, with an
      identity for the rest of its value. */
  datatype Update = Update(id: int, accuracy: Option<real>, when: int)

  predicate SignificantlyNewer(last: Update, update: Update, limit: int) {
    update.when - last.when > limit
  }

  predicate SignificantlyOlder(last: Update, update: Update, limit: int) {
    update.when - last.when < -1 * limit
  }

  predicate AtLeastAsAccurate(last: Update, update: Update) {
    last.accuracy.None? || (update.accuracy.Some? && last.accuracy.value >= update.accuracy.value)
  }

  function Verified(last: Update, update: Update, limit: int): Update {
    if SignificantlyNewer(last, update, limit) then update
    else if SignificantlyOlder(last, update, limit) then last
    else if AtLeastAsAccurate(last, update) then update
    else last
  }

  /** Where in a run of updates the one is that is kept; the first of the run is the initial one. */
  function KeptAt(run: seq<Update>, limit: int): (i: nat)
    requires run != []
    ensures i < |run|
  {
    var n := |run| - 1;
    if n == 0 then 0
    else
      var last := KeptAt(run[..n], limit);
      if SignificantlyNewer(run[last], run[n], limit) then n
      else if SignificantlyOlder(run[last], run[n], limit) then last
      else if AtLeastAsAccurate(run[last], run[n]) then n
      else last
  }

  function Kept(run: seq<Update>, limit: int): Update
    requires run != []
  {
    run[KeptAt(run, limit)]
  }

  lemma KeptIsFold(run: seq<Update>, update: Update, limit: int)
    requires run != []
    ensures Kept(run + [update], limit) == Verified(Kept(run, limit), update, limit)
  {
    assert (run + [update])[..|run|] == run;
  }

  /** The last update of the least accuracy value present, or the last of all if none has one. */
  ghost predicate LastBest(run: seq<Update>, i: int) {
    && 0 <= i < |run|
    && (run[i].accuracy.None? ==> i == |run| - 1 && forall j :: 0 <= j < |run| ==> run[j].accuracy.None?)
    && (run[i].accuracy.Some? ==> forall j :: 0 <= j < |run| && run[j].accuracy.Some? ==>
          run[i].accuracy.value <= run[j].accuracy.value
          && (j > i ==> run[i].accuracy.value < run[j].accuracy.value))
  }

  lemma LastBestIsOne(run: seq<Update>, i: int, j: int)
    requires LastBest(run, i) && LastBest(run, j)
    ensures i == j
  {
  }

  /** The best update is not refused for its age when it arrives, and none that arrives after it
      is newer by more than the limit: the guards of the branches that ignore accuracy. A
      negative limit makes an update both newer and older; being newer is asked first. */
  ghost predicate Unskipped(run: seq<Update>, best: nat, limit: int)
    requires best < |run|
  {
    && (best > 0 && SignificantlyOlder(Kept(run[..best], limit), run[best], limit) ==>
          SignificantlyNewer(Kept(run[..best], limit), run[best], limit))
    && forall j :: best < j < |run| ==> !SignificantlyNewer(run[best], run[j], limit)
  }

  /** A run, whatever its times, keeps its last best update if and only if neither branch that
      ignores accuracy passes it over. */
  lemma {:induction false} KeepsLastBestIff(run: seq<Update>, limit: int, best: nat)
    requires LastBest(run, best)
    ensures KeptAt(run, limit) == best <==> Unskipped(run, best, limit)
  {
    var n := |run| - 1;
    if best < n {
      var before := run[..n];
      assert forall i :: 0 <= i < n ==> before[i] == run[i];
      assert before[..best] == run[..best];
      KeepsLastBestIff(before, limit, best);
    } else if n > 0 {
      assert run[..best] == run[..n];
    }
  }

  /** In particular if all times lie within the limit. */
  lemma KeepsLastBest(run: seq<Update>, limit: int, best: nat)
    requires LastBest(run, best)
    requires forall i, j :: 0 <= i < |run| && 0 <= j < |run| ==> run[i].when - run[j].when <= limit
    ensures KeptAt(run, limit) == best
  {
    KeepsLastBestIff(run, limit, best);
    if best > 0 {
      var last := KeptAt(run[..best], limit);
      assert run[last].when - run[best].when <= limit;
    }
  }

  lemma {:induction false} LastBestExists(run: seq<Update>) returns (best: nat)
    requires run != []
    ensures LastBest(run, best)
  {
    var n := |run| - 1;
    best := n;
    if n > 0 {
      var b := LastBestExists(run[..n]);
      if !AtLeastAsAccurate(run[b], run[n]) {
        best := b;
      }
    }
  }

  /** Every run has one last best update, and keeps it exactly on that condition. */
  lemma KeepsTheOneBestIff(run: seq<Update>, limit: int) returns (best: nat)
    requires run != []
    ensures LastBest(run, best) && forall i :: LastBest(run, i) ==> i == best
    ensures KeptAt(run, limit) == best <==> Unskipped(run, best, limit)
  {
    best := LastBestExists(run);
    forall i | LastBest(run, i)
      ensures i == best
    {
      LastBestIsOne(run, i, best);
    }
    KeepsLastBestIff(run, limit, best);
  }

  /** `update` comes within the limit after `kept`, but is too old or less accurate. */
  predicate Inferior(update: Update, kept: Update, limit: int) {
    && update.when <= kept.when + limit
    && (update.when < kept.when - limit
        || (kept.accuracy.Some?
            && (update.accuracy.None? || update.accuracy.value > kept.accuracy.value)))
  }

  /** Whatever the times: what is kept is an update of the run to which all later ones are
      inferior. So it is never more than the limit older than the update just processed. */
  lemma {:induction false} LaterOnesAreInferior(run: seq<Update>, limit: int) returns (i: nat)
    requires run != []
    ensures i < |run| && i == KeptAt(run, limit)
    ensures forall j :: i < j < |run| ==> Inferior(run[j], run[i], limit)
    ensures i == |run| - 1 || run[|run| - 1].when - run[i].when <= limit
  {
    var n := |run| - 1;
    i := n;
    if n > 0 {
      var before := run[..n];
      var b := LaterOnesAreInferior(before, limit);
      if KeptAt(run, limit) != n {
        i := b;
        assert forall j :: 0 <= j < n ==> before[j] == run[j];
      }
    }
  }

  /** Across the limit the best is lost, either way: a newer update takes over whatever its
      accuracy, and an older one is refused whatever its accuracy. */
  lemma BestCanBeLost(limit: int)
    requires limit >= 0
    ensures var run := [Update(0, Some(1.0), 0), Update(1, None, limit + 1)];
      LastBest(run, 0) && KeptAt(run, limit) == 1
    ensures var run := [Update(0, None, limit + 1), Update(1, Some(1.0), 0)];
      LastBest(run, 1) && KeptAt(run, limit) == 0
  {
    KeepsLastBestIff([Update(0, Some(1.0), 0), Update(1, None, limit + 1)], limit, 0);
    var run := [Update(0, None, limit + 1), Update(1, Some(1.0), 0)];
    assert run[..1] == [run[0]];
    KeepsLastBestIff(run, limit, 1);
  }

  class TimeBased {
    const limit: int
    var lastPositionUpdate: Update
    /** All updates so far, the initial one first. */
    ghost var run: seq<Update>

    ghost predicate Valid()
      reads this
    {
      run != [] && lastPositionUpdate == Kept(run, limit)
    }

    constructor (limit: int, initial: Update)
      ensures Valid() && run == [initial] && this.limit == limit
    {
      this.limit := limit;
      lastPositionUpdate := initial;
      run := [initial];
    }

    method VerifyUpdate(update: Update) returns (verified: Update)
      requires Valid()
      modifies this
      ensures Valid() && run == old(run) + [update]
      ensures verified == lastPositionUpdate == Verified(old(lastPositionUpdate), update, limit)
      ensures verified == update || update.when - verified.when <= limit
    {
      var useNewUpdate;
      if SignificantlyNewer(lastPositionUpdate, update, limit) {
        useNewUpdate := true;
      } else if SignificantlyOlder(lastPositionUpdate, update, limit) {
        useNewUpdate := false;
      } else {
        useNewUpdate := AtLeastAsAccurate(lastPositionUpdate, update);
      }
      if useNewUpdate {
        lastPositionUpdate := update;
      }
      verified := lastPositionUpdate;
      KeptIsFold(run, update, limit);
      run := run + [update];
    }
  }
}
