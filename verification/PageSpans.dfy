/** Which ranges can be removed: where a range starts in the list and how far one owner's groups run on. */
module PageSpans {
  import opened PageMap

  datatype Outcome = Ok | Refused | Trap

  /** Groups `j` to `k` touch each other and all belong to `cid`. */
  ghost predicate Run(list: seq<VirtPage>, j: int, k: int, cid: int) {
    && 0 <= j <= k < |list|
    && (forall t | j <= t <= k :: list[t].cid == cid)
    && (forall t | j <= t < k :: End(list[t]) == list[t + 1].start)
  }

  /** The run from `j` reaches `hi` in group `k` and not before. */
  ghost predicate ReachesAt(list: seq<VirtPage>, j: int, k: int, hi: int, cid: int) {
    Run(list, j, k, cid) && End(list[k]) >= hi && forall t | j <= t < k :: End(list[t]) < hi
  }

  ghost predicate Reaches(list: seq<VirtPage>, j: int, hi: int, cid: int) {
    exists k :: ReachesAt(list, j, k, hi, cid)
  }

  /** `lo` lies in group `j`, which is neither the first nor the last. */
  ghost predicate StartsIn(list: seq<VirtPage>, j: int, lo: int) {
    1 <= j < |list| - 1 && Covers(list[j], lo)
  }

  /** `lo` lies in the gap before group `j`, which is none of the first two and not the last. */
  ghost predicate StartsInGap(list: seq<VirtPage>, j: int, lo: int) {
    2 <= j < |list| - 1 && End(list[j - 1]) <= lo < list[j].start
  }

  /** `lo` lies in the gap after the first group. */
  ghost predicate StartsInFirstGap(list: seq<VirtPage>, lo: int) {
    |list| >= 2 && End(list[0]) <= lo < list[1].start
  }

  /** Every byte of [lo, hi) belongs to `cid`. */
  ghost predicate OwnedBy(list: seq<VirtPage>, lo: int, hi: int, cid: int) {
    forall a {:trigger At(list, a)} | lo <= a < hi :: At(list, a).Mapped? && At(list, a).cid == cid
  }

  // ---------------------------------------------------------------- runs are ownership

  /** Inside a group, owning a range byte by byte is the same as a run of groups that reaches its end. */
  lemma RunIsOwnership(list: seq<VirtPage>, j: int, lo: int, hi: int, cid: int)
    requires Sorted(list) && 0 <= j < |list| && Covers(list[j], lo) && lo < hi
    ensures Reaches(list, j, hi, cid) <==> OwnedBy(list, lo, hi, cid)
  {
    if Reaches(list, j, hi, cid) {
      var k :| ReachesAt(list, j, k, hi, cid);
      forall a | lo <= a < hi ensures At(list, a).Mapped? && At(list, a).cid == cid {
        var t := GroupInRun(list, j, k, a, cid);
        AtGroup(list, t, a);
      }
    }
    if OwnedBy(list, lo, hi, cid) {
      AtGroup(list, j, lo);
      OwnershipRuns(list, j, j, lo, hi, cid);
    }
  }

  lemma {:induction false} GroupInRun(list: seq<VirtPage>, j: int, k: int, a: int, cid: int) returns (t: int)
    requires Run(list, j, k, cid) && list[j].start <= a < End(list[k])
    ensures j <= t <= k && Covers(list[t], a)
    decreases k - j
  {
    if a < End(list[j]) { t := j; } else { t := GroupInRun(list, j + 1, k, a, cid); }
  }

  lemma {:induction false} OwnershipRuns(list: seq<VirtPage>, j: int, k: int, lo: int, hi: int, cid: int)
    requires Sorted(list) && Run(list, j, k, cid) && Covers(list[j], lo) && lo < hi && OwnedBy(list, lo, hi, cid)
    requires forall t | j <= t < k :: End(list[t]) < hi
    ensures Reaches(list, j, hi, cid)
    decreases |list| - k
  {
    if End(list[k]) >= hi {
      assert ReachesAt(list, j, k, hi, cid);
    } else {
      var a := End(list[k]);
      assert lo < a by { if j < k { assert End(list[j]) <= list[k].start; } }
      assert At(list, a).Mapped?;
      var t := AtSome(list, a);
      assert t == k + 1 by { NextGroup(list, k, t); }
      OwnershipRuns(list, j, t, lo, hi, cid);
    }
  }

  /** The group that covers the byte just after group `k` is the next one and starts there. */
  lemma NextGroup(list: seq<VirtPage>, k: int, t: int)
    requires Sorted(list) && 0 <= k < |list| && 0 <= t < |list| && Covers(list[t], End(list[k]))
    ensures t == k + 1 && list[t].start == End(list[k])
  {
    forall i | 0 <= i < |list| && i != k + 1 ensures !Covers(list[i], End(list[k])) {
      if i > k + 1 { assert End(list[k]) <= list[k + 1].start < End(list[k + 1]) <= list[i].start; }
    }
  }

  /** A run that breaks at group `k` before `hi` does not reach it. */
  lemma RunBreaks(list: seq<VirtPage>, j: int, k: int, hi: int, cid: int)
    requires 0 <= j <= k < |list| && (forall t | j <= t < k :: End(list[t]) < hi)
    requires list[k].cid != cid || (End(list[k]) < hi && (k + 1 == |list| || End(list[k]) != list[k + 1].start))
    ensures !Reaches(list, j, hi, cid)
  {
    forall d ensures !ReachesAt(list, j, d, hi, cid) {}
  }

  /** A range that starts in group `j` and reaches its end in group `k` meets exactly groups `j` to `k`. */
  lemma ReachMeets(list: seq<VirtPage>, j: int, k: int, lo: int, hi: int, cid: int)
    requires Sorted(list) && ReachesAt(list, j, k, hi, cid) && Covers(list[j], lo) && lo < hi
    ensures Meets(list, j, k, lo, hi)
  {
    if j < k { assert End(list[k - 1]) == list[k].start; }
  }

  // ---------------------------------------------------------------- the search

  /** What the search answers: `Ok` with the run, or why not. */
  ghost predicate SpanVerdict(list: seq<VirtPage>, lo: int, hi: int, cid: int, r: Outcome, j: int, k: int) {
    && (r == Ok <==> exists i :: StartsIn(list, i, lo) && Reaches(list, i, hi, cid))
    && (r == Trap <==>
        || (exists i :: StartsInGap(list, i, lo))
        || (StartsInFirstGap(list, lo) && Reaches(list, 1, hi, cid)))
    && (r == Ok ==> StartsIn(list, j, lo) && ReachesAt(list, j, k, hi, cid))
  }

  lemma TooLow(list: seq<VirtPage>, lo: int, hi: int, cid: int)
    requires Sorted(list) && list != [] && End(list[0]) > lo
    ensures SpanVerdict(list, lo, hi, cid, Refused, 0, 0)
  {
    forall i | 0 < i < |list| ensures list[i].start > lo { assert End(list[0]) <= list[i].start; }
    assert forall i :: StartsInGap(list, i, lo) ==> 0 < i - 1 < |list|;
  }

  lemma InFirstGap(list: seq<VirtPage>, lo: int, hi: int, cid: int)
    requires Sorted(list) && StartsInFirstGap(list, lo)
    ensures SpanVerdict(list, lo, hi, cid, if Reaches(list, 1, hi, cid) then Trap else Refused, 0, 0)
  {
    forall i | 0 < i < |list| ensures list[i].start > lo { if i > 1 { assert End(list[1]) <= list[i].start; } }
    assert forall i :: StartsInGap(list, i, lo) ==> 0 < i - 1 < |list|;
  }

  lemma AtTheEnd(list: seq<VirtPage>, lo: int, hi: int, cid: int)
    requires Sorted(list) && |list| >= 2 && Below(list[..|list| - 1], lo) && list[1].start <= lo
    ensures SpanVerdict(list, lo, hi, cid, Refused, 0, 0)
  {
    forall i | 0 <= i < |list| - 1 ensures End(list[i]) <= lo { assert list[..|list| - 1][i] == list[i]; }
    assert forall i :: StartsInGap(list, i, lo) ==> 0 <= i < |list| - 1;
  }

  lemma InGap(list: seq<VirtPage>, j: int, lo: int, hi: int, cid: int)
    requires Sorted(list) && StartsInGap(list, j, lo)
    ensures SpanVerdict(list, lo, hi, cid, Trap, 0, 0)
  {
    forall i | 0 <= i < |list| ensures if i < j then End(list[i]) <= lo else list[i].start > lo {
      if i < j - 1 { assert End(list[i]) <= list[j - 1].start; }
      if i > j { assert End(list[j]) <= list[i].start; }
    }
  }

  lemma InGroup(list: seq<VirtPage>, j: int, k: int, lo: int, hi: int, cid: int)
    requires Sorted(list) && StartsIn(list, j, lo) && (ReachesAt(list, j, k, hi, cid) || !Reaches(list, j, hi, cid))
    ensures SpanVerdict(list, lo, hi, cid, if ReachesAt(list, j, k, hi, cid) then Ok else Refused, j, k)
  {
    forall i | 0 <= i < |list| ensures (i < j ==> End(list[i]) <= lo) && (i > j ==> list[i].start > lo) {
      if i < j { assert End(list[i]) <= list[j].start; }
      if i > j { assert End(list[j]) <= list[i].start; }
    }
    forall i | StartsIn(list, i, lo) ensures i == j {}
    assert forall i :: StartsInGap(list, i, lo) ==> 0 <= i - 1 < |list|;
    assert ReachesAt(list, j, k, hi, cid) ==> Reaches(list, j, hi, cid);
  }

  /** Follows one owner's groups from `j` until `hi` is reached. */
  method FollowRun(list: seq<VirtPage>, j: int, hi: int, cid: int) returns (found: bool, k: int)
    requires Sorted(list) && 0 <= j < |list|
    ensures found ==> ReachesAt(list, j, k, hi, cid)
    ensures !found ==> !Reaches(list, j, hi, cid)
  {
    k := j;
    while true
      invariant j <= k < |list|
      invariant forall t | j <= t < k :: list[t].cid == cid && End(list[t]) == list[t + 1].start && End(list[t]) < hi
      decreases |list| - k
    {
      if list[k].cid != cid {
        RunBreaks(list, j, k, hi, cid);
        return false, k;
      }
      if End(list[k]) >= hi { return true, k; }
      if k + 1 == |list| || End(list[k]) != list[k + 1].start {
        RunBreaks(list, j, k, hi, cid);
        return false, k;
      }
      k := k + 1;
    }
  }

  /** Finds the groups that [lo, hi) covers. */
  method FindSpan(list: seq<VirtPage>, lo: int, hi: int, cid: int) returns (r: Outcome, j: int, k: int)
    requires Sorted(list) && |list| >= 2 && lo < hi
    ensures SpanVerdict(list, lo, hi, cid, r, j, k)
  {
    if End(list[0]) > lo {
      TooLow(list, lo, hi, cid);
      return Refused, 0, 0;
    }
    var found;
    if list[1].start > lo {
      // the start is taken to be the first group, which has no predecessor to relink
      found, k := FollowRun(list, 1, hi, cid);
      InFirstGap(list, lo, hi, cid);
      return if found then Trap else Refused, 0, 0;
    }
    j := 1;
    while j + 1 < |list| && End(list[j]) <= lo
      invariant 1 <= j < |list| && Below(list[..j], lo) && list[1].start <= lo
    {
      j := j + 1;
    }
    if j + 1 == |list| {
      AtTheEnd(list, lo, hi, cid);
      return Refused, 0, 0;
    }
    if lo < list[j].start {
      InGap(list, j, lo, hi, cid);
      return Trap, 0, 0;
    }
    found, k := FollowRun(list, j, hi, cid);
    InGroup(list, j, k, lo, hi, cid);
    return if found then Ok else Refused, j, k;
  }

  /** [lo, hi) belongs to `cid` byte by byte and starts in a group that is neither first nor last. */
  ghost predicate Removable(list: seq<VirtPage>, lo: int, hi: int, cid: int) {
    OwnedBy(list, lo, hi, cid) && exists i :: StartsIn(list, i, lo)
  }

  /** The start lies in a gap: after the first group with `cid` running on to `hi`, or before a later group. */
  ghost predicate RemovalTraps(list: seq<VirtPage>, lo: int, hi: int, cid: int) {
    (exists i :: StartsInGap(list, i, lo)) || (StartsInFirstGap(list, lo) && Reaches(list, 1, hi, cid))
  }

  lemma VerdictIsOwnership(list: seq<VirtPage>, lo: int, hi: int, cid: int, r: Outcome, j: int, k: int)
    requires Sorted(list) && lo < hi && SpanVerdict(list, lo, hi, cid, r, j, k)
    ensures r == Ok <==> Removable(list, lo, hi, cid)
    ensures r == Trap <==> RemovalTraps(list, lo, hi, cid)
    ensures r == Ok ==> Meets(list, j, k, lo, hi) && list[j].start <= lo && hi <= End(list[k])
  {
    forall i | StartsIn(list, i, lo) ensures Reaches(list, i, hi, cid) <==> OwnedBy(list, lo, hi, cid) {
      RunIsOwnership(list, i, lo, hi, cid);
    }
    if r == Ok { ReachMeets(list, j, k, lo, hi, cid); }
  }

  /** A removable range lies after the first group. */
  lemma HeadBefore(list: seq<VirtPage>, lo: int, hi: int, cid: int)
    requires Sorted(list) && Removable(list, lo, hi, cid)
    ensures |list| >= 3 && End(list[0]) <= lo
  {
    var i :| StartsIn(list, i, lo);
    assert End(list[0]) <= list[i].start;
  }
}
