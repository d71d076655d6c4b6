/** How the monitor's list of page groups is edited: where a group is inserted, what a refill adds, and
    what cutting a range out leaves. */
module PageEdits {
  import opened PageMap
  import opened PageSpans

  const NODE_SIZE: int := 64
  const NODES_PER_REFILL: int := 128
  const REFILL_BYTES: int := 8192

  predicate Overlap(g: VirtPage, lo: int, hi: int) { g.start < hi && lo < End(g) }

  ghost predicate NoOverlap(list: seq<VirtPage>, lo: int, hi: int) {
    forall i | 0 <= i < |list| :: !Overlap(list[i], lo, hi)
  }

  /** Group `f` is the first one that meets [lo, hi). */
  ghost predicate FirstMeets(list: seq<VirtPage>, f: int, lo: int, hi: int) {
    0 <= f < |list| && Overlap(list[f], lo, hi) && Below(list[..f], lo)
  }

  /** Inserting [lo, hi) traps: the first group it meets is not the last one and does not start after `lo`
      (or is the head); a fixed mapping must not meet any group at all. */
  ghost predicate InsertTraps(list: seq<VirtPage>, lo: int, hi: int, mapFixed: bool) {
    exists f :: FirstMeets(list, f, lo, hi) && (mapFixed || (f + 1 < |list| && (f == 0 || list[f].start <= lo)))
  }

  /** Insertion succeeds exactly when nothing overlaps, and traps exactly under `InsertTraps`. */
  ghost predicate InsertVerdict(list: seq<VirtPage>, p: VirtPage, mapFixed: bool, r: Outcome, at: int) {
    && (r == Ok <==> NoOverlap(list, p.start, End(p)))
    && (r == Trap <==> InsertTraps(list, p.start, End(p), mapFixed))
    && (r == Ok ==> FitsAt(list, at, p))
  }

  lemma MeetsDecides(list: seq<VirtPage>, f: int, p: VirtPage, mapFixed: bool, at: int)
    requires Sorted(list) && FirstMeets(list, f, p.start, End(p))
    ensures var traps := mapFixed || (f + 1 < |list| && (f == 0 || list[f].start <= p.start));
            InsertVerdict(list, p, mapFixed, if traps then Trap else Refused, at)
  {
    forall d | FirstMeets(list, d, p.start, End(p)) ensures d == f {}
  }

  lemma FitsDecides(list: seq<VirtPage>, i: int, p: VirtPage, mapFixed: bool)
    requires FitsAt(list, i, p)
    ensures InsertVerdict(list, p, mapFixed, Ok, i)
  {
    forall d | 0 <= d < |list| ensures !Overlap(list[d], p.start, End(p)) {
      if d < i { assert list[..i][d] == list[d]; } else { assert list[i..][d - i] == list[d]; }
    }
  }

  /** The place right after group `i`. */
  lemma NextPlaceDecides(list: seq<VirtPage>, i: int, p: VirtPage, mapFixed: bool)
    requires Sorted(list) && 0 <= i < |list| && p.size > 0 && Below(list[..i], p.start)
    requires list[i].start < End(p) && !Overlap(list[i], p.start, End(p))
    requires i + 1 < |list| ==> End(p) <= list[i + 1].start
    ensures InsertVerdict(list, p, mapFixed, Ok, i + 1)
  {
    forall d | 0 <= d < i + 1 ensures End(list[d]) <= p.start { if d < i { assert list[..i][d] == list[d]; } }
    forall d | i + 1 <= d < |list| ensures End(p) <= list[d].start {
      if d > i + 1 { assert End(list[i + 1]) <= list[d].start; }
    }
    FitsDecides(list, i + 1, p, mapFixed);
  }

  /** Walks the list to the place where `p` belongs. */
  method FindPlace(list: seq<VirtPage>, p: VirtPage, mapFixed: bool) returns (r: Outcome, at: int)
    requires Sorted(list) && p.size > 0
    ensures InsertVerdict(list, p, mapFixed, r, at)
  {
    var lo, hi := p.start, End(p);
    if list == [] || list[0].start >= hi {
      FitsDecides(list, 0, p, mapFixed);
      return Ok, 0;
    }
    var i := 0;
    while i + 1 < |list|
      invariant 0 <= i < |list| && list[0].start < hi
      invariant Below(list[..i], lo) && list[i].start < hi && (i > 0 ==> list[i].start <= lo)
      decreases |list| - i
    {
      if Overlap(list[i], lo, hi) {
        MeetsDecides(list, i, p, mapFixed, 0);
        return Trap, 0;
      }
      if lo < list[i + 1].start {
        if hi > list[i + 1].start {
          MeetsDecides(list, i + 1, p, mapFixed, 0);
          return if mapFixed then Trap else Refused, 0;
        }
        NextPlaceDecides(list, i, p, mapFixed);
        return Ok, i + 1;
      }
      i := i + 1;
    }
    if Overlap(list[i], lo, hi) {
      MeetsDecides(list, i, p, mapFixed, 0);
      return if mapFixed then Trap else Refused, 0;
    }
    NextPlaceDecides(list, i, p, mapFixed);
    return Ok, i + 1;
  }

  lemma CutRun<T>(front: seq<T>, list: seq<T>, m: int, k: int)
    requires 0 <= m <= k <= |list|
    ensures var s, p := front + list[m..], |front|; s[..p] + s[p + (k - m)..] == front + list[k..]
  {
  }

  lemma CutOne<T>(front: seq<T>, list: seq<T>, k: int, mid: seq<T>)
    requires 0 <= k < |list|
    ensures var s, p := front + list[k..], |front|;
            s[p] == list[k] && s[..p] + mid + s[p + 1..] == front + mid + list[k + 1..]
  {
  }

  // ---------------------------------------------------------------- refills

  const PROT_RW: int := 3
  const TS_MONITOR: int := 0
  const MAP_PRIVATE_SHARED: int := 3

  /** The group a refill records for itself.  The call passes its flags where the owner is expected and the
      owner where the flags are. */
  function OwnGroup(region: int): VirtPage {
    VirtPage(region + NODE_SIZE * (NODES_PER_REFILL - 1), region, REFILL_BYTES, PROT_RW, TS_MONITOR, MAP_PRIVATE_SHARED)
  }

  /** The first `k` nodes of a refill, linked in address order. */
  function Chain(region: int, k: nat): seq<int> {
    if k == 0 then [] else Chain(region, k - 1) + [region + NODE_SIZE * (k - 1)]
  }

  function ChainSet(region: int, k: nat): set<int> {
    if k == 0 then {} else ChainSet(region, k - 1) + {region + NODE_SIZE * (k - 1)}
  }

  function RegionNodes(region: int): set<int> { ChainSet(region, NODES_PER_REFILL) }

  lemma {:induction false} ChainCounts(region: int, k: nat)
    ensures multiset(Chain(region, k)) == multiset(ChainSet(region, k))
    ensures forall n | n in ChainSet(region, k) :: region <= n < region + NODE_SIZE * k
    ensures |ChainSet(region, k)| == k
  {
    if k > 0 { ChainCounts(region, k - 1); }
  }

  /** The kernel's region meets no recorded group and holds no node yet. */
  ghost predicate FreshRegion(list: seq<VirtPage>, nodes: set<int>, region: int) {
    NoOverlap(list, region, region + REFILL_BYTES) && forall n | n in nodes :: n < region || region + REFILL_BYTES <= n
  }

  /** `list'` is `list`, with the refill's own group linked in at `at` if there was a refill. */
  ghost predicate Supplied(list: seq<VirtPage>, list': seq<VirtPage>, region: int, refilled: bool, at: int) {
    if refilled then FitsAt(list, at, OwnGroup(region)) && list' == Inserted(list, at, OwnGroup(region))
    else list' == list
  }

  lemma ChainNonempty(region: int)
    ensures |Chain(region, NODES_PER_REFILL - 1)| >= 2
  {
    var k := NODES_PER_REFILL - 1;
    assert Chain(region, k) == Chain(region, k - 2) + [region + NODE_SIZE * (k - 2)] + [region + NODE_SIZE * (k - 1)];
  }

  /** What the list says once the refill, if any, has recorded itself. */
  function WithRefill(list: seq<VirtPage>, region: int, refilled: bool, a: int): Info {
    if refilled && Covers(OwnGroup(region), a) then InfoOf(OwnGroup(region)) else At(list, a)
  }

  lemma SuppliedMap(list: seq<VirtPage>, list': seq<VirtPage>, region: int, refilled: bool, at: int)
    requires Supplied(list, list', region, refilled, at)
    ensures forall a :: At(list', a) == WithRefill(list, region, refilled, a)
  {
    forall a ensures At(list', a) == WithRefill(list, region, refilled, a) {
      if refilled { InsertMap(list, at, OwnGroup(region), a); }
    }
  }

  lemma RefillCounts(nodes: set<int>, region: int)
    requires forall n | n in nodes :: n < region || region + REFILL_BYTES <= n
    ensures multiset(nodes + RegionNodes(region))
         == multiset(nodes) + multiset(Chain(region, NODES_PER_REFILL - 1)) + multiset{OwnGroup(region).node}
    ensures RegionNodes(region) !! nodes && |RegionNodes(region)| == NODES_PER_REFILL
  {
    ChainCounts(region, NODES_PER_REFILL);
    ChainCounts(region, NODES_PER_REFILL - 1);
    var last := OwnGroup(region).node;
    assert RegionNodes(region) == ChainSet(region, NODES_PER_REFILL - 1) + {last};
    assert last !in ChainSet(region, NODES_PER_REFILL - 1);
    forall n | n in RegionNodes(region) ensures n !in nodes {}
  }

  // ---------------------------------------------------------------- cutting a hole

  /** `list'` is sorted and says what `list` and the refill say, except that [lo, hi) is gone. */
  ghost predicate CutOut(list: seq<VirtPage>, list': seq<VirtPage>, lo: int, hi: int, region: int, refilled: bool) {
    && Sorted(list')
    && forall a :: At(list', a) == if lo <= a < hi then Unmapped else WithRefill(list, region, refilled, a)
  }

  lemma TrimCutsOut(list: seq<VirtPage>, j: int, k: int, lo: int, hi: int, node: int, region: int)
    requires Sorted(list) && Meets(list, j, k, lo, hi)
    ensures CutOut(list, Trimmed(list, j, k, lo, hi, node), lo, hi, region, false)
  {
    TrimSorted(list, j, k, lo, hi, node);
    forall a ensures At(Trimmed(list, j, k, lo, hi, node), a) == if lo <= a < hi then Unmapped else At(list, a) {
      TrimMap(list, j, k, lo, hi, node, a);
    }
  }

  /** Group `j` without its bytes from `lo` on. */
  function Shortened(list: seq<VirtPage>, j: int, lo: int): seq<VirtPage>
    requires 0 <= j < |list|
  {
    list[j := list[j].(size := lo - list[j].start)]
  }

  lemma ShortenedList(list: seq<VirtPage>, j: int, lo: int, region: int)
    requires Sorted(list) && 0 <= j < |list| && list[j].start < lo < End(list[j])
    ensures CutOut(list, Shortened(list, j, lo), lo, End(list[j]), region, false)
    ensures forall i | 0 <= i < |list| ::
            list[i].start <= Shortened(list, j, lo)[i].start && End(Shortened(list, j, lo)[i]) <= End(list[i])
  {
    MeetsOne(list, j, lo, End(list[j]));
    TrimCutsOut(list, j, j, lo, End(list[j]), 0, region);
    assert Shortened(list, j, lo) == Trimmed(list, j, j, lo, End(list[j]), 0);
  }

  lemma ShortenedKeepsFresh(list: seq<VirtPage>, j: int, lo: int, region: int)
    requires Sorted(list) && 0 <= j < |list| && list[j].start < lo < End(list[j])
    ensures Sorted(Shortened(list, j, lo))
    ensures NoOverlap(list, region, region + REFILL_BYTES) ==>
            NoOverlap(Shortened(list, j, lo), region, region + REFILL_BYTES)
  {
    ShortenedList(list, j, lo, region);
  }

  /** The place of group `j` once the refill's group is linked in at `at`. */
  function Shift(j: int, refilled: bool, at: int): int { if refilled && at <= j then j + 1 else j }

  /** Where an element of the supplied list comes from. */
  lemma SuppliedIndex(list: seq<VirtPage>, list': seq<VirtPage>, region: int, refilled: bool, at: int, i: int)
    requires Supplied(list, list', region, refilled, at) && 0 <= i < |list'|
    ensures if refilled && i == at then list'[i] == OwnGroup(region)
            else var t := if refilled && at < i then i - 1 else i;
                 0 <= t < |list| && list'[i] == list[t] && Shift(t, refilled, at) == i
  {
  }

  lemma ShiftIndex(list: seq<VirtPage>, list': seq<VirtPage>, region: int, refilled: bool, at: int, j: int)
    requires Supplied(list, list', region, refilled, at) && 0 <= j < |list|
    ensures var d := Shift(j, refilled, at); 0 <= d < |list'| && list'[d] == list[j]
  {
  }

  /** Whatever follows group `j` once it is shortened and the refill recorded also follows its old end. */
  lemma AfterTail(list: seq<VirtPage>, j: int, lo: int, list': seq<VirtPage>, region: int, refilled: bool, at: int,
                  i: int)
    requires Sorted(list) && 0 <= j < |list| && list[j].start < lo < End(list[j])
    requires Supplied(Shortened(list, j, lo), list', region, refilled, at) && Sorted(list')
    requires refilled ==> NoOverlap(list, region, region + REFILL_BYTES)
    requires Shift(j, refilled, at) < i < |list'|
    ensures list'[i].start >= End(list[j])
  {
    var short, d := Shortened(list, j, lo), Shift(j, refilled, at);
    ShiftIndex(short, list', region, refilled, at, j);
    SuppliedIndex(short, list', region, refilled, at, i);
    assert End(list'[d]) <= list'[i].start;
    if refilled && i == at {
      assert !Overlap(list[j], region, region + REFILL_BYTES);
    } else {
      var t := if refilled && at < i then i - 1 else i;
      assert End(list[j]) <= list[t].start;
    }
  }

  function Tail(g: VirtPage, hi: int, node: int): VirtPage { g.(node := node, start := hi, size := End(g) - hi) }

  /** The tail cut off group `j` fits right after it, refill or not. */
  lemma TailFits(list: seq<VirtPage>, j: int, lo: int, hi: int, node: int, list': seq<VirtPage>, region: int,
                 refilled: bool, at: int)
    requires Sorted(list) && 0 <= j < |list| && list[j].start < lo < hi < End(list[j])
    requires Supplied(Shortened(list, j, lo), list', region, refilled, at) && Sorted(list')
    requires refilled ==> NoOverlap(list, region, region + REFILL_BYTES)
    ensures var d := Shift(j, refilled, at); 0 <= d < |list'| && FitsAt(list', d + 1, Tail(list[j], hi, node))
  {
    var d, tail := Shift(j, refilled, at), Tail(list[j], hi, node);
    ShiftIndex(Shortened(list, j, lo), list', region, refilled, at, j);
    SortedParts(list', d, d + 1);
    forall i | d < i < |list'| ensures list'[i].start >= End(tail) {
      AfterTail(list, j, lo, list', region, refilled, at, i);
    }
    forall i | 0 <= i < d + 1 ensures End(list'[i]) <= tail.start {
      if i < d { assert End(list'[i]) <= list'[d].start; }
    }
  }

  /** With the tail linked back in, exactly [lo, hi) is gone. */
  lemma TailCutsOut(list: seq<VirtPage>, j: int, lo: int, hi: int, node: int, list': seq<VirtPage>, region: int,
                    refilled: bool, at: int)
    requires Sorted(list) && 0 <= j < |list| && list[j].start < lo < hi < End(list[j])
    requires Supplied(Shortened(list, j, lo), list', region, refilled, at) && Sorted(list')
    requires refilled ==> NoOverlap(list, region, region + REFILL_BYTES)
    ensures var d := Shift(j, refilled, at);
            0 <= d < |list'| && CutOut(list, Inserted(list', d + 1, Tail(list[j], hi, node)), lo, hi, region, refilled)
  {
    var d, tail := Shift(j, refilled, at), Tail(list[j], hi, node);
    TailFits(list, j, lo, hi, node, list', region, refilled, at);
    InsertSorted(list', d + 1, tail);
    var result := Inserted(list', d + 1, tail);
    forall a ensures At(result, a) == if lo <= a < hi then Unmapped else WithRefill(list, region, refilled, a) {
      InsertMap(list', d + 1, tail, a);
      TailMap(list, j, lo, hi, list', region, refilled, at, a);
    }
    assert CutOut(list, result, lo, hi, region, refilled);
  }

  lemma TailMap(list: seq<VirtPage>, j: int, lo: int, hi: int, list': seq<VirtPage>, region: int, refilled: bool,
                at: int, a: int)
    requires Sorted(list) && 0 <= j < |list| && list[j].start < lo < hi < End(list[j])
    requires Supplied(Shortened(list, j, lo), list', region, refilled, at)
    requires refilled ==> NoOverlap(list, region, region + REFILL_BYTES)
    ensures (if hi <= a < End(list[j]) then InfoOf(list[j]) else At(list', a))
         == if lo <= a < hi then Unmapped else WithRefill(list, region, refilled, a)
  {
    ShortenedList(list, j, lo, region);
    SuppliedMap(Shortened(list, j, lo), list', region, refilled, at);
    if Covers(list[j], a) { AtGroup(list, j, a); }
    assert refilled ==> !Overlap(list[j], region, region + REFILL_BYTES);
    assert At(Shortened(list, j, lo), a) == if lo <= a < End(list[j]) then Unmapped else At(list, a);
  }

  // ---------------------------------------------------------------- clearing a range group by group

  /** Every group that meets [lo, hi) belongs to `cid`; gaps are fine. */
  ghost predicate Clearable(list: seq<VirtPage>, lo: int, hi: int, cid: int) {
    forall i | 0 <= i < |list| :: Overlap(list[i], lo, hi) ==> list[i].cid == cid
  }

  /** Byte by byte: nothing in [lo, hi) belongs to anyone else. */
  ghost predicate NobodyElses(list: seq<VirtPage>, lo: int, hi: int, cid: int) {
    forall a {:trigger At(list, a)} | lo <= a < hi :: At(list, a) == Unmapped || At(list, a).cid == cid
  }

  lemma ClearableIsOwnership(list: seq<VirtPage>, lo: int, hi: int, cid: int)
    requires Sorted(list) && lo < hi
    ensures Clearable(list, lo, hi, cid) <==> NobodyElses(list, lo, hi, cid)
  {
    if Clearable(list, lo, hi, cid) {
      forall a | lo <= a < hi ensures At(list, a) == Unmapped || At(list, a).cid == cid {
        if At(list, a) != Unmapped {
          var i := AtSome(list, a);
          assert Overlap(list[i], lo, hi);
        }
      }
    } else {
      var i :| 0 <= i < |list| && Overlap(list[i], lo, hi) && list[i].cid != cid;
      AtGroup(list, i, if list[i].start < lo then lo else list[i].start);
    }
  }

  lemma RoomIsUnmapped(list: seq<VirtPage>, lo: int, hi: int)
    requires Sorted(list) && lo < hi
    ensures NoOverlap(list, lo, hi) <==> NothingIn(list, lo, hi)
  {
    if NoOverlap(list, lo, hi) {
      forall a | lo <= a < hi ensures At(list, a) == Unmapped {
        forall i | 0 <= i < |list| ensures !Covers(list[i], a) { assert !Overlap(list[i], lo, hi); }
        AtNone(list, a);
      }
    } else {
      var i :| 0 <= i < |list| && Overlap(list[i], lo, hi);
      AtGroup(list, i, if list[i].start < lo then lo else list[i].start);
    }
  }

  /** What belongs to others than `cid` is recorded as before. */
  ghost predicate OthersKept(list: seq<VirtPage>, list': seq<VirtPage>, cid: int) {
    forall a {:trigger At(list', a)} | At(list, a).Mapped? && At(list, a).cid != cid :: At(list', a) == At(list, a)
  }

  /** A change inside a range where nothing is anyone else's leaves the others alone, also if it refilled. */
  lemma ChangeKeepsOthers(list: seq<VirtPage>, list': seq<VirtPage>, lo: int, hi: int, region: int, refilled: bool,
                          cid: int)
    requires forall a | !(lo <= a < hi) :: At(list', a) == WithRefill(list, region, refilled, a)
    requires NobodyElses(list, lo, hi, cid) && (refilled ==> NoOverlap(list, region, region + REFILL_BYTES))
    ensures OthersKept(list, list', cid)
  {
    forall a | At(list, a).Mapped? && At(list, a).cid != cid ensures At(list', a) == At(list, a) {
      if refilled && Covers(OwnGroup(region), a) { FreshUnmapped(list, region, a); }
    }
  }

  lemma CutKeepsOthers(list: seq<VirtPage>, list': seq<VirtPage>, lo: int, hi: int, region: int, refilled: bool,
                       cid: int)
    requires CutOut(list, list', lo, hi, region, refilled) && NobodyElses(list, lo, hi, cid)
    requires refilled ==> NoOverlap(list, region, region + REFILL_BYTES)
    ensures OthersKept(list, list', cid)
  {
    ChangeKeepsOthers(list, list', lo, hi, region, refilled, cid);
  }

  ghost predicate SameOutside(list: seq<VirtPage>, list': seq<VirtPage>, lo: int, hi: int) {
    forall a {:trigger At(list', a)} | !(lo <= a < hi) :: At(list', a) == At(list, a)
  }

  /** Cutting part of the range out of one group leaves the rest of the map alone. */
  lemma CutInside(list: seq<VirtPage>, list': seq<VirtPage>, i: int, glo: int, ghi: int, node: int, lo: int, hi: int)
    requires Sorted(list') && SameOutside(list, list', lo, hi) && 0 <= i < |list'|
    requires list'[i].start <= glo < ghi <= End(list'[i]) && lo <= glo && ghi <= hi
    ensures Sorted(Trimmed(list', i, i, glo, ghi, node))
    ensures SameOutside(list, Trimmed(list', i, i, glo, ghi, node), lo, hi)
  {
    MeetsOne(list', i, glo, ghi);
    TrimSorted(list', i, i, glo, ghi, node);
    forall a | !(lo <= a < hi) ensures At(Trimmed(list', i, i, glo, ghi, node), a) == At(list, a) {
      TrimMap(list', i, i, glo, ghi, node, a);
    }
  }

  /** Once no group meets the range, exactly the range is gone. */
  lemma CutFinished(list: seq<VirtPage>, list': seq<VirtPage>, i: int, lo: int, hi: int, region: int)
    requires Sorted(list') && SameOutside(list, list', lo, hi) && 0 <= i <= |list'| && lo < hi
    requires Below(list'[..i], lo) && (i < |list'| ==> list'[i].start >= hi)
    ensures CutOut(list, list', lo, hi, region, false)
  {
    forall a ensures At(list', a) == if lo <= a < hi then Unmapped else At(list, a) {
      if lo <= a < hi {
        forall d | 0 <= d < |list'| ensures !Covers(list'[d], a) {
          if d < i { assert list'[..i][d] == list'[d]; } else if d > i { assert End(list'[i]) <= list'[d].start; }
        }
        AtNone(list', a);
      }
    }
  }

  /** A hole cut into the one group that is left finishes the job. */
  lemma CutThrough(list: seq<VirtPage>, mid: seq<VirtPage>, list': seq<VirtPage>, lo: int, hi: int, region: int,
                   refilled: bool)
    requires SameOutside(list, mid, lo, hi) && CutOut(mid, list', lo, hi, region, refilled)
    ensures CutOut(list, list', lo, hi, region, refilled)
  {
    forall a ensures At(list', a) == if lo <= a < hi then Unmapped else WithRefill(list, region, refilled, a) {
      assert At(mid, a) == At(mid, a);
    }
  }

  /** Up to group `i` nothing meets the range any more; from there on the list is still the old one, from `m`. */
  ghost predicate Clearing(list: seq<VirtPage>, list': seq<VirtPage>, i: int, m: int, lo: int, hi: int, cid: int) {
    && Sorted(list') && SameOutside(list, list', lo, hi)
    && 0 <= i <= |list'| && 0 <= m <= |list| && list'[i..] == list[m..] && Below(list'[..i], lo)
    && forall t | 0 <= t < m :: Overlap(list[t], lo, hi) ==> list[t].cid == cid
  }

  lemma ClearingHead(list: seq<VirtPage>, list': seq<VirtPage>, i: int, m: int, lo: int, hi: int, cid: int)
    requires Clearing(list, list', i, m, lo, hi, cid) && i < |list'|
    ensures m < |list| && list'[i] == list[m] && list'[i + 1..] == list[m + 1..]
  {
    assert list'[i..][0] == list[m..][0] && list'[i..][1..] == list[m..][1..];
  }

  lemma ClearingSkip(list: seq<VirtPage>, list': seq<VirtPage>, i: int, m: int, lo: int, hi: int, cid: int)
    requires Clearing(list, list', i, m, lo, hi, cid) && i < |list'| && End(list'[i]) <= lo
    ensures Clearing(list, list', i + 1, m + 1, lo, hi, cid)
  {
    ClearingHead(list, list', i, m, lo, hi, cid);
  }

  /** Removing what lies in the range from a group that does not reach past it. */
  lemma ClearingCut(list: seq<VirtPage>, list': seq<VirtPage>, i: int, m: int, lo: int, hi: int, cid: int)
    requires Clearing(list, list', i, m, lo, hi, cid) && i < |list'| && list'[i].cid == cid
    requires Overlap(list'[i], lo, hi) && End(list'[i]) <= hi
    ensures var g := list'[i];
            g.start < lo ==> Clearing(list, list'[i := g.(size := lo - g.start)], i + 1, m + 1, lo, hi, cid)
    ensures list'[i].start >= lo ==> Clearing(list, list'[..i] + list'[i + 1..], i, m + 1, lo, hi, cid)
  {
    var g := list'[i];
    ClearingHead(list, list', i, m, lo, hi, cid);
    var glo := if g.start < lo then lo else g.start;
    CutInside(list, list', i, glo, End(g), 0, lo, hi);
    if g.start < lo {
      var next := list'[i := g.(size := lo - g.start)];
      assert next == Trimmed(list', i, i, glo, End(g), 0);
      assert next[i + 1..] == list'[i + 1..];
    } else {
      var next := list'[..i] + list'[i + 1..];
      assert next == Trimmed(list', i, i, glo, End(g), 0);
      assert next[i..] == list'[i + 1..] && next[..i] == list'[..i];
    }
  }

  /** The last group that meets the range reaches past it, or none meets it: every group that did is `cid`'s. */
  lemma ClearingEnds(list: seq<VirtPage>, list': seq<VirtPage>, i: int, m: int, lo: int, hi: int, cid: int)
    requires Sorted(list) && Clearing(list, list', i, m, lo, hi, cid) && lo < hi
    requires i < |list'| ==> list'[i].start >= hi || (list'[i].cid == cid && End(list'[i]) >= hi)
    ensures Clearable(list, lo, hi, cid)
  {
    if i < |list'| {
      ClearingHead(list, list', i, m, lo, hi, cid);
      forall t | m < t < |list| ensures list[t].start >= hi { assert End(list[m]) <= list[t].start; }
    } else {
      assert list[m..] == [];
    }
  }

  // ---------------------------------------------------------------- adding a group

  /** `list'` is sorted and says what `list` and the refill say, overridden with `info` on exactly [lo, hi). */
  ghost predicate Overridden(list: seq<VirtPage>, list': seq<VirtPage>, lo: int, hi: int, info: Info, region: int,
                             refilled: bool) {
    && Sorted(list')
    && forall a :: At(list', a) == if lo <= a < hi then info else WithRefill(list, region, refilled, a)
  }

  lemma CutLeavesRoom(list: seq<VirtPage>, list': seq<VirtPage>, lo: int, hi: int, region: int, refilled: bool)
    requires CutOut(list, list', lo, hi, region, refilled) && lo < hi
    ensures NoOverlap(list', lo, hi)
  {
    forall i | 0 <= i < |list'| ensures !Overlap(list'[i], lo, hi) {
      var a := if list'[i].start < lo then lo else list'[i].start;
      if Covers(list'[i], a) { AtGroup(list', i, a); }
    }
  }

  /** `list'` is `list` with one group for [lo, hi) linked in at its place. */
  ghost predicate LinkedIn(list: seq<VirtPage>, list': seq<VirtPage>, lo: int, hi: int, info: Info) {
    exists i, g ::
      FitsAt(list, i, g) && list' == Inserted(list, i, g) && g.start == lo && End(g) == hi && InfoOf(g) == info
  }

  lemma InsertOverrides(list: seq<VirtPage>, at: int, p: VirtPage)
    requires Sorted(list) && FitsAt(list, at, p)
    ensures Overridden(list, Inserted(list, at, p), p.start, p.start + p.size, InfoOf(p), 0, false)
  {
    InsertSorted(list, at, p);
    forall a ensures At(Inserted(list, at, p), a) == if Covers(p, a) then InfoOf(p) else At(list, a) {
      InsertMap(list, at, p, a);
    }
  }

  lemma LinkOverrides(list: seq<VirtPage>, mid: seq<VirtPage>, list': seq<VirtPage>, lo: int, hi: int, info: Info,
                      region: int, refilled: bool)
    requires (mid == list && !refilled) || CutOut(list, mid, lo, hi, region, refilled)
    requires Overridden(mid, list', lo, hi, info, 0, false)
    ensures Overridden(list, list', lo, hi, info, region, refilled)
  {
    forall a ensures At(list', a) == if lo <= a < hi then info else WithRefill(list, region, refilled, a) {
      assert At(mid, a) == At(mid, a);
    }
  }

  /** A refill that came before the operation. */
  lemma RefillFirst(list: seq<VirtPage>, mid: seq<VirtPage>, list': seq<VirtPage>, lo: int, hi: int, info: Info,
                    region: int, first: bool, at: int, second: bool)
    requires Supplied(list, mid, region, first, at) && Overridden(mid, list', lo, hi, info, region, second)
    requires !(first && second)
    ensures Overridden(list, list', lo, hi, info, region, first || second)
  {
    SuppliedMap(list, mid, region, first, at);
    forall a ensures At(list', a) == if lo <= a < hi then info else WithRefill(list, region, first || second, a) {
      assert At(mid, a) == WithRefill(list, region, first, a);
    }
  }

  /** The refill's own group does not decide whether a range elsewhere is free or clearable. */
  lemma RefillElsewhere(list: seq<VirtPage>, mid: seq<VirtPage>, region: int, refilled: bool, at: int, lo: int,
                        hi: int, cid: int)
    requires Supplied(list, mid, region, refilled, at) && (refilled ==> hi <= region || region + REFILL_BYTES <= lo)
    ensures NoOverlap(mid, lo, hi) <==> NoOverlap(list, lo, hi)
    ensures Clearable(mid, lo, hi, cid) <==> Clearable(list, lo, hi, cid)
  {
    forall i | 0 <= i < |list| ensures var d := Shift(i, refilled, at); 0 <= d < |mid| && mid[d] == list[i] {
      ShiftIndex(list, mid, region, refilled, at, i);
    }
    forall i | 0 <= i < |mid|
      ensures !Overlap(mid[i], lo, hi) || exists t :: 0 <= t < |list| && list[t] == mid[i]
    {
      SuppliedIndex(list, mid, region, refilled, at, i);
    }
  }

  /** How inserting [lo, hi) ends. */
  ghost function InsertOutcome(list: seq<VirtPage>, lo: int, hi: int): Outcome {
    if NoOverlap(list, lo, hi) then Ok else if InsertTraps(list, lo, hi, false) then Trap else Refused
  }

  /** How clearing [lo, hi) for a fixed mapping ends.  With several threads it must be a removable range. */
  ghost function ReplaceOutcome(list: seq<VirtPage>, lo: int, hi: int, cid: int, multithreaded: bool): Outcome {
    if multithreaded then
      if Removable(list, lo, hi, cid) then Ok else if RemovalTraps(list, lo, hi, cid) then Trap else Refused
    else if Clearable(list, lo, hi, cid) then Ok else Trap
  }

  /** How recording [lo, hi) ends. */
  ghost function AddOutcome(list: seq<VirtPage>, lo: int, hi: int, cid: int, mapFixed: bool,
                            multithreaded: bool): Outcome {
    if lo % PAGE != 0 then Trap
    else if mapFixed then ReplaceOutcome(list, lo, hi, cid, multithreaded) else InsertOutcome(list, lo, hi)
  }

  lemma RemovalNeedsTwo(list: seq<VirtPage>, lo: int, hi: int, cid: int)
    ensures RemovalTraps(list, lo, hi, cid) || Removable(list, lo, hi, cid) ==> |list| >= 2
  {
    if i :| StartsInGap(list, i, lo) { assert |list| >= 2; }
    if i :| StartsIn(list, i, lo) { assert |list| >= 2; }
  }

  // ---------------------------------------------------------------- changing a protection

  /** The range lies in the group that covers its first byte. */
  ghost predicate InOneGroup(list: seq<VirtPage>, lo: int, hi: int) {
    exists i :: 0 <= i < |list| && Covers(list[i], lo) && hi <= End(list[i])
  }

  ghost predicate OwnedAt(list: seq<VirtPage>, a: int, cid: int) { At(list, a).Mapped? && At(list, a).cid == cid }

  /** How removing a range ends. */
  ghost function RemoveOutcome(list: seq<VirtPage>, start: int, size: nat, cid: int): Outcome {
    var end := start + RoundUp(size);
    if |list| < 2 then Refused
    else if start % PAGE != 0 then Trap
    else if size == 0 then Refused
    else if Removable(list, start, end, cid) then Ok
    else if RemovalTraps(list, start, end, cid) then Trap else Refused
  }

  /** How changing the protection of a range ends. */
  ghost function ProtectOutcome(list: seq<VirtPage>, start: int, size: nat, cid: int): Outcome {
    if !OwnedAt(list, start, cid) || size == 0 then Refused
    else if InOneGroup(list, start, start + size) then Ok
    else RemoveOutcome(list, start, size, cid)
  }

  lemma RemoveExactly(list: seq<VirtPage>, start: int, size: nat, cid: int)
    ensures RemoveOutcome(list, start, size, cid) == Ok
       <==> start % PAGE == 0 && size > 0 && Removable(list, start, start + RoundUp(size), cid)
  {
    RemovalNeedsTwo(list, start, start + RoundUp(size), cid);
  }

  /** A mapped start lies in no gap. */
  lemma MappedIsNoGap(list: seq<VirtPage>, lo: int, hi: int, cid: int)
    requires Sorted(list) && At(list, lo).Mapped?
    ensures !RemovalTraps(list, lo, hi, cid)
  {
    var t := AtSome(list, lo);
    forall i | 0 <= i < |list| ensures i < t ==> End(list[i]) <= lo
      ensures t < i ==> lo < list[i].start
    {
    }
  }

  /** A range in one group belongs to the owner of its first byte. */
  lemma OneGroupOwned(list: seq<VirtPage>, lo: int, hi: int, cid: int)
    requires Sorted(list) && InOneGroup(list, lo, hi) && OwnedAt(list, lo, cid)
    ensures OwnedBy(list, lo, hi, cid)
  {
    var i :| 0 <= i < |list| && Covers(list[i], lo) && hi <= End(list[i]);
    AtGroup(list, i, lo);
    forall a | lo <= a < hi ensures At(list, a).Mapped? && At(list, a).cid == cid { AtGroup(list, i, a); }
  }

  /** The range is the owner's, and lies in one group or can be removed as whole pages. */
  ghost predicate Protectable(list: seq<VirtPage>, lo: int, size: nat, cid: int) {
    && size > 0 && OwnedBy(list, lo, lo + size, cid)
    && (InOneGroup(list, lo, lo + size) || (lo % PAGE == 0 && Removable(list, lo, lo + RoundUp(size), cid)))
  }

  /** Changing a protection succeeds on exactly those ranges, and traps exactly on an unaligned start if the range
      leaves the group it starts in. */
  lemma ProtectExactly(list: seq<VirtPage>, lo: int, size: nat, cid: int)
    requires Sorted(list)
    ensures ProtectOutcome(list, lo, size, cid) == Ok <==> Protectable(list, lo, size, cid)
    ensures ProtectOutcome(list, lo, size, cid) == Trap
       <==> && size > 0 && OwnedAt(list, lo, cid) && !InOneGroup(list, lo, lo + size)
            && |list| >= 2 && lo % PAGE != 0
  {
    if OwnedAt(list, lo, cid) {
      MappedIsNoGap(list, lo, lo + RoundUp(size), cid);
      if InOneGroup(list, lo, lo + size) { OneGroupOwned(list, lo, lo + size, cid); }
    }
    RemovalNeedsTwo(list, lo, lo + RoundUp(size), cid);
    assert OwnedBy(list, lo, lo + size, cid) && size > 0 ==> OwnedAt(list, lo, cid);
  }

  ghost predicate Disjoint(list: seq<VirtPage>) {
    && (forall i | 0 <= i < |list| :: list[i].size > 0)
    && (forall i, j | 0 <= i < j < |list| :: !Overlap(list[i], list[j].start, End(list[j])))
  }

  lemma RecolourOverrides(list: seq<VirtPage>, j: int, lo: int, hi: int, piece: VirtPage, node: int)
    requires Sorted(list) && 0 <= j < |list| && list[j].start <= lo < hi <= End(list[j]) && piece.start == lo
    requires End(piece) == hi
    ensures Overridden(list, Recoloured(list, j, lo, hi, piece, node), lo, hi, InfoOf(piece), 0, false)
  {
    RecolourSorted(list, j, lo, hi, piece, node);
    forall a
      ensures At(Recoloured(list, j, lo, hi, piece, node), a) == if lo <= a < hi then InfoOf(piece) else At(list, a)
    {
      RecolourMap(list, j, lo, hi, piece, node, a);
    }
  }

  lemma RecolourNodes(list: seq<VirtPage>, j: int, lo: int, hi: int, piece: VirtPage, node: int)
    requires 0 <= j < |list|
    ensures Nodes(Recoloured(list, j, lo, hi, piece, node)) + multiset{list[j].node}
         == Nodes(list) + (Nodes(Front(list[j], lo)) + multiset{piece.node} + Nodes(Back(list[j], hi, node)))
  {
    var g := list[j];
    NodesSplice(list[..j], Pieces(g, lo, hi, piece, node), list[j + 1..]);
    NodesSplice(Front(g, lo), [piece], Back(g, hi, node));
    NodesSplice(list[..j], [g], list[j + 1..]);
    assert list == list[..j] + [g] + list[j + 1..];
    NodesOne(g);
    NodesOne(piece);
  }

  /** Where every node is on one of the two lists, their lengths count the nodes. */
  lemma NodesCount(list: seq<VirtPage>, spare: seq<int>, nodes: set<int>)
    requires Nodes(list) + multiset(spare) == multiset(nodes)
    ensures |list| + |spare| == |nodes|
  {
    assert |Nodes(list) + multiset(spare)| == |multiset(nodes)|;
  }

  /** If the same nodes were on a longer list before, one is spare now. */
  lemma NodeIsSpare(list: seq<VirtPage>, spare: seq<int>, list': seq<VirtPage>, spare': seq<int>, nodes: set<int>)
    requires Nodes(list) + multiset(spare) == multiset(nodes) == Nodes(list') + multiset(spare')
    ensures |list'| < |list| ==> spare' != []
  {
    NodesCount(list, spare, nodes);
    NodesCount(list', spare', nodes);
  }

  /** Trading one node for itself and the ones taken. */
  lemma Exchange(after: multiset<int>, before: multiset<int>, one: multiset<int>, taken: multiset<int>,
                 spare: multiset<int>, all: multiset<int>)
    requires after + one == before + (one + taken) && before + spare + taken == all
    ensures after + spare == all
  {
    forall n ensures (after + spare)[n] == all[n] {
      assert (after + one)[n] == (before + (one + taken))[n] && (before + spare + taken)[n] == all[n];
    }
  }

  /** The map after a protection change over several groups: `info` on [lo, hi), nothing on [hi, end). */
  ghost predicate Protected(list: seq<VirtPage>, list': seq<VirtPage>, lo: int, hi: int, end: int, info: Info,
                            region: int, refilled: bool) {
    forall a :: At(list', a) ==
      if lo <= a < hi then info else if hi <= a < end then Unmapped else WithRefill(list, region, refilled, a)
  }

  /** Linking a group in anywhere overrides the map on its bytes if nothing else covers them. */
  lemma InsertAnywhere(list: seq<VirtPage>, i: int, g: VirtPage, a: int)
    requires 0 <= i <= |list| && NoOverlap(list, g.start, End(g)) && g.size > 0
    ensures At(Inserted(list, i, g), a) == if Covers(g, a) then InfoOf(g) else At(list, a)
  {
    AtConcat(list[..i] + [g], list[i..], a);
    AtConcat(list[..i], [g], a);
    AtConcat(list[..i], list[i..], a);
    assert list[..i] + list[i..] == list;
    if Covers(g, a) { AtNone(list, a); }
  }

  lemma InsertDisjoint(list: seq<VirtPage>, i: int, g: VirtPage)
    requires Sorted(list) && 0 <= i <= |list| && NoOverlap(list, g.start, End(g)) && g.size > 0
    ensures Disjoint(Inserted(list, i, g))
    ensures Sorted(Inserted(list, i, g)) <==> FitsAt(list, i, g)
  {
    var r := Inserted(list, i, g);
    forall d | 0 <= d < |r| ensures r[d] == if d < i then list[d] else if d == i then g else list[d - 1] {}
    if Sorted(r) { SortedFits(list, i, g); }
    if FitsAt(list, i, g) { InsertSorted(list, i, g); }
  }

  lemma SortedFits(list: seq<VirtPage>, i: int, g: VirtPage)
    requires 0 <= i <= |list| && Sorted(Inserted(list, i, g))
    ensures FitsAt(list, i, g)
  {
    var r := Inserted(list, i, g);
    forall d | 0 <= d < i ensures End(list[d]) <= g.start { assert r[d] == list[d] && End(r[d]) <= r[i].start; }
    forall d | i <= d < |list| ensures End(g) <= list[d].start {
      assert r[d + 1] == list[d] && End(r[i]) <= r[d + 1].start;
    }
  }

  ghost predicate NothingIn(list: seq<VirtPage>, lo: int, hi: int) {
    forall a {:trigger At(list, a)} | lo <= a < hi :: At(list, a) == Unmapped
  }

  lemma InOrderMeansNothing(list: seq<VirtPage>, d: int, g: VirtPage)
    requires Sorted(list) && 0 <= d < |list| && FitsAt(list, d + 1, g)
    ensures NothingIn(list, End(list[d]), g.start)
  {
    forall t | d < t < |list| ensures End(g) <= list[t].start { assert list[d + 1..][t - d - 1] == list[t]; }
    forall a | End(list[d]) <= a < g.start ensures At(list, a) == Unmapped {
      forall t | 0 <= t < |list| ensures !Covers(list[t], a) {
        if t < d { assert End(list[t]) <= list[d].start; }
      }
      AtNone(list, a);
    }
  }

  lemma NothingMeansInOrder(list: seq<VirtPage>, d: int, g: VirtPage)
    requires Sorted(list) && 0 <= d < |list| && NoOverlap(list, g.start, End(g)) && g.size > 0
    requires End(list[d]) <= g.start
    requires NothingIn(list, End(list[d]), g.start)
    ensures FitsAt(list, d + 1, g)
  {
    forall t | 0 <= t <= d ensures End(list[t]) <= g.start { if t < d { assert End(list[t]) <= list[d].start; } }
    forall t | d < t < |list| ensures End(g) <= list[t].start {
      assert End(list[d]) <= list[t].start;
      AtGroup(list, t, list[t].start);
      assert !Overlap(list[t], g.start, End(g));
    }
    assert forall t | 0 <= t < d + 1 :: list[..d + 1][t] == list[t];
    var rest := list[d + 1..];
    forall t | 0 <= t < |rest| ensures rest[t].start >= End(g) { assert rest[t] == list[d + 1 + t]; }
  }

  lemma RefillLeavesRoom(list: seq<VirtPage>, mid: seq<VirtPage>, region: int, refilled: bool, at: int, lo: int,
                         hi: int)
    requires Supplied(list, mid, region, refilled, at) && NoOverlap(list, lo, hi)
    requires refilled ==> hi <= region || region + REFILL_BYTES <= lo
    ensures NoOverlap(mid, lo, hi)
  {
    forall i | 0 <= i < |mid| ensures !Overlap(mid[i], lo, hi) { SuppliedIndex(list, mid, region, refilled, at, i); }
  }

  /** Linking `p` in right after the head of `list` overrides the map on its bytes. */
  lemma HeadLinkMap(list: seq<VirtPage>, mid: seq<VirtPage>, p: VirtPage, region: int, refilled: bool, at: int)
    requires list != [] && Supplied(list, mid, region, refilled, at) && NoOverlap(list, p.start, End(p)) && p.size > 0
    requires refilled ==> End(p) <= region || region + REFILL_BYTES <= p.start
    ensures var d := Shift(0, refilled, at);
            && 0 <= d < |mid|
            && Protected(list, Inserted(mid, d + 1, p), p.start, End(p), End(p), InfoOf(p), region, refilled)
  {
    var d := Shift(0, refilled, at);
    ShiftIndex(list, mid, region, refilled, at, 0);
    RefillLeavesRoom(list, mid, region, refilled, at, p.start, End(p));
    SuppliedMap(list, mid, region, refilled, at);
    var r := Inserted(mid, d + 1, p);
    forall a ensures At(r, a) == if Covers(p, a) then InfoOf(p) else WithRefill(list, region, refilled, a) {
      InsertAnywhere(mid, d + 1, p, a);
    }
    assert Protected(list, r, p.start, End(p), End(p), InfoOf(p), region, refilled);
  }

  /** The result is disjoint, and in order exactly when nothing is mapped between the head and `p`. */
  lemma HeadLinkOrder(list: seq<VirtPage>, mid: seq<VirtPage>, p: VirtPage, region: int, refilled: bool, at: int)
    requires list != [] && Sorted(mid) && Supplied(list, mid, region, refilled, at)
    requires NoOverlap(list, p.start, End(p)) && p.size > 0
    requires End(list[0]) <= p.start && (refilled ==> End(p) <= region || region + REFILL_BYTES <= p.start)
    ensures var d := Shift(0, refilled, at);
            && 0 <= d < |mid| && Disjoint(Inserted(mid, d + 1, p))
            && (Sorted(Inserted(mid, d + 1, p)) <==> forall a | End(list[0]) <= a < p.start ::
                WithRefill(list, region, refilled, a) == Unmapped)
  {
    var d := Shift(0, refilled, at);
    ShiftIndex(list, mid, region, refilled, at, 0);
    RefillLeavesRoom(list, mid, region, refilled, at, p.start, End(p));
    InsertDisjoint(mid, d + 1, p);
    SuppliedMap(list, mid, region, refilled, at);
    assert NothingIn(mid, End(list[0]), p.start) <==> forall a | End(list[0]) <= a < p.start ::
        WithRefill(list, region, refilled, a) == Unmapped;
    if NothingIn(mid, End(list[0]), p.start) { NothingMeansInOrder(mid, d, p); }
    if FitsAt(mid, d + 1, p) { InOrderMeansNothing(mid, d, p); }
  }

  lemma FreshUnmapped(list: seq<VirtPage>, region: int, a: int)
    requires NoOverlap(list, region, region + REFILL_BYTES) && region <= a < region + REFILL_BYTES
    ensures At(list, a) == Unmapped
  {
    AtNone(list, a);
  }

  /** A fresh region meets no range that is mapped throughout. */
  lemma OwnedApart(list: seq<VirtPage>, lo: int, hi: int, cid: int, region: int)
    requires OwnedBy(list, lo, hi, cid) && NoOverlap(list, region, region + REFILL_BYTES) && lo < hi
    ensures hi <= region || region + REFILL_BYTES <= lo
  {
    var a := if lo < region then region else lo;
    if region <= a < region + REFILL_BYTES { FreshUnmapped(list, region, a); }
  }

  /** Cutting a range out leaves a fresh region fresh. */
  lemma CutKeepsFresh(list: seq<VirtPage>, list': seq<VirtPage>, lo: int, hi: int, region: int)
    requires CutOut(list, list', lo, hi, region, false) && NoOverlap(list, region, region + REFILL_BYTES)
    ensures NoOverlap(list', region, region + REFILL_BYTES)
  {
    forall i | 0 <= i < |list'| ensures !Overlap(list'[i], region, region + REFILL_BYTES) {
      var a := if list'[i].start < region then region else list'[i].start;
      if Covers(list'[i], a) { AtGroup(list', i, a); }
      if region <= a < region + REFILL_BYTES { FreshUnmapped(list, region, a); }
    }
  }

  lemma OneGroupIs(list: seq<VirtPage>, i: int, lo: int, hi: int)
    requires Sorted(list) && 0 <= i < |list| && Covers(list[i], lo)
    ensures InOneGroup(list, lo, hi) <==> hi <= End(list[i])
  {
    forall t | 0 <= t < |list| && Covers(list[t], lo) ensures t == i {}
  }

  /** Cutting out the rounded range and linking the exact one back in. */
  lemma CutThenProtect(list: seq<VirtPage>, mid: seq<VirtPage>, list': seq<VirtPage>, lo: int, hi: int, end: int,
                       info: Info, region: int, refilled: bool)
    requires lo < hi <= end && CutOut(list, mid, lo, end, region, false)
    requires Protected(mid, list', lo, hi, hi, info, region, refilled)
    requires refilled ==> end <= region || region + REFILL_BYTES <= lo
    ensures Protected(list, list', lo, hi, end, info, region, refilled)
    ensures forall a | a < lo :: WithRefill(mid, region, refilled, a) == WithRefill(list, region, refilled, a)
  {
    forall a ensures At(mid, a) == if lo <= a < end then Unmapped else At(list, a) {}
  }

  // ---------------------------------------------------------------- resizing a group

  datatype Resize = Resized | NotOwned | Blocked

  /** How resizing ends: growing is blocked exactly when some byte of the new tail is mapped. */
  ghost function ResizeOutcome(list: seq<VirtPage>, start: int, oldSize: nat, newSize: nat, cid: int): Resize {
    if !OwnedAt(list, start, cid) then NotOwned
    else if oldSize == newSize then Resized
    else if !InOneGroup(list, start, start + oldSize) then NotOwned
    else if oldSize < newSize && !NothingIn(list, start + oldSize, start + newSize) then Blocked
    else Resized
  }

  lemma GroupIsNobodyElses(list: seq<VirtPage>, i: int, lo: int, hi: int)
    requires Sorted(list) && 0 <= i < |list| && list[i].start <= lo <= hi <= End(list[i])
    ensures NobodyElses(list, lo, hi, list[i].cid)
  {
    forall a | lo <= a < hi ensures At(list, a) == InfoOf(list[i]) { AtGroup(list, i, a); }
  }

  /** The tail after group `i` is free exactly when the range ends the group and the next group starts late enough. */
  lemma TailIsFree(list: seq<VirtPage>, i: int, lo: int, hi: int)
    requires Sorted(list) && 0 <= i < |list| && list[i].start <= lo <= End(list[i]) && lo < hi
    ensures NothingIn(list, lo, hi) <==> End(list[i]) == lo && (i + 1 < |list| ==> hi <= list[i + 1].start)
  {
    if NothingIn(list, lo, hi) {
      if lo < End(list[i]) { AtGroup(list, i, lo); }
      if i + 1 < |list| && list[i + 1].start < hi { AtGroup(list, i + 1, list[i + 1].start); }
    }
    if End(list[i]) == lo && (i + 1 < |list| ==> hi <= list[i + 1].start) {
      forall a | lo <= a < hi ensures At(list, a) == Unmapped {
        forall t | 0 <= t < |list| ensures !Covers(list[t], a) {
          if t > i + 1 { assert End(list[i + 1]) <= list[t].start; }
        }
        AtNone(list, a);
      }
    }
  }

  /** Group `i` belongs to `cid` and holds [lo, hi). */
  ghost predicate Holds(list: seq<VirtPage>, i: int, lo: int, hi: int, cid: int) {
    0 <= i < |list| && list[i].cid == cid && list[i].start <= lo < End(list[i]) && hi <= End(list[i])
  }

  /** Group `i` belongs to `cid`, ends with [lo, mid), and nothing starts before `hi` after it. */
  ghost predicate CanGrow(list: seq<VirtPage>, i: int, lo: int, mid: int, hi: int, cid: int) {
    Holds(list, i, lo, mid, cid) && End(list[i]) == mid && (i + 1 < |list| ==> hi <= list[i + 1].start)
  }

  ghost predicate SomeHolds(list: seq<VirtPage>, lo: int, hi: int, cid: int) { exists i :: Holds(list, i, lo, hi, cid) }

  ghost predicate SomeCanGrow(list: seq<VirtPage>, lo: int, mid: int, hi: int, cid: int) {
    exists i :: CanGrow(list, i, lo, mid, hi, cid)
  }

  /** Resizing, told from the groups: an owner can keep or shrink what one group holds, and let it grow exactly from
      the end of its group up to the next one. */
  lemma ResizeExactly(list: seq<VirtPage>, lo: int, oldSize: nat, newSize: nat, cid: int)
    requires Sorted(list) && oldSize > 0 && newSize > 0
    ensures ResizeOutcome(list, lo, oldSize, newSize, cid) == Resized
       <==> if newSize == oldSize then SomeHolds(list, lo, lo, cid)
            else if newSize < oldSize then SomeHolds(list, lo, lo + oldSize, cid)
            else SomeCanGrow(list, lo, lo + oldSize, lo + newSize, cid)
    ensures ResizeOutcome(list, lo, oldSize, newSize, cid) == Blocked
       <==> && newSize > oldSize && SomeHolds(list, lo, lo + oldSize, cid)
            && !SomeCanGrow(list, lo, lo + oldSize, lo + newSize, cid)
  {
    if OwnedAt(list, lo, cid) {
      var t := AtSome(list, lo);
      AtGroup(list, t, lo);
      assert Holds(list, t, lo, lo, cid);
      OneGroupIs(list, t, lo, lo + oldSize);
      forall i | 0 <= i < |list| && Covers(list[i], lo) ensures i == t {}
      if lo + oldSize <= End(list[t]) {
        assert Holds(list, t, lo, lo + oldSize, cid);
        if oldSize < newSize {
          TailIsFree(list, t, lo + oldSize, lo + newSize);
          assert NothingIn(list, lo + oldSize, lo + newSize) <==> CanGrow(list, t, lo, lo + oldSize, lo + newSize, cid);
        }
      }
    } else {
      forall i | 0 <= i < |list| && Covers(list[i], lo) ensures list[i].cid != cid { AtGroup(list, i, lo); }
    }
  }

  lemma GrowParts(list: seq<VirtPage>, i: int, hi: int)
    requires Sorted(list) && 0 <= i < |list| && End(list[i]) < hi && (i + 1 < |list| ==> hi <= list[i + 1].start)
    ensures Sorted(list[..i]) && Sorted(list[i + 1..]) && Below(list[..i], list[i].start) && Above(list[i + 1..], hi)
  {
    SortedParts(list, i, i + 1);
    var post := list[i + 1..];
    forall t | 0 <= t < |post| ensures post[t].start >= hi {
      assert post[t] == list[i + 1 + t];
      if t > 0 { assert End(list[i + 1]) <= list[i + 1 + t].start; }
    }
  }

  lemma GrowOverrides(list: seq<VirtPage>, i: int, hi: int)
    requires Sorted(list) && 0 <= i < |list| && End(list[i]) < hi && (i + 1 < |list| ==> hi <= list[i + 1].start)
    ensures var list' := list[i := list[i].(size := hi - list[i].start)];
            Overridden(list, list', End(list[i]), hi, InfoOf(list[i]), 0, false)
  {
    var g, pre, post := list[i], list[..i], list[i + 1..];
    var g' := g.(size := hi - g.start);
    GrowParts(list, i, hi);
    assert list == pre + [g] + post;
    var r := pre + [g'] + post;
    assert list[i := g'] == r;
    SpliceSorted(pre, [g'], post, g.start, hi);
    forall a ensures At(r, a) == if End(g) <= a < hi then InfoOf(g) else At(list, a) {
      SpliceMap(pre, [g], post, g.start, hi, a);
      SpliceMap(pre, [g'], post, g.start, hi, a);
      AtOne(g, a);
      AtOne(g', a);
    }
  }

  lemma AtOne(g: VirtPage, a: int)
    ensures At([g], a) == if Covers(g, a) then InfoOf(g) else Unmapped
  {
  }

  lemma CutAfterRefill(list: seq<VirtPage>, mid: seq<VirtPage>, list': seq<VirtPage>, lo: int, hi: int, region: int,
                       refilled: bool, at: int)
    requires Supplied(list, mid, region, refilled, at) && CutOut(mid, list', lo, hi, region, false)
    ensures CutOut(list, list', lo, hi, region, refilled)
  {
    SuppliedMap(list, mid, region, refilled, at);
    forall a ensures At(list', a) == if lo <= a < hi then Unmapped else WithRefill(list, region, refilled, a) {
      assert At(mid, a) == WithRefill(list, region, refilled, a);
    }
  }

  /** Links the first `k` nodes of a refill one after the other. */
  method LinkChain(region: int, k: nat) returns (chain: seq<int>)
    ensures chain == Chain(region, k)
  {
    chain := [];
    for i := 0 to k
      invariant chain == Chain(region, i)
    {
      chain := chain + [region + NODE_SIZE * i];
    }
  }
}
