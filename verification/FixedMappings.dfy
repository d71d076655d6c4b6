/** Fixed mapping requests: the ownership check is made over the size asked for, the record over whole pages.

  The check is enough for the record as long as a page belongs to whoever owns its first byte.  Every
  operation of the page manager keeps that, also the one that works on bytes, a change of protection. */
module FixedMappings {
  import opened PageMap
  import opened PageSpans
  import opened PageEdits

  // ---------------------------------------------------------------- pages and their first bytes

  function PageStart(a: int): int { a / PAGE * PAGE }

  /** If `a` is mapped, so is the first byte of its page, with the same owner. */
  ghost predicate RootedAt(list: seq<VirtPage>, a: int) {
    At(list, a).Mapped? ==> At(list, PageStart(a)).Mapped? && At(list, PageStart(a)).cid == At(list, a).cid
  }

  ghost predicate Rooted(list: seq<VirtPage>) {
    forall a {:trigger RootedAt(list, a)} :: RootedAt(list, a)
  }

  /** An operation that leads from `list` to `list'`, with the kernel's pages at `region`, keeps pages rooted. */
  ghost predicate KeepsRoots(list: seq<VirtPage>, list': seq<VirtPage>, region: int) {
    Rooted(list) && region % PAGE == 0 ==> Rooted(list')
  }

  lemma PageStartIs(a: int)
    ensures PageStart(a) <= a < PageStart(a) + PAGE && PageStart(a) % PAGE == 0 && PageStart(a) / PAGE == a / PAGE
  {
  }

  lemma SamePage(a: int, b: int, m: int)
    requires a / PAGE == b / PAGE && m % PAGE == 0
    ensures m <= a <==> m <= b
  {
  }

  /** Recording [lo, hi) and dropping the rest of the whole pages [lo, end) keeps pages rooted. */
  lemma WholePagesKeepRoots(list: seq<VirtPage>, list': seq<VirtPage>, lo: int, hi: int, end: int, info: Info,
                            region: int, refilled: bool)
    requires lo % PAGE == 0 && end % PAGE == 0 && Protected(list, list', lo, hi, end, info, region, refilled)
    requires hi <= end
    ensures KeepsRoots(list, list', region)
  {
    if Rooted(list) && region % PAGE == 0 {
      forall a ensures RootedAt(list', a) {
        var q := PageStart(a);
        PageStartIs(a);
        SamePage(a, q, lo);
        SamePage(a, q, end);
        SamePage(a, q, region);
        SamePage(a, q, region + REFILL_BYTES);
        assert RootedAt(list, a);
      }
    }
  }

  lemma CutKeepsRoots(list: seq<VirtPage>, list': seq<VirtPage>, lo: int, hi: int, region: int, refilled: bool)
    requires lo <= hi && lo % PAGE == 0 && hi % PAGE == 0 && CutOut(list, list', lo, hi, region, refilled)
    ensures KeepsRoots(list, list', region)
  {
    assert Protected(list, list', lo, lo, hi, Unmapped, region, refilled);
    WholePagesKeepRoots(list, list', lo, lo, hi, Unmapped, region, refilled);
  }

  lemma OverrideKeepsRoots(list: seq<VirtPage>, list': seq<VirtPage>, lo: int, hi: int, info: Info, region: int,
                           refilled: bool)
    requires lo % PAGE == 0 && hi % PAGE == 0 && Overridden(list, list', lo, hi, info, region, refilled)
    ensures KeepsRoots(list, list', region)
  {
    assert Protected(list, list', lo, hi, hi, info, region, refilled);
    WholePagesKeepRoots(list, list', lo, hi, hi, info, region, refilled);
  }

  lemma RoundedEnd(lo: int, size: nat)
    requires lo % PAGE == 0
    ensures (lo + RoundUp(size)) % PAGE == 0
  {
  }

  lemma AlignedSum(lo: int, size: nat)
    ensures lo % PAGE == 0 && size % PAGE == 0 ==> (lo + size) % PAGE == 0
  {
  }

  /** Removing the page-rounded range. */
  lemma RemovalKeepsRoots(list: seq<VirtPage>, list': seq<VirtPage>, lo: int, size: nat, region: int, refilled: bool)
    requires lo % PAGE == 0 && CutOut(list, list', lo, lo + RoundUp(size), region, refilled)
    ensures KeepsRoots(list, list', region)
  {
    RoundedEnd(lo, size);
    CutKeepsRoots(list, list', lo, lo + RoundUp(size), region, refilled);
  }

  /** Recording the page-rounded range after a refill. */
  lemma RefillFirstKeepsRoots(list: seq<VirtPage>, mid: seq<VirtPage>, list': seq<VirtPage>, lo: int, size: nat,
                              info: Info, region: int, first: bool, at: int, second: bool)
    requires Supplied(list, mid, region, first, at) && lo % PAGE == 0 && !(first && second)
    requires Overridden(mid, list', lo, lo + RoundUp(size), info, region, second)
    ensures Overridden(list, list', lo, lo + RoundUp(size), info, region, first || second)
    ensures KeepsRoots(list, list', region)
  {
    var hi := lo + RoundUp(size);
    RoundedEnd(lo, size);
    RefillFirst(list, mid, list', lo, hi, info, region, first, at, second);
    OverrideKeepsRoots(list, list', lo, hi, info, region, first || second);
  }

  /** Cutting out whole pages and linking part of them back in. */
  lemma ProtectKeepsRoots(list: seq<VirtPage>, mid: seq<VirtPage>, list': seq<VirtPage>, lo: int, size: nat,
                          info: Info, region: int, refilled: bool)
    requires size > 0 && lo % PAGE == 0 && CutOut(list, mid, lo, lo + RoundUp(size), region, false)
    requires Protected(mid, list', lo, lo + size, lo + size, info, region, refilled)
    requires refilled ==> lo + RoundUp(size) <= region || region + REFILL_BYTES <= lo
    ensures Protected(list, list', lo, lo + size, lo + RoundUp(size), info, region, refilled)
    ensures KeepsRoots(list, list', region)
    ensures forall a | a < lo :: WithRefill(mid, region, refilled, a) == WithRefill(list, region, refilled, a)
  {
    var hi, end := lo + size, lo + RoundUp(size);
    RoundedEnd(lo, size);
    CutThenProtect(list, mid, list', lo, hi, end, info, region, refilled);
    WholePagesKeepRoots(list, list', lo, hi, end, info, region, refilled);
  }

  /** Growing or shrinking by whole pages. */
  lemma GrowKeepsRoots(list: seq<VirtPage>, list': seq<VirtPage>, lo: int, hi: int, info: Info, region: int)
    requires Overridden(list, list', lo, hi, info, 0, false)
    ensures lo % PAGE == 0 && hi % PAGE == 0 ==> KeepsRoots(list, list', region)
  {
    if lo % PAGE == 0 && hi % PAGE == 0 { OverrideKeepsRoots(list, list', lo, hi, info, 0, false); }
  }

  lemma ShrinkKeepsRoots(list: seq<VirtPage>, list': seq<VirtPage>, lo: int, hi: int, region: int, refilled: bool)
    requires lo <= hi && CutOut(list, list', lo, hi, region, refilled)
    ensures lo % PAGE == 0 && hi % PAGE == 0 ==> KeepsRoots(list, list', region)
  {
    if lo % PAGE == 0 && hi % PAGE == 0 { CutKeepsRoots(list, list', lo, hi, region, refilled); }
  }

  lemma SupplyKeepsRoots(list: seq<VirtPage>, list': seq<VirtPage>, region: int, refilled: bool, at: int)
    requires Supplied(list, list', region, refilled, at)
    ensures KeepsRoots(list, list', region)
  {
    SuppliedMap(list, list', region, refilled, at);
    assert Protected(list, list', 0, 0, 0, Unmapped, region, refilled);
    WholePagesKeepRoots(list, list', 0, 0, 0, Unmapped, region, refilled);
  }

  /** Recording any bytes of an owner anew, page-aligned or not, keeps pages rooted. */
  lemma OwnedOverrideKeepsRoots(list: seq<VirtPage>, list': seq<VirtPage>, lo: int, hi: int, info: Info, region: int,
                                refilled: bool)
    requires Overridden(list, list', lo, hi, info, region, refilled) && info.Mapped?
    requires OwnedBy(list, lo, hi, info.cid) && (refilled ==> NoOverlap(list, region, region + REFILL_BYTES))
    ensures KeepsRoots(list, list', region)
  {
    if Rooted(list) && region % PAGE == 0 {
      forall a ensures RootedAt(list', a) {
        var q := PageStart(a);
        PageStartIs(a);
        SamePage(a, q, region);
        SamePage(a, q, region + REFILL_BYTES);
        assert RootedAt(list, a);
        if refilled && region <= q < region + REFILL_BYTES {
          FreshUnmapped(list, region, a);
          FreshUnmapped(list, region, q);
        }
      }
    }
  }

  // ---------------------------------------------------------------- pages recorded alike

  /** All bytes of a page are recorded alike. */
  ghost predicate PageGranular(list: seq<VirtPage>) {
    forall a, b {:trigger At(list, a), At(list, b)} | a / PAGE == b / PAGE :: At(list, a) == At(list, b)
  }

  lemma OverrideGranular(list: seq<VirtPage>, list': seq<VirtPage>, lo: int, size: nat, info: Info, region: int,
                         refilled: bool)
    requires lo % PAGE == 0 && Overridden(list, list', lo, lo + RoundUp(size), info, region, refilled)
    ensures PageGranular(list) && region % PAGE == 0 ==> PageGranular(list')
  {
    var hi := lo + RoundUp(size);
    RoundedEnd(lo, size);
    if PageGranular(list) && region % PAGE == 0 {
      forall a, b | a / PAGE == b / PAGE ensures At(list', a) == At(list', b) {
        SamePage(a, b, lo);
        SamePage(a, b, hi);
        SamePage(a, b, region);
        SamePage(a, b, region + REFILL_BYTES);
        assert At(list, a) == At(list, b);
      }
    }
  }

  lemma LastPage(lo: int, size: nat, a: int)
    requires lo % PAGE == 0 && size > 0 && lo + size <= a < lo + RoundUp(size)
    ensures a / PAGE == (lo + size - 1) / PAGE
  {
    var k := (size + (PAGE - 1)) / PAGE;
    assert RoundUp(size) == k * PAGE && lo == lo / PAGE * PAGE;
    InPage(a, lo / PAGE + k - 1);
    InPage(lo + size - 1, lo / PAGE + k - 1);
  }

  lemma InPage(a: int, q: int)
    requires q * PAGE <= a < (q + 1) * PAGE
    ensures a / PAGE == q
  {
  }

  lemma OwnedRounds(list: seq<VirtPage>, lo: int, size: nat, cid: int)
    requires PageGranular(list) && lo % PAGE == 0 && size > 0 && OwnedBy(list, lo, lo + size, cid)
    ensures OwnedBy(list, lo, lo + RoundUp(size), cid)
  {
    forall a | lo <= a < lo + RoundUp(size) ensures At(list, a).Mapped? && At(list, a).cid == cid {
      if a >= lo + size {
        LastPage(lo, size, a);
        assert At(list, a) == At(list, lo + size - 1);
      }
    }
  }

  // ---------------------------------------------------------------- check, then act

  /** `lo` lies in a group of `list` that is neither first nor last once a refill has recorded its region. */
  ghost predicate StartsInside(list: seq<VirtPage>, lo: int, region: int, refilled: bool) {
    exists j :: 0 <= j < |list| && Covers(list[j], lo)
      && (j > 0 || (refilled && region < lo)) && (j < |list| - 1 || (refilled && lo < region))
  }

  ghost function OneThreadOutcome(list: seq<VirtPage>, lo: int, size: nat, cid: int): Outcome {
    if size == 0 || lo % PAGE != 0 || !Clearable(list, lo, lo + size, cid) then Refused
    else if Clearable(list, lo, lo + RoundUp(size), cid) then Ok else Trap
  }

  ghost function SeveralThreadsOutcome(list: seq<VirtPage>, lo: int, size: nat, cid: int, region: int,
                                       refilled: bool): Outcome {
    if size == 0 || lo % PAGE != 0 then Refused
    else if list == [] then Trap
    else if !OwnedBy(list, lo, lo + size, cid) then Refused
    else if OwnedBy(list, lo, lo + RoundUp(size), cid) && StartsInside(list, lo, region, refilled) then Ok else Trap
  }

  /** How a fixed mapping request ends; a refusal when recording is a failed assertion. */
  ghost function MapFixedOutcome(list: seq<VirtPage>, lo: int, size: nat, cid: int, multithreaded: bool, region: int,
                                 refilled: bool): Outcome {
    if multithreaded then SeveralThreadsOutcome(list, lo, size, cid, region, refilled)
    else OneThreadOutcome(list, lo, size, cid)
  }

  lemma RefillOwned(list: seq<VirtPage>, mid: seq<VirtPage>, region: int, refilled: bool, at: int, lo: int, hi: int,
                    cid: int)
    requires Supplied(list, mid, region, refilled, at)
    requires refilled ==> hi <= region || region + REFILL_BYTES <= lo
    ensures OwnedBy(mid, lo, hi, cid) <==> OwnedBy(list, lo, hi, cid)
  {
    SuppliedMap(list, mid, region, refilled, at);
    forall a | lo <= a < hi ensures At(mid, a) == At(list, a) {
      assert At(mid, a) == WithRefill(list, region, refilled, a);
    }
  }

  /** Where the range starts once the refill is recorded can be told from the list before it. */
  lemma RefillStarts(list: seq<VirtPage>, mid: seq<VirtPage>, region: int, refilled: bool, at: int, lo: int)
    requires Supplied(list, mid, region, refilled, at)
    requires refilled ==> lo < region || region + REFILL_BYTES <= lo
    ensures (exists i :: StartsIn(mid, i, lo)) <==> StartsInside(list, lo, region, refilled)
  {
    if i :| StartsIn(mid, i, lo) {
      SuppliedIndex(list, mid, region, refilled, at, i);
      var t := if refilled && at < i then i - 1 else i;
      GroupMoves(list, mid, region, refilled, at, lo, t);
    }
    if StartsInside(list, lo, region, refilled) {
      var j :| 0 <= j < |list| && Covers(list[j], lo)
        && (j > 0 || (refilled && region < lo)) && (j < |list| - 1 || (refilled && lo < region));
      GroupMoves(list, mid, region, refilled, at, lo, j);
      assert StartsIn(mid, Shift(j, refilled, at), lo);
    }
  }

  lemma GroupMoves(list: seq<VirtPage>, mid: seq<VirtPage>, region: int, refilled: bool, at: int, lo: int, j: int)
    requires Supplied(list, mid, region, refilled, at) && 0 <= j < |list| && Covers(list[j], lo)
    ensures var d := Shift(j, refilled, at);
            && 0 <= d < |mid| && mid[d] == list[j]
            && (d > 0 <==> j > 0 || (refilled && region < lo))
            && (d < |mid| - 1 <==> j < |list| - 1 || (refilled && lo < region))
  {
    ShiftIndex(list, mid, region, refilled, at, j);
    if refilled {
      assert at <= j ==> list[at..][j - at] == list[j];
      assert j < at ==> list[..at][j] == list[j];
    }
  }

  /** Recording a range that passed the check succeeds exactly when the check would pass over whole pages too (and,
      with several threads, unless the range starts in the first or the last group). */
  lemma CheckThenAdd(list: seq<VirtPage>, mid: seq<VirtPage>, lo: int, size: nat, cid: int, multithreaded: bool,
                     region: int, refilled: bool, at: int)
    requires lo % PAGE == 0 && size > 0 && Supplied(list, mid, region, refilled, at)
    requires refilled ==> lo + RoundUp(size) <= region || region + REFILL_BYTES <= lo
    requires if multithreaded then list != [] && OwnedBy(list, lo, lo + size, cid)
             else Clearable(list, lo, lo + size, cid)
    ensures var r := MapFixedOutcome(list, lo, size, cid, multithreaded, region, refilled);
            && r != Refused
            && (AddOutcome(mid, lo, lo + RoundUp(size), cid, true, multithreaded) == Ok <==> r == Ok)
  {
    var hi := lo + RoundUp(size);
    RefillOwned(list, mid, region, refilled, at, lo, hi, cid);
    RefillElsewhere(list, mid, region, refilled, at, lo, hi, cid);
    RefillStarts(list, mid, region, refilled, at, lo);
  }

  // ---------------------------------------------------------------- what belongs to others

  /** When recording [lo, hi) succeeds, byte by byte: a plain mapping needs free bytes, a fixed one bytes that are
      free or its owner's, and with several threads none that are free and a start between other groups. */
  ghost predicate Recordable(list: seq<VirtPage>, lo: int, hi: int, cid: int, mapFixed: bool, multithreaded: bool,
                             region: int, refilled: bool) {
    && lo % PAGE == 0
    && if !mapFixed then NothingIn(list, lo, hi)
       else if !multithreaded then NobodyElses(list, lo, hi, cid)
       else OwnedBy(list, lo, hi, cid) && StartsInside(list, lo, region, refilled)
  }

  lemma RecordExactly(list: seq<VirtPage>, mid: seq<VirtPage>, lo: int, size: nat, cid: int, mapFixed: bool,
                      multithreaded: bool, region: int, refilled: bool, at: int)
    requires Sorted(list) && size > 0 && Supplied(list, mid, region, refilled, at)
    requires refilled ==> lo + RoundUp(size) <= region || region + REFILL_BYTES <= lo
    ensures AddOutcome(mid, lo, lo + RoundUp(size), cid, mapFixed, multithreaded) == Ok
       <==> Recordable(list, lo, lo + RoundUp(size), cid, mapFixed, multithreaded, region, refilled)
  {
    var hi := lo + RoundUp(size);
    if !mapFixed {
      RoomStays(list, mid, region, refilled, at, lo, hi);
    } else if !multithreaded {
      OwnershipStays(list, mid, region, refilled, at, lo, hi, cid);
    } else {
      RefillOwned(list, mid, region, refilled, at, lo, hi, cid);
      RefillStarts(list, mid, region, refilled, at, lo);
    }
  }

  lemma RoomStays(list: seq<VirtPage>, mid: seq<VirtPage>, region: int, refilled: bool, at: int, lo: int, hi: int)
    requires Sorted(list) && lo < hi && Supplied(list, mid, region, refilled, at)
    requires refilled ==> hi <= region || region + REFILL_BYTES <= lo
    ensures NoOverlap(mid, lo, hi) <==> NothingIn(list, lo, hi)
  {
    RefillElsewhere(list, mid, region, refilled, at, lo, hi, 0);
    RoomIsUnmapped(list, lo, hi);
  }

  lemma OwnershipStays(list: seq<VirtPage>, mid: seq<VirtPage>, region: int, refilled: bool, at: int, lo: int, hi: int,
                       cid: int)
    requires Sorted(list) && lo < hi && Supplied(list, mid, region, refilled, at)
    requires refilled ==> hi <= region || region + REFILL_BYTES <= lo
    ensures Clearable(mid, lo, hi, cid) <==> NobodyElses(list, lo, hi, cid)
  {
    RefillElsewhere(list, mid, region, refilled, at, lo, hi, cid);
    ClearableIsOwnership(list, lo, hi, cid);
  }

  /** A range that is recorded was free, or its owner's; a refill on the way changes nothing about that. */
  lemma RecordedIsNobodyElses(list: seq<VirtPage>, mid: seq<VirtPage>, lo: int, size: nat, cid: int, mapFixed: bool,
                              multithreaded: bool, region: int, refilled: bool, at: int)
    requires Sorted(list) && size > 0 && Supplied(list, mid, region, refilled, at)
    requires refilled ==> lo + RoundUp(size) <= region || region + REFILL_BYTES <= lo
    requires AddOutcome(mid, lo, lo + RoundUp(size), cid, mapFixed, multithreaded) == Ok
    ensures NobodyElses(list, lo, lo + RoundUp(size), cid)
  {
    RecordExactly(list, mid, lo, size, cid, mapFixed, multithreaded, region, refilled, at);
  }

  /** The map after a recorded mapping, with the refill of its own node and of the clearing before it. */
  lemma RecordEffect(list: seq<VirtPage>, mid: seq<VirtPage>, list': seq<VirtPage>, lo: int, size: nat, info: Info,
                     cid: int, mapFixed: bool, multithreaded: bool, region: int, first: bool, at: int, second: bool)
    requires Sorted(list) && size > 0 && Supplied(list, mid, region, first, at) && !(first && second)
    requires first || second ==> NoOverlap(list, region, region + REFILL_BYTES)
    requires first || second ==> lo + RoundUp(size) <= region || region + REFILL_BYTES <= lo
    requires AddOutcome(mid, lo, lo + RoundUp(size), cid, mapFixed, multithreaded) == Ok
    requires Overridden(mid, list', lo, lo + RoundUp(size), info, region, second)
    ensures Overridden(list, list', lo, lo + RoundUp(size), info, region, first || second)
    ensures KeepsRoots(list, list', region) && OthersKept(list, list', cid)
  {
    var refilled := first || second;
    RefillFirstKeepsRoots(list, mid, list', lo, size, info, region, first, at, second);
    RecordedIsNobodyElses(list, mid, lo, size, cid, mapFixed, multithreaded, region, first, at);
    ChangeKeepsOthers(list, list', lo, lo + RoundUp(size), region, refilled, cid);
  }

  lemma OverrideKeepsOthers(list: seq<VirtPage>, list': seq<VirtPage>, lo: int, hi: int, info: Info, region: int,
                            refilled: bool, cid: int)
    requires Overridden(list, list', lo, hi, info, region, refilled) && NobodyElses(list, lo, hi, cid)
    requires refilled ==> NoOverlap(list, region, region + REFILL_BYTES)
    ensures OthersKept(list, list', cid)
  {
    ChangeKeepsOthers(list, list', lo, hi, region, refilled, cid);
  }

  lemma ProtectKeepsOthers(list: seq<VirtPage>, list': seq<VirtPage>, lo: int, hi: int, end: int, info: Info,
                           region: int, refilled: bool, cid: int)
    requires Protected(list, list', lo, hi, end, info, region, refilled) && NobodyElses(list, lo, end, cid)
    requires lo <= hi <= end && (refilled ==> NoOverlap(list, region, region + REFILL_BYTES))
    ensures OthersKept(list, list', cid)
  {
    ChangeKeepsOthers(list, list', lo, end, region, refilled, cid);
  }

  // ---------------------------------------------------------------- when an accepted request can trap

  /** Where pages are rooted, checking a range up to its last byte checks it up to the end of its last page. */
  lemma ClearableRounds(list: seq<VirtPage>, lo: int, size: nat, cid: int)
    requires Sorted(list) && Rooted(list) && lo % PAGE == 0 && size > 0
    requires Clearable(list, lo, lo + size, cid)
    ensures Clearable(list, lo, lo + RoundUp(size), cid)
  {
    forall i | 0 <= i < |list| && Overlap(list[i], lo, lo + RoundUp(size)) ensures list[i].cid == cid {
      if !Overlap(list[i], lo, lo + size) {
        var a := list[i].start;
        LastPage(lo, size, a);
        PageStartIs(a);
        PageStartIs(lo + size - 1);
        SamePage(a, lo + size - 1, lo);
        SamePage(a, PageStart(a), lo);
        AtGroup(list, i, a);
        assert RootedAt(list, a);
        var t := AtSome(list, PageStart(a));
        assert Overlap(list[t], lo, lo + size);
      }
    }
  }

  lemma RootedNeverTraps(list: seq<VirtPage>, lo: int, size: nat, cid: int)
    requires Sorted(list)
    ensures Rooted(list) ==> OneThreadOutcome(list, lo, size, cid) != Trap
  {
    if Rooted(list) && size > 0 && lo % PAGE == 0 && Clearable(list, lo, lo + size, cid) {
      ClearableRounds(list, lo, size, cid);
    }
  }

  /** With one thread no request that passes the check traps, exactly when pages are rooted. */
  lemma OneThreadNeverTraps(list: seq<VirtPage>)
    requires Sorted(list)
    ensures Rooted(list) <==> forall lo, size: nat, cid :: OneThreadOutcome(list, lo, size, cid) != Trap
  {
    if Rooted(list) {
      forall lo, size: nat, cid ensures OneThreadOutcome(list, lo, size, cid) != Trap {
        RootedNeverTraps(list, lo, size, cid);
      }
    } else {
      var a :| !RootedAt(list, a);
      var cid := UnrootedTraps(list, a);
    }
  }

  /** A byte whose page starts unmapped or with another owner is not seen by a check of that first byte. */
  lemma UnrootedTraps(list: seq<VirtPage>, a: int) returns (cid: int)
    requires Sorted(list) && !RootedAt(list, a)
    ensures OneThreadOutcome(list, PageStart(a), 1, cid) == Trap
  {
    var q := PageStart(a);
    PageStartIs(a);
    var i := AtSome(list, a);
    cid := if At(list, q).Mapped? then At(list, q).cid else list[i].cid + 1;
    forall t | 0 <= t < |list| && Overlap(list[t], q, q + 1) ensures list[t].cid == cid { AtGroup(list, t, q); }
    assert Overlap(list[i], q, q + RoundUp(1));
  }

  /** With several threads one that passes traps exactly when a byte of its last page is not mapped, or it starts in
      the first or the last group. */
  lemma SeveralThreadsTraps(list: seq<VirtPage>, lo: int, size: nat, cid: int, region: int, refilled: bool)
    requires Rooted(list) && list != [] && lo % PAGE == 0 && size > 0 && OwnedBy(list, lo, lo + size, cid)
    ensures SeveralThreadsOutcome(list, lo, size, cid, region, refilled) == Trap
       <==> || (exists a :: lo + size <= a < lo + RoundUp(size) && At(list, a) == Unmapped)
            || !StartsInside(list, lo, region, refilled)
  {
    if forall a | lo + size <= a < lo + RoundUp(size) :: At(list, a) != Unmapped {
      forall a | lo <= a < lo + RoundUp(size) ensures At(list, a).Mapped? && At(list, a).cid == cid {
        if a >= lo + size {
          LastPage(lo, size, a);
          PageStartIs(a);
          PageStartIs(lo + size - 1);
          SamePage(a, PageStart(a), lo);
          assert RootedAt(list, a);
        }
      }
    } else {
      var a :| lo + size <= a < lo + RoundUp(size) && At(list, a) == Unmapped;
      assert SeveralThreadsOutcome(list, lo, size, cid, region, refilled) == Trap;
      assert (exists a :: lo + size <= a < lo + RoundUp(size) && At(list, a) == Unmapped);
    }
  }

  /** If the size is whole pages, or bytes of a page are recorded alike, the last page is mapped throughout. */
  lemma AcceptedNeverTraps(list: seq<VirtPage>, lo: int, size: nat, cid: int, region: int, refilled: bool)
    requires size % PAGE == 0 || PageGranular(list)
    ensures SeveralThreadsOutcome(list, lo, size, cid, region, refilled) == Trap ==>
            list == [] || !StartsInside(list, lo, region, refilled)
    ensures Sorted(list) ==> OneThreadOutcome(list, lo, size, cid) != Trap
  {
    if size % PAGE == 0 {
      WholePages(size);
    } else if lo % PAGE == 0 {
      if OwnedBy(list, lo, lo + size, cid) { OwnedRounds(list, lo, size, cid); }
      if Sorted(list) {
        GranularIsRooted(list);
        RootedNeverTraps(list, lo, size, cid);
      }
    }
  }

  lemma GranularIsRooted(list: seq<VirtPage>)
    requires PageGranular(list)
    ensures Rooted(list)
  {
    forall a ensures RootedAt(list, a) {
      PageStartIs(a);
      assert At(list, a) == At(list, PageStart(a));
    }
  }

  lemma WholePages(size: nat)
    requires size % PAGE == 0
    ensures RoundUp(size) == size
  {
  }

  /** An unaligned protection change over several groups drops the rest of its last page.  From then on every fixed
      mapping of the bytes left there passes the check and, with several threads, traps; with one it does not. */
  lemma UnalignedProtectTraps(list: seq<VirtPage>, list': seq<VirtPage>, start: int, size: nat, info: Info,
                              region: int, refilled: bool, n: nat, region': int, refilled': bool)
    requires start % PAGE == 0 && info.Mapped? && 0 < n <= size % PAGE && list' != []
    requires Protected(list, list', start, start + size, start + RoundUp(size), info, region, refilled)
    ensures var q := start + size - size % PAGE;
            && SeveralThreadsOutcome(list', q, n, info.cid, region', refilled') == Trap
            && (Sorted(list') ==> OneThreadOutcome(list', q, n, info.cid) == Ok)
  {
    var q := start + size - size % PAGE;
    PartPage(start, size, n);
    assert At(list', start + size) == Unmapped;
    if Sorted(list') {
      forall t | 0 <= t < |list'| && Overlap(list'[t], q, q + RoundUp(n)) ensures list'[t].cid == info.cid {
        var a := if list'[t].start < q then q else list'[t].start;
        AtGroup(list', t, a);
      }
    }
  }

  lemma PartPage(start: int, size: nat, n: nat)
    requires start % PAGE == 0 && 0 < n <= size % PAGE
    ensures var q := start + size - size % PAGE;
            q % PAGE == 0 && RoundUp(n) == PAGE && q + PAGE == start + RoundUp(size)
  {
  }
}
