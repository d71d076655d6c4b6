/** The monitor's record of every mapping: a sorted linked list of page groups and a list of spare nodes.

  A list is the sequence of its nodes in link order; following a `next` pointer is moving to the next
  index.  Operations end `Ok` (0), `Refused` (-1) or in a `Trap` (ud2, failed assertion or null
  dereference).  `region` is where the kernel would put the two pages of a refill of the spare list. */
module PageManagers {
  import opened PageMap
  import opened PageSpans
  import opened PageEdits
  import opened FixedMappings

  /** The owner that matches every group. */
  const ANYONE: int := -1

  class PageManager {
    var pages: seq<VirtPage>
    var free: seq<int>
    ghost var nodes: set<int>

    constructor ()
      ensures pages == [] && free == [] && nodes == {} && Sorted(pages) && PageGranular(pages) && Rooted(pages)
      ensures ConservedWith(multiset{})
    {
      pages, free, nodes := [], [], {};
    }

    /** Links `p` into the list at its place. */
    method Insert(p: VirtPage, mapFixed: bool) returns (r: Outcome, at: int)
      requires Sorted(pages) && p.size > 0
      modifies `pages
      ensures InsertVerdict(old(pages), p, mapFixed, r, at)
      ensures r == Ok ==> FitsAt(old(pages), at, p) && pages == Inserted(old(pages), at, p) && Sorted(pages)
      ensures r != Ok ==> pages == old(pages)
    {
      r, at := FindPlace(pages, p, mapFixed);
      if r == Ok {
        InsertSorted(pages, at, p);
        pages := Inserted(pages, at, p);
      }
    }

    /** Both lists and the nodes in `out`, which are on neither, together hold every node ever mapped once. */
    ghost predicate ConservedWith(out: multiset<int>)
      reads this
    {
      Nodes(pages) + multiset(free) + out == multiset(nodes)
    }

    /** Maps two more pages of nodes: 127 go on the spare list, the last records the pages themselves. */
    method Refill(region: int, ghost out: multiset<int>) returns (at: int)
      requires Sorted(pages) && FreshRegion(pages, nodes, region) && ConservedWith(out)
      modifies this
      ensures Supplied(old(pages), pages, region, true, at) && Sorted(pages)
      ensures free == Chain(region, NODES_PER_REFILL - 1) + old(free) && nodes == old(nodes) + RegionNodes(region)
      ensures ConservedWith(out)
    {
      var chain := LinkChain(region, NODES_PER_REFILL - 1);
      RefillCounts(nodes, region);
      free := chain + free;
      var r;
      r, at := Insert(OwnGroup(region), false);
      assert r == Ok;
      InsertNodes(old(pages), at, OwnGroup(region));
      nodes := nodes + RegionNodes(region);
    }

    /** Takes a spare node, refilling the spare list first if it is empty. */
    method Alloc(region: int, ghost out: multiset<int>) returns (node: int, refilled: bool, at: int)
      requires Sorted(pages) && ConservedWith(out) && (free == [] ==> FreshRegion(pages, nodes, region))
      modifies this
      ensures refilled == (old(free) == []) && Supplied(old(pages), pages, region, refilled, at) && Sorted(pages)
      ensures ConservedWith(out + multiset{node})
      ensures nodes == old(nodes) + (if refilled then RegionNodes(region) else {})
      ensures refilled ==> free != []
      ensures !refilled ==> [node] + free == old(free)
    {
      refilled, at := free == [], 0;
      if refilled {
        at := Refill(region, out);
        ChainNonempty(region);
      }
      assert free == [free[0]] + free[1..];
      node, free := free[0], free[1..];
    }

    /** Puts a node back on the spare list. */
    method FreeNode(node: int, ghost out: multiset<int>)
      requires ConservedWith(out + multiset{node})
      modifies `free
      ensures free == [node] + old(free) && ConservedWith(out)
    {
      free := [node] + free;
    }

    /** Unlinks group `p` and frees its node. */
    method Drop(p: int, ghost out: multiset<int>)
      requires 0 <= p < |pages| && ConservedWith(out)
      modifies `pages, `free
      ensures pages == old(pages)[..p] + old(pages)[p + 1..] && free == [old(pages)[p].node] + old(free)
      ensures ConservedWith(out)
    {
      DropNodes(pages, p);
      var node := pages[p].node;
      pages := pages[..p] + pages[p + 1..];
      FreeNode(node, out);
    }

    /** Links `g`, whose node is on no list, in at `i`. */
    method LinkAt(i: int, g: VirtPage, ghost out: multiset<int>)
      requires 0 <= i <= |pages| && ConservedWith(out + multiset{g.node})
      modifies `pages
      ensures pages == Inserted(old(pages), i, g) && ConservedWith(out)
    {
      InsertNodes(pages, i, g);
      pages := Inserted(pages, i, g);
    }

    /** Rewrites group `p` in place. */
    method Change(p: int, g: VirtPage, ghost out: multiset<int>)
      requires 0 <= p < |pages| && ConservedWith(out) && g.node == pages[p].node
      modifies `pages
      ensures pages == old(pages)[p := g] && ConservedWith(out)
    {
      KeepNode(pages, p, g);
      pages := pages[p := g];
    }

    /** Keeps of group `j` only what lies before `lo`. */
    method TrimFront(j: int, lo: int, ghost out: multiset<int>) returns (p: int)
      requires 0 <= j < |pages| && pages[j].start <= lo && ConservedWith(out)
      modifies `pages, `free
      ensures pages == old(pages)[..j] + Front(old(pages)[j], lo) + old(pages)[j + 1..] && ConservedWith(out)
      ensures p == j + |Front(old(pages)[j], lo)|
      ensures |free| >= |old(free)|
    {
      if lo == pages[j].start {
        Drop(j, out);
        p := j;
      } else {
        Change(j, pages[j].(size := lo - pages[j].start), out);
        p := j + 1;
      }
    }

    /** Unlinks the `n` groups from `p` on. */
    method DropRun(p: int, n: nat, ghost out: multiset<int>)
      requires 0 <= p <= p + n <= |pages| && ConservedWith(out)
      modifies `pages, `free
      ensures pages == old(pages)[..p] + old(pages)[p + n..] && ConservedWith(out)
      ensures |free| >= |old(free)|
    {
      for m := 0 to n
        invariant pages == old(pages)[..p] + old(pages)[p + m..] && ConservedWith(out) && |free| >= |old(free)|
      {
        Drop(p, out);
      }
    }

    /** Keeps of group `p` only what lies from `hi` on. */
    method TrimBack(p: int, hi: int, ghost out: multiset<int>)
      requires 0 <= p < |pages| && hi <= End(pages[p]) && ConservedWith(out)
      modifies `pages, `free
      ensures pages == old(pages)[..p] + Back(old(pages)[p], hi, old(pages)[p].node) + old(pages)[p + 1..]
      ensures ConservedWith(out)
      ensures |free| >= |old(free)|
    {
      var g := pages[p];
      if hi == End(g) {
        Drop(p, out);
      } else {
        Change(p, g.(start := hi, size := End(g) - hi), out);
      }
    }

    /** Cuts [lo, hi) out of several groups, `j` to `k`. */
    method RemoveMany(j: int, k: int, lo: int, hi: int, ghost out: multiset<int>)
      requires 0 <= j < k < |pages| && pages[j].start <= lo && hi <= End(pages[k]) && ConservedWith(out)
      modifies `pages, `free
      ensures pages == Trimmed(old(pages), j, k, lo, hi, old(pages)[k].node) && ConservedWith(out)
      ensures |free| >= |old(free)|
    {
      ghost var list, front := pages, pages[..j] + Front(pages[j], lo);
      var p := TrimFront(j, lo, out);
      assert p == |front| && pages == front + list[j + 1..];
      DropRun(p, k - j - 1, out);
      assert pages == front + list[k..] by { CutRun(front, list, j + 1, k); }
      ghost var back := Back(list[k], hi, list[k].node);
      CutOne(front, list, k, back);
      TrimBack(p, hi, out);
      assert pages == front + back + list[k + 1..];
      assert front + back == list[..j] + (Front(list[j], lo) + back);
    }

    /** Cuts [lo, hi), which lies in group `j` alone, out of it. */
    method RemoveOne(j: int, lo: int, hi: int, region: int, ghost out: multiset<int>) returns (refilled: bool)
      requires Sorted(pages) && 0 <= j < |pages| && pages[j].start <= lo < hi <= End(pages[j])
      requires ConservedWith(out) && (free == [] ==> FreshRegion(pages, nodes, region))
      modifies this
      ensures CutOut(old(pages), pages, lo, hi, region, refilled) && ConservedWith(out)
      ensures refilled ==> old(free) == []
      ensures nodes == old(nodes) + (if refilled then RegionNodes(region) else {})
    {
      ghost var list := pages;
      var g := pages[j];
      refilled := false;
      MeetsOne(list, j, lo, hi);
      TrimCutsOut(list, j, j, lo, hi, g.node, region);
      if g.start == lo && End(g) == hi {
        Drop(j, out);
        assert pages == Trimmed(list, j, j, lo, hi, g.node);
      } else if g.start == lo {
        Change(j, g.(start := hi, size := End(g) - hi), out);
        assert pages == Trimmed(list, j, j, lo, hi, g.node);
      } else if End(g) == hi {
        Change(j, g.(size := lo - g.start), out);
        assert pages == Trimmed(list, j, j, lo, hi, g.node);
      } else {
        refilled := SplitOne(j, lo, hi, region, out);
      }
    }

    /** Shortens group `j` to end at `lo` and takes a node. */
    method Shorten(j: int, lo: int, region: int, ghost out: multiset<int>)
      returns (node: int, refilled: bool, at: int)
      requires Sorted(pages) && 0 <= j < |pages| && pages[j].start < lo < End(pages[j])
      requires ConservedWith(out) && (free == [] ==> FreshRegion(pages, nodes, region))
      modifies this
      ensures Supplied(Shortened(old(pages), j, lo), pages, region, refilled, at) && Sorted(pages)
      ensures ConservedWith(out + multiset{node}) && (refilled ==> old(free) == [])
      ensures nodes == old(nodes) + (if refilled then RegionNodes(region) else {})
    {
      ghost var short := Shortened(pages, j, lo);
      ShortenedKeepsFresh(pages, j, lo, region);
      Change(j, pages[j].(size := lo - pages[j].start), out);
      assert pages == short;
      node, refilled, at := Alloc(region, out);
    }

    /** Cuts [lo, hi) out of the middle of group `j`: the tail gets a node of its own. */
    method SplitOne(j: int, lo: int, hi: int, region: int, ghost out: multiset<int>) returns (refilled: bool)
      requires Sorted(pages) && 0 <= j < |pages| && pages[j].start < lo < hi < End(pages[j])
      requires ConservedWith(out) && (free == [] ==> FreshRegion(pages, nodes, region))
      modifies this
      ensures CutOut(old(pages), pages, lo, hi, region, refilled) && ConservedWith(out)
      ensures refilled ==> old(free) == []
      ensures nodes == old(nodes) + (if refilled then RegionNodes(region) else {})
    {
      ghost var list := pages;
      var g := pages[j];
      var node, at;
      node, refilled, at := Shorten(j, lo, region, out);
      TailCutsOut(list, j, lo, hi, node, pages, region, refilled, at);
      LinkAt(Shift(j, refilled, at) + 1, Tail(g, hi, node), out);
    }

    /** Cuts [lo, hi), which starts in group `j` and ends in group `k`, out of the list. */
    method RemoveSpan(j: int, k: int, lo: int, hi: int, region: int,
                      ghost out: multiset<int>) returns (refilled: bool)
      requires Sorted(pages) && Meets(pages, j, k, lo, hi) && 0 < j && pages[j].start <= lo < hi <= End(pages[k])
      requires ConservedWith(out) && (free == [] ==> FreshRegion(pages, nodes, region))
      modifies this
      ensures CutOut(old(pages), pages, lo, hi, region, refilled) && ConservedWith(out)
      ensures refilled ==> old(free) == []
      ensures j < k ==> !refilled && pages != [] && pages[0] == old(pages)[0] && |free| >= |old(free)|
      ensures nodes == old(nodes) + (if refilled then RegionNodes(region) else {})
    {
      refilled := false;
      if j == k {
        refilled := RemoveOne(j, lo, hi, region, out);
      } else {
        TrimCutsOut(pages, j, k, lo, hi, pages[k].node, region);
        RemoveMany(j, k, lo, hi, out);
      }
    }

    /** Removes the page-rounded range from the list if `cid` owns all of it. */
    method RemoveLocked(start: int, size: nat, cid: int, region: int,
                        ghost out: multiset<int>) returns (r: Outcome, refilled: bool)
      requires Sorted(pages) && ConservedWith(out) && (free == [] ==> FreshRegion(pages, nodes, region))
      modifies this
      ensures r == RemoveOutcome(old(pages), start, size, cid)
      ensures r == Ok <==> start % PAGE == 0 && size > 0 && Removable(old(pages), start, start + RoundUp(size), cid)
      ensures r == Ok && !InOneGroup(old(pages), start, start + RoundUp(size)) ==>
        !refilled && pages != [] && pages[0] == old(pages)[0] && |free| >= |old(free)|
      ensures r == Ok ==> CutOut(old(pages), pages, start, start + RoundUp(size), region, refilled)
      ensures r != Ok ==> pages == old(pages) && free == old(free) && nodes == old(nodes)
      ensures ConservedWith(out) && (refilled ==> old(free) == [] && r == Ok)
      ensures nodes == old(nodes) + (if refilled then RegionNodes(region) else {})
      ensures KeepsRoots(old(pages), pages, region) && OthersKept(old(pages), pages, cid)
    {
      refilled := false;
      RemoveExactly(pages, start, size, cid);
      if |pages| < 2 { return Refused, false; }
      if start % PAGE != 0 { return Trap, false; }
      if size == 0 { return Refused, false; }
      var end := start + RoundUp(size);
      var j, k;
      r, j, k := FindSpan(pages, start, end, cid);
      VerdictIsOwnership(pages, start, end, cid, r, j, k);
      if r == Ok {
        refilled := RemoveSpan(j, k, start, end, region, out);
        RemovalKeepsRoots(old(pages), pages, start, size, region, refilled);
        CutKeepsOthers(old(pages), pages, start, end, region, refilled, cid);
      }
    }

    /** Clears [lo, hi) from group `i`, the last that meets it and one that reaches past it. */
    method ClearLast(i: int, lo: int, hi: int, region: int, ghost list: seq<VirtPage>,
                     ghost out: multiset<int>) returns (refilled: bool)
      requires Sorted(pages) && SameOutside(list, pages, lo, hi) && 0 <= i < |pages| && Below(pages[..i], lo) && lo < hi
      requires Overlap(pages[i], lo, hi) && hi < End(pages[i]) && ConservedWith(out)
      requires free == [] ==> FreshRegion(pages, nodes, region)
      modifies this
      ensures CutOut(list, pages, lo, hi, region, refilled) && ConservedWith(out)
      ensures refilled ==> old(free) == []
      ensures nodes == old(nodes) + (if refilled then RegionNodes(region) else {})
    {
      ghost var mid := pages;
      var g := pages[i];
      if lo <= g.start {
        CutInside(list, mid, i, g.start, hi, g.node, lo, hi);
        Change(i, g.(start := hi, size := End(g) - hi), out);
        assert pages == Trimmed(mid, i, i, g.start, hi, g.node);
        CutFinished(list, pages, i, lo, hi, region);
        refilled := false;
      } else {
        refilled := SplitOne(i, lo, hi, region, out);
        CutThrough(list, mid, pages, lo, hi, region, refilled);
      }
    }

    /** Takes what lies in [lo, hi) from group `i`, which does not reach past `hi`. */
    method ClearGroup(i: int, lo: int, hi: int, cid: int, region: int, ghost list: seq<VirtPage>, ghost m: int,
                      ghost out: multiset<int>) returns (next: int)
      requires Clearing(list, pages, i, m, lo, hi, cid) && i < |pages| && pages[i].cid == cid
      requires Overlap(pages[i], lo, hi) && End(pages[i]) <= hi
      requires ConservedWith(out) && (free == [] ==> FreshRegion(pages, nodes, region))
      modifies `pages, `free
      ensures Clearing(list, pages, next, m + 1, lo, hi, cid)
      ensures ConservedWith(out) && (free == [] ==> old(free) == [] && FreshRegion(pages, nodes, region))
    {
      var g := pages[i];
      ClearingCut(list, pages, i, m, lo, hi, cid);
      if lo <= g.start {
        Drop(i, out);
        next := i;
      } else {
        Change(i, g.(size := lo - g.start), out);
        next := i + 1;
      }
    }

    /** Clears [lo, hi) up to the first group that reaches past it or belongs to someone else. */
    method ClearGroups(lo: int, hi: int, cid: int, region: int, ghost out: multiset<int>) returns (i: int, ghost m: int)
      requires Sorted(pages) && lo < hi
      requires ConservedWith(out) && (free == [] ==> FreshRegion(pages, nodes, region))
      modifies `pages, `free
      ensures Clearing(old(pages), pages, i, m, lo, hi, cid)
      ensures i < |pages| ==>
        || pages[i].start >= hi
        || (Overlap(pages[i], lo, hi) && (pages[i].cid != cid || End(pages[i]) > hi))
      ensures ConservedWith(out) && (free == [] ==> old(free) == [] && FreshRegion(pages, nodes, region))
    {
      ghost var list := pages;
      i, m := 0, 0;
      while i < |pages|
        invariant Clearing(list, pages, i, m, lo, hi, cid)
        invariant ConservedWith(out) && (free == [] ==> old(free) == [] && FreshRegion(pages, nodes, region))
        decreases |list| - m
      {
        var g := pages[i];
        ClearingHead(list, pages, i, m, lo, hi, cid);
        if End(g) <= lo {
          ClearingSkip(list, pages, i, m, lo, hi, cid);
          i := i + 1;
        } else if g.start >= hi || g.cid != cid || End(g) > hi {
          break;
        } else {
          i := ClearGroup(i, lo, hi, cid, region, list, m, out);
        }
        m := m + 1;
      }
    }

    /** Clears the page-rounded range, gaps allowed; traps at the first group of another owner. */
    method RemoveFixedLocked(start: int, size: nat, cid: int, region: int,
                             ghost out: multiset<int>) returns (r: Outcome, refilled: bool)
      requires Sorted(pages) && ConservedWith(out) && (free == [] ==> FreshRegion(pages, nodes, region))
      modifies this
      ensures r == Ok <==> start % PAGE == 0 && size > 0 && Clearable(old(pages), start, start + RoundUp(size), cid)
      ensures r == Refused <==> start % PAGE == 0 && size == 0
      ensures r == Ok ==> CutOut(old(pages), pages, start, start + RoundUp(size), region, refilled)
      ensures ConservedWith(out) && (refilled ==> old(free) == [] && r == Ok)
      ensures r == Refused ==> pages == old(pages) && free == old(free)
      ensures nodes == old(nodes) + (if refilled then RegionNodes(region) else {})
      ensures r != Trap ==> KeepsRoots(old(pages), pages, region) && OthersKept(old(pages), pages, cid)
    {
      refilled := false;
      if start % PAGE != 0 { return Trap, false; }
      if size == 0 { return Refused, false; }
      var end := start + RoundUp(size);
      ghost var list := pages;
      var i, m := ClearGroups(start, end, cid, region, out);
      if i < |pages| && pages[i].start < end && pages[i].cid != cid {
        ClearingHead(list, pages, i, m, start, end, cid);
        return Trap, false;
      }
      ClearingEnds(list, pages, i, m, start, end, cid);
      if i < |pages| && pages[i].start < end {
        refilled := ClearLast(i, start, end, region, list, out);
      } else {
        CutFinished(list, pages, i, start, end, region);
      }
      RemovalKeepsRoots(list, pages, start, size, region, refilled);
      ClearableIsOwnership(list, start, end, cid);
      CutKeepsOthers(list, pages, start, end, region, refilled, cid);
      return Ok, refilled;
    }

    /** Removes what a fixed mapping replaces: with several threads running, only a range without gaps. */
    method Replace(start: int, size: nat, cid: int, multithreaded: bool, region: int,
                   ghost out: multiset<int>) returns (r: Outcome, refilled: bool)
      requires Sorted(pages) && size > 0 && start % PAGE == 0
      requires ConservedWith(out) && (free == [] ==> FreshRegion(pages, nodes, region))
      modifies this
      ensures r == ReplaceOutcome(old(pages), start, start + RoundUp(size), cid, multithreaded)
      ensures r == Ok ==> CutOut(old(pages), pages, start, start + RoundUp(size), region, refilled)
      ensures r == Refused ==> pages == old(pages) && free == old(free)
      ensures ConservedWith(out) && (refilled ==> old(free) == [] && r == Ok)
      ensures nodes == old(nodes) + (if refilled then RegionNodes(region) else {})
    {
      if multithreaded {
        r, refilled := RemoveLocked(start, size, cid, region, out);
        RemovalNeedsTwo(old(pages), start, start + RoundUp(size), cid);
      } else {
        r, refilled := RemoveFixedLocked(start, size, cid, region, out);
      }
    }

    /** Records the range in `node`, after clearing it if the mapping is fixed. */
    method AddLocked(node: int, start: int, size: nat, prot: int, flags: int, cid: int, mapFixed: bool,
                     multithreaded: bool, region: int)
      returns (r: Outcome, refilled: bool)
      requires Sorted(pages) && size > 0
      requires ConservedWith(multiset{node}) && (free == [] && mapFixed ==> FreshRegion(pages, nodes, region))
      modifies this
      ensures r == AddOutcome(old(pages), start, start + RoundUp(size), cid, mapFixed, multithreaded)
      ensures r == Ok ==>
        Overridden(old(pages), pages, start, start + RoundUp(size), Mapped(prot, flags, cid), region, refilled)
      ensures r == Ok ==> ConservedWith(multiset{})
      ensures r == Ok && !mapFixed ==>
        LinkedIn(old(pages), pages, start, start + RoundUp(size), Mapped(prot, flags, cid))
      ensures r == Refused ==> pages == old(pages) && free == old(free) && ConservedWith(multiset{node})
      ensures refilled ==> old(free) == [] && r == Ok && mapFixed
      ensures nodes == old(nodes) + (if refilled then RegionNodes(region) else {})
    {
      refilled := false;
      if start % PAGE != 0 { return Trap, false; }
      var end := start + RoundUp(size);
      ghost var list, mid := pages, pages;
      var p := VirtPage(node, start, end - start, prot, flags, cid);
      if mapFixed {
        r, refilled := Replace(start, size, cid, multithreaded, region, multiset{node});
        if r != Ok { return r, false; }
        CutLeavesRoom(list, pages, start, end, region, refilled);
        mid := pages;
        r := Link(p, true);
      } else {
        r := Link(p, false);
      }
      if r == Ok { LinkOverrides(list, mid, pages, start, end, InfoOf(p), region, refilled); }
    }

    /** Inserts `p` and counts its node as linked. */
    method Link(p: VirtPage, mapFixed: bool) returns (r: Outcome)
      requires Sorted(pages) && p.size > 0 && ConservedWith(multiset{p.node})
      requires mapFixed ==> NoOverlap(pages, p.start, End(p))
      modifies `pages
      ensures r == InsertOutcome(old(pages), p.start, p.start + p.size)
      ensures r == Ok ==>
        && Overridden(old(pages), pages, p.start, p.start + p.size, InfoOf(p), 0, false)
        && LinkedIn(old(pages), pages, p.start, End(p), InfoOf(p)) && ConservedWith(multiset{})
      ensures r != Ok ==> pages == old(pages)
    {
      var at;
      r, at := Insert(p, mapFixed);
      if r == Ok {
        InsertOverrides(old(pages), at, p);
        InsertNodes(old(pages), at, p);
      }
    }

    /** `add_page`: takes a node, records the range, and gives the node back if that is refused. */
    method AddPage(start: int, size: nat, prot: int, flags: int, cid: int, mapFixed: bool, multithreaded: bool,
                   region: int)
      returns (r: Outcome, refilled: bool, ghost mid: seq<VirtPage>, ghost at: int)
      requires Sorted(pages) && ConservedWith(multiset{}) && size > 0
      requires |free| <= 1 ==>
        && FreshRegion(pages, nodes, region)
        && (start + RoundUp(size) <= region || region + REFILL_BYTES <= start)
      modifies this
      ensures Supplied(old(pages), mid, region, old(free) == [], at)
      ensures r == AddOutcome(mid, start, start + RoundUp(size), cid, mapFixed, multithreaded)
      ensures var hi := start + RoundUp(size);
              r == Ok <==> Recordable(old(pages), start, hi, cid, mapFixed, multithreaded, region, old(free) == [])
      ensures r == Ok ==>
        Overridden(old(pages), pages, start, start + RoundUp(size), Mapped(prot, flags, cid), region, refilled)
      ensures r == Ok && !mapFixed ==>
        LinkedIn(mid, pages, start, start + RoundUp(size), Mapped(prot, flags, cid)) && refilled == (old(free) == [])
      ensures r == Refused ==> pages == mid
      ensures r != Trap ==> ConservedWith(multiset{})
      ensures nodes == old(nodes) + (if refilled then RegionNodes(region) else {})
      ensures r != Trap ==> KeepsRoots(old(pages), pages, region)
      ensures r == Ok ==> OthersKept(old(pages), pages, cid)
    {
      var node, first;
      node, first, at := Alloc(region, multiset{});
      mid := pages;
      RecordExactly(old(pages), mid, start, size, cid, mapFixed, multithreaded, region, first, at);
      var second;
      r, second := AddLocked(node, start, size, prot, flags, cid, mapFixed, multithreaded, region);
      refilled := first || second;
      if r == Ok {
        var info := Mapped(prot, flags, cid);
        RecordEffect(old(pages), mid, pages, start, size, info, cid, mapFixed, multithreaded, region, first, at,
                     second);
      }
      if r == Refused {
        SupplyKeepsRoots(old(pages), mid, region, first, at);
        FreeNode(node, multiset{});
      }
    }

    /** The group that records address `a` for `cid` (or for anyone, if `cid` is the wildcard), or -1. */
    method LookupAddr(a: int, cid: int) returns (i: int)
      requires Sorted(pages)
      ensures i == -1 || (0 <= i < |pages| && Covers(pages[i], a) && At(pages, a) == InfoOf(pages[i]))
      ensures i >= 0 <==> At(pages, a).Mapped? && (cid == ANYONE || At(pages, a).cid == cid)
    {
      i := 0;
      while i < |pages|
        invariant 0 <= i <= |pages|
        invariant forall t | 0 <= t < i :: Covers(pages[t], a) ==> cid != ANYONE && pages[t].cid != cid
      {
        if Covers(pages[i], a) && (cid == ANYONE || pages[i].cid == cid) {
          AtGroup(pages, i, a);
          return;
        }
        i := i + 1;
      }
      i := -1;
      if At(pages, a).Mapped? { ghost var t := AtSome(pages, a); }
    }

    /** The first group of a range that `cid` owns from end to end, or -1. */
    method LookupRange(lo: int, size: nat, cid: int) returns (r: Outcome, i: int)
      requires Sorted(pages)
      ensures r == Trap <==> pages == []
      ensures r == Ok <==> OwnedBy(pages, lo, lo + (if size == 0 then 1 else size), cid)
      ensures r == Ok ==> 0 <= i < |pages| && Covers(pages[i], lo)
    {
      ghost var hi := lo + if size == 0 then 1 else size;
      if pages == [] {
        assert !At(pages, lo).Mapped?;
        return Trap, -1;
      }
      i := 0;
      while i < |pages| && !Covers(pages[i], lo)
        invariant 0 <= i <= |pages|
        invariant forall t | 0 <= t < i :: !Covers(pages[t], lo)
      {
        i := i + 1;
      }
      if i == |pages| {
        AtNone(pages, lo);
        return Refused, -1;
      }
      AtGroup(pages, i, lo);
      if pages[i].cid != cid { return Refused, -1; }
      RunIsOwnership(pages, i, lo, hi, cid);
      if End(pages[i]) >= lo + size {
        assert ReachesAt(pages, i, i, hi, cid);
        return Ok, i;
      }
      var found, k := FollowRun(pages, i, lo + size, cid);
      return if found then Ok else Refused, if found then i else -1;
    }

    /** Whether every group that meets the range belongs to `cid`. */
    method LookupRangeAllowGaps(lo: int, size: nat, cid: int) returns (ok: bool)
      ensures ok == Clearable(pages, lo, lo + size, cid)
    {
      var i := 0;
      while i < |pages|
        invariant 0 <= i <= |pages|
        invariant forall t | 0 <= t < i :: Overlap(pages[t], lo, lo + size) ==> pages[t].cid == cid
      {
        if Overlap(pages[i], lo, lo + size) && pages[i].cid != cid { return false; }
        i := i + 1;
      }
      return true;
    }

    /** Splits group `j` into its part before `lo`, `piece` on [lo, hi), and its part from `hi` on, kept in `back`. */
    method SplitAround(j: int, lo: int, hi: int, piece: VirtPage, back: int, ghost taken: multiset<int>)
      requires Sorted(pages) && 0 <= j < |pages| && pages[j].start <= lo < hi <= End(pages[j])
      requires piece.start == lo && piece.size == hi - lo && ConservedWith(taken)
      requires Nodes(Front(pages[j], lo)) + multiset{piece.node} + Nodes(Back(pages[j], hi, back))
               == multiset{pages[j].node} + taken
      modifies `pages
      ensures Overridden(old(pages), pages, lo, hi, InfoOf(piece), 0, false) && ConservedWith(multiset{})
    {
      RecolourOverrides(pages, j, lo, hi, piece, back);
      RecolourNodes(pages, j, lo, hi, piece, back);
      Exchange(Nodes(Recoloured(pages, j, lo, hi, piece, back)), Nodes(pages), multiset{pages[j].node}, taken,
               multiset(free), multiset(nodes));
      pages := Recoloured(pages, j, lo, hi, piece, back);
    }

    /** The range reaches one end of group `j`: one new node, for the part before or after it. */
    method ProtectEnd(j: int, lo: int, hi: int, prot: int, cid: int, region: int) returns (refilled: bool)
      requires Sorted(pages) && 0 <= j < |pages| && pages[j].start <= lo < hi <= End(pages[j]) && pages[j].cid == cid
      requires (lo == pages[j].start) != (hi == End(pages[j]))
      requires ConservedWith(multiset{}) && (free == [] ==> FreshRegion(pages, nodes, region))
      modifies this
      ensures Overridden(old(pages), pages, lo, hi, Mapped(prot, old(pages)[j].flags, cid), region, refilled)
      ensures ConservedWith(multiset{}) && (refilled ==> |old(free)| <= 1)
      ensures nodes == old(nodes) + (if refilled then RegionNodes(region) else {})
    {
      ghost var list := pages;
      var g := pages[j];
      var node, at;
      node, refilled, at := Alloc(region, multiset{});
      ghost var mid := pages;
      ShiftIndex(list, pages, region, refilled, at, j);
      if lo == g.start {
        assert Ids(Back(g, hi, node)) == [node];
        SplitAround(Shift(j, refilled, at), lo, hi, g.(prot := prot, size := hi - lo), node, multiset{node});
      } else {
        assert Ids(Front(g, lo)) == [g.node];
        SplitAround(Shift(j, refilled, at), lo, hi, VirtPage(node, lo, hi - lo, prot, g.flags, cid), 0, multiset{node});
      }
      RefillFirst(list, mid, pages, lo, hi, Mapped(prot, g.flags, cid), region, refilled, at, false);
    }

    /** Takes two spare nodes; at most one of the two can need a refill. */
    method AllocTwo(region: int) returns (n1: int, n2: int, refilled: bool, at: int)
      requires Sorted(pages) && ConservedWith(multiset{}) && (|free| <= 1 ==> FreshRegion(pages, nodes, region))
      modifies this
      ensures Supplied(old(pages), pages, region, refilled, at) && Sorted(pages) && (refilled ==> |old(free)| <= 1)
      ensures ConservedWith(multiset{n1} + multiset{n2})
      ensures nodes == old(nodes) + (if refilled then RegionNodes(region) else {})
    {
      n1, refilled, at := Alloc(region, multiset{});
      assert multiset{} + multiset{n1} == multiset{n1};
      if refilled {
        var again, unused;
        n2, again, unused := Alloc(region, multiset{n1});
      } else {
        n2, refilled, at := Alloc(region, multiset{n1});
      }
    }

    /** The range lies strictly inside group `j`: two new nodes. */
    method ProtectMiddle(j: int, lo: int, hi: int, prot: int, cid: int, region: int) returns (refilled: bool)
      requires Sorted(pages) && 0 <= j < |pages| && pages[j].start < lo < hi < End(pages[j]) && pages[j].cid == cid
      requires ConservedWith(multiset{}) && (|free| <= 1 ==> FreshRegion(pages, nodes, region))
      modifies this
      ensures Overridden(old(pages), pages, lo, hi, Mapped(prot, old(pages)[j].flags, cid), region, refilled)
      ensures ConservedWith(multiset{}) && (refilled ==> |old(free)| <= 1)
      ensures nodes == old(nodes) + (if refilled then RegionNodes(region) else {})
    {
      ghost var list := pages;
      var g := pages[j];
      var n1, n2, at;
      n1, n2, refilled, at := AllocTwo(region);
      ghost var mid := pages;
      ShiftIndex(list, pages, region, refilled, at, j);
      assert Ids(Front(g, lo)) == [g.node] && Ids(Back(g, hi, n2)) == [n2];
      SplitAround(Shift(j, refilled, at), lo, hi, VirtPage(n1, lo, hi - lo, prot, g.flags, cid), n2,
                  multiset{n1} + multiset{n2});
      RefillFirst(list, mid, pages, lo, hi, Mapped(prot, g.flags, cid), region, refilled, at, false);
    }

    /** Records [lo, hi) of group `j` with protection `prot`. */
    method ProtectOne(j: int, lo: int, hi: int, prot: int, cid: int, region: int) returns (refilled: bool)
      requires Sorted(pages) && 0 <= j < |pages| && pages[j].start <= lo < hi <= End(pages[j]) && pages[j].cid == cid
      requires ConservedWith(multiset{}) && (|free| <= 1 ==> FreshRegion(pages, nodes, region))
      modifies this
      ensures Overridden(old(pages), pages, lo, hi, Mapped(prot, old(pages)[j].flags, cid), region, refilled)
      ensures ConservedWith(multiset{}) && (refilled ==> |old(free)| <= 1)
      ensures nodes == old(nodes) + (if refilled then RegionNodes(region) else {})
    {
      var g := pages[j];
      if lo == g.start && hi == End(g) {
        refilled := false;
        NodesOne(g);
        SplitAround(j, lo, hi, g.(prot := prot), 0, multiset{});
      } else if lo > g.start && hi < End(g) {
        refilled := ProtectMiddle(j, lo, hi, prot, cid, region);
      } else {
        refilled := ProtectEnd(j, lo, hi, prot, cid, region);
      }
    }

    /** Links [lo, hi), where nothing is mapped, in after the first group, whatever lies between. */
    method LinkAfterHead(lo: int, hi: int, prot: int, cid: int, region: int) returns (refilled: bool)
      requires Sorted(pages) && pages != [] && End(pages[0]) <= lo < hi && NoOverlap(pages, lo, hi)
      requires |pages| == 1 ==> free != []
      requires ConservedWith(multiset{})
               && (free == [] ==> FreshRegion(pages, nodes, region) && (hi <= region || region + REFILL_BYTES <= lo))
      modifies this
      ensures Disjoint(pages) && ConservedWith(multiset{}) && refilled == (old(free) == [])
      ensures Protected(old(pages), pages, lo, hi, hi, Mapped(prot, old(pages)[0].flags, cid), region, refilled)
      ensures Sorted(pages) <==> forall a | End(old(pages)[0]) <= a < lo ::
              WithRefill(old(pages), region, refilled, a) == Unmapped
      ensures nodes == old(nodes) + (if refilled then RegionNodes(region) else {})
    {
      ghost var list := pages;
      var g := pages[0];
      assert |pages| > 1 ==> !Overlap(pages[1], lo, hi);
      var node, at;
      node, refilled, at := Alloc(region, multiset{});
      ghost var mid := pages;
      var d, p := Shift(0, refilled, at), VirtPage(node, lo, hi - lo, prot, g.flags, cid);
      HeadLinkMap(list, mid, p, region, refilled, at);
      HeadLinkOrder(list, mid, p, region, refilled, at);
      LinkAt(d + 1, p, multiset{});
    }

    /** Changes the protection of a range that spans several groups: removes it and links it back in as one. */
    method ProtectMany(start: int, size: nat, prot: int, cid: int, region: int) returns (r: Outcome, refilled: bool)
      requires Sorted(pages) && size > 0 && !InOneGroup(pages, start, start + RoundUp(size))
      requires ConservedWith(multiset{}) && (free == [] ==> FreshRegion(pages, nodes, region))
      modifies this
      ensures r == RemoveOutcome(old(pages), start, size, cid)
      ensures r == Ok ==>
        && old(pages) != [] && Disjoint(pages)
        && Protected(old(pages), pages, start, start + size, start + RoundUp(size),
                     Mapped(prot, old(pages)[0].flags, cid), region, refilled)
        && (Sorted(pages) <==> forall a | End(old(pages)[0]) <= a < start ::
            WithRefill(old(pages), region, refilled, a) == Unmapped)
      ensures r != Ok ==> pages == old(pages) && free == old(free)
      ensures ConservedWith(multiset{}) && KeepsRoots(old(pages), pages, region) && (refilled ==> old(free) == [])
      ensures OthersKept(old(pages), pages, cid)
      ensures nodes == old(nodes) + (if refilled then RegionNodes(region) else {})
    {
      ghost var list, end := pages, start + RoundUp(size);
      r, refilled := RemoveLocked(start, size, cid, region, multiset{});
      if r == Ok {
        ghost var mid := pages;
        HeadBefore(list, start, end, cid);
        CutLeavesRoom(list, mid, start, end, region, false);
        if old(free) == [] {
          OwnedApart(list, start, end, cid, region);
          CutKeepsFresh(list, mid, start, end, region);
        }
        assert nodes == old(nodes);
        NodeIsSpare(list, old(free), pages, free, nodes);
        refilled := LinkAfterHead(start, start + size, prot, cid, region);
        ghost var info := Mapped(prot, list[0].flags, cid);
        ProtectKeepsRoots(list, mid, pages, start, size, info, region, refilled);
        ProtectKeepsOthers(list, pages, start, start + size, end, info, region, refilled, cid);
      }
    }

    /** `update_mprotect`. */
    method UpdateMprotect(start: int, size: nat, prot: int, cid: int, region: int) returns (r: Outcome, refilled: bool)
      requires Sorted(pages) && cid != ANYONE
      requires ConservedWith(multiset{}) && (|free| <= 1 ==> FreshRegion(pages, nodes, region))
      modifies this
      ensures r == ProtectOutcome(old(pages), start, size, cid)
      ensures r == Ok <==> Protectable(old(pages), start, size, cid)
      ensures r == Trap <==>
        && size > 0 && OwnedAt(old(pages), start, cid) && !InOneGroup(old(pages), start, start + size)
        && |old(pages)| >= 2 && start % PAGE != 0
      ensures r == Ok && InOneGroup(old(pages), start, start + size) ==>
        && At(old(pages), start).Mapped?
        && Overridden(old(pages), pages, start, start + size,
                      Mapped(prot, At(old(pages), start).flags, cid), region, refilled)
      ensures r == Ok && !InOneGroup(old(pages), start, start + size) ==>
        && old(pages) != [] && Disjoint(pages)
        && Protected(old(pages), pages, start, start + size, start + RoundUp(size),
                     Mapped(prot, old(pages)[0].flags, cid), region, refilled)
        && (Sorted(pages) <==> forall a | End(old(pages)[0]) <= a < start ::
            WithRefill(old(pages), region, refilled, a) == Unmapped)
      ensures r != Ok ==> pages == old(pages) && free == old(free)
      ensures ConservedWith(multiset{}) && KeepsRoots(old(pages), pages, region) && (refilled ==> |old(free)| <= 1)
      ensures OthersKept(old(pages), pages, cid)
      ensures nodes == old(nodes) + (if refilled then RegionNodes(region) else {})
    {
      ProtectExactly(pages, start, size, cid);
      var i := LookupAddr(start, cid);
      if i < 0 || size == 0 { return Refused, false; }
      OneGroupIs(pages, i, start, start + size);
      OneGroupIs(pages, i, start, start + RoundUp(size));
      if start + size <= End(pages[i]) {
        ghost var info := Mapped(prot, pages[i].flags, cid);
        OneGroupOwned(pages, start, start + size, cid);
        refilled := ProtectOne(i, start, start + size, prot, cid, region);
        OwnedOverrideKeepsRoots(old(pages), pages, start, start + size, info, region, refilled);
        OverrideKeepsOthers(old(pages), pages, start, start + size, info, region, refilled, cid);
        return Ok, refilled;
      }
      r, refilled := ProtectMany(start, size, prot, cid, region);
    }

    /** Shortens group `d` to `lo` and links its part from `hi` on in after it, in `node`. */
    method SplitOff(d: int, lo: int, hi: int, node: int, ghost region: int)
      requires Sorted(pages) && 0 <= d < |pages| && pages[d].start < lo < hi < End(pages[d])
      requires ConservedWith(multiset{node})
      modifies `pages
      ensures CutOut(old(pages), pages, lo, hi, region, false) && ConservedWith(multiset{})
    {
      ghost var mid := pages;
      var g := pages[d];
      MeetsOne(mid, d, lo, hi);
      TrimCutsOut(mid, d, d, lo, hi, node, region);
      Change(d, g.(size := lo - g.start), multiset{node});
      LinkAt(d + 1, Tail(g, hi, node), multiset{});
      assert pages == Trimmed(mid, d, d, lo, hi, node);
    }

    /** Takes [lo, hi), which does not reach the end of group `i`, out of it: the rest gets a node of its own. */
    method ShrinkInside(i: int, lo: int, hi: int, region: int) returns (refilled: bool)
      requires Sorted(pages) && 0 <= i < |pages| && pages[i].start < lo < hi < End(pages[i])
      requires ConservedWith(multiset{}) && (free == [] ==> FreshRegion(pages, nodes, region))
      modifies this
      ensures CutOut(old(pages), pages, lo, hi, region, refilled) && ConservedWith(multiset{})
      ensures refilled ==> old(free) == []
      ensures nodes == old(nodes) + (if refilled then RegionNodes(region) else {})
    {
      ghost var list := pages;
      var g := pages[i];
      var node, at;
      node, refilled, at := Alloc(region, multiset{});
      ghost var mid := pages;
      var d := Shift(i, refilled, at);
      ShiftIndex(list, mid, region, refilled, at, i);
      SplitOff(d, lo, hi, node, region);
      CutAfterRefill(list, mid, pages, lo, hi, region, refilled, at);
    }

    /** Lets group `i` reach up to `hi`, where nothing else is mapped. */
    method Grow(i: int, hi: int, ghost region: int)
      requires Sorted(pages) && 0 <= i < |pages| && End(pages[i]) < hi && (i + 1 < |pages| ==> hi <= pages[i + 1].start)
      requires ConservedWith(multiset{})
      modifies `pages
      ensures Overridden(old(pages), pages, End(old(pages)[i]), hi, InfoOf(old(pages)[i]), region, false)
      ensures End(old(pages)[i]) % PAGE == 0 && hi % PAGE == 0 ==> KeepsRoots(old(pages), pages, region)
      ensures OthersKept(old(pages), pages, old(pages)[i].cid)
      ensures ConservedWith(multiset{})
    {
      var g := pages[i];
      TailIsFree(pages, i, End(g), hi);
      GrowOverrides(pages, i, hi);
      Change(i, g.(size := hi - g.start), multiset{});
      GrowKeepsRoots(old(pages), pages, End(g), hi, InfoOf(g), region);
      OverrideKeepsOthers(old(pages), pages, End(g), hi, InfoOf(g), region, false, g.cid);
    }

    /** Takes [lo, hi) out of group `i`, up to its end or inside it. */
    method Shrink(i: int, lo: int, hi: int, region: int) returns (refilled: bool)
      requires Sorted(pages) && 0 <= i < |pages| && pages[i].start < lo < hi <= End(pages[i])
      requires ConservedWith(multiset{}) && (free == [] ==> FreshRegion(pages, nodes, region))
      modifies this
      ensures CutOut(old(pages), pages, lo, hi, region, refilled) && ConservedWith(multiset{})
      ensures refilled ==> old(free) == []
      ensures nodes == old(nodes) + (if refilled then RegionNodes(region) else {})
      ensures lo % PAGE == 0 && hi % PAGE == 0 ==> KeepsRoots(old(pages), pages, region)
      ensures OthersKept(old(pages), pages, old(pages)[i].cid)
    {
      refilled := false;
      var g := pages[i];
      if hi == End(g) {
        MeetsOne(pages, i, lo, hi);
        TrimCutsOut(pages, i, i, lo, hi, 0, region);
        Change(i, g.(size := lo - g.start), multiset{});
        assert pages == Trimmed(old(pages), i, i, lo, hi, 0);
      } else {
        refilled := ShrinkInside(i, lo, hi, region);
      }
      ShrinkKeepsRoots(old(pages), pages, lo, hi, region, refilled);
      GroupIsNobodyElses(old(pages), i, lo, hi);
      CutKeepsOthers(old(pages), pages, lo, hi, region, refilled, g.cid);
    }

    /** `update_size`: grows or shrinks the range from `oldSize` to `newSize` bytes. */
    method UpdateSize(start: int, oldSize: nat, newSize: nat, cid: int, region: int) returns (r: Resize, refilled: bool)
      requires Sorted(pages) && cid != ANYONE && oldSize > 0 && newSize > 0
      requires ConservedWith(multiset{}) && (free == [] ==> FreshRegion(pages, nodes, region))
      modifies this
      ensures r == ResizeOutcome(old(pages), start, oldSize, newSize, cid)
      ensures oldSize < newSize ==>
        (r == Resized <==> SomeCanGrow(old(pages), start, start + oldSize, start + newSize, cid))
      ensures oldSize > newSize ==> (r == Resized <==> SomeHolds(old(pages), start, start + oldSize, cid))
      ensures OthersKept(old(pages), pages, cid)
      ensures r == Resized && oldSize < newSize ==>
        Overridden(old(pages), pages, start + oldSize, start + newSize, At(old(pages), start), region, false)
      ensures r == Resized && oldSize > newSize ==>
        CutOut(old(pages), pages, start + newSize, start + oldSize, region, refilled)
      ensures r != Resized || oldSize == newSize ==> pages == old(pages) && free == old(free)
      ensures start % PAGE == 0 && oldSize % PAGE == 0 && newSize % PAGE == 0 ==> KeepsRoots(old(pages), pages, region)
      ensures ConservedWith(multiset{})
      ensures nodes == old(nodes) + (if refilled then RegionNodes(region) else {})
    {
      refilled := false;
      ResizeExactly(pages, start, oldSize, newSize, cid);
      var i := LookupAddr(start, cid);
      if i < 0 { return NotOwned, false; }
      if oldSize == newSize { return Resized, false; }
      var g, oldEnd, newEnd := pages[i], start + oldSize, start + newSize;
      OneGroupIs(pages, i, start, oldEnd);
      if oldEnd > End(g) { return NotOwned, false; }
      AlignedSum(start, oldSize);
      AlignedSum(start, newSize);
      if oldSize < newSize {
        TailIsFree(pages, i, oldEnd, newEnd);
        if End(g) != oldEnd || (i + 1 < |pages| && newEnd > pages[i + 1].start) { return Blocked, false; }
        Grow(i, newEnd, region);
      } else {
        refilled := Shrink(i, newEnd, oldEnd, region);
      }
      r := Resized;
    }

    /** A fixed mapping request, from the ownership check to the record of the new mapping.  The record must
        succeed: a refusal there is a failed assertion. */
    method MapFixed(start: int, size: nat, prot: int, flags: int, cid: int, multithreaded: bool, region: int)
      returns (r: Outcome, refilled: bool)
      requires Sorted(pages) && ConservedWith(multiset{})
      requires |free| <= 1 ==>
        && FreshRegion(pages, nodes, region)
        && (start + RoundUp(size) <= region || region + REFILL_BYTES <= start)
      modifies this
      ensures r == MapFixedOutcome(old(pages), start, size, cid, multithreaded, region, old(free) == [])
      ensures Rooted(old(pages)) && !multithreaded ==> r != Trap
      ensures r != Trap ==> KeepsRoots(old(pages), pages, region) && OthersKept(old(pages), pages, cid)
      ensures r == Ok ==>
        && Overridden(old(pages), pages, start, start + RoundUp(size), Mapped(prot, flags, cid), region, refilled)
        && ConservedWith(multiset{})
      ensures r == Ok && PageGranular(old(pages)) && region % PAGE == 0 ==> PageGranular(pages)
      ensures r == Refused ==> pages == old(pages) && free == old(free) && nodes == old(nodes)
      ensures nodes == old(nodes) + (if refilled then RegionNodes(region) else {})
    {
      RootedNeverTraps(pages, start, size, cid);
      if size == 0 || start % PAGE != 0 { return Refused, false; }
      var ok, i;
      if multithreaded {
        r, i := LookupRange(start, size, cid);
        if r != Ok { return r, false; }
      } else {
        ok := LookupRangeAllowGaps(start, size, cid);
        if !ok { return Refused, false; }
      }
      ghost var list, mid, at := pages, pages, 0;
      r, refilled, mid, at := AddPage(start, size, prot, flags, cid, true, multithreaded, region);
      CheckThenAdd(list, mid, start, size, cid, multithreaded, region, old(free) == [], at);
      if r != Ok { return Trap, refilled; }
      OverrideGranular(list, pages, start, size, Mapped(prot, flags, cid), region, refilled);
    }
  }
}
