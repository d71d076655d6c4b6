/** A run of the page manager after which a fixed mapping that passes its check traps: four mappings next to each
    other, a change of protection over two of them that ends inside a page, and a request for the bytes that are
    left of that page. */
module FixedMappingRun {
  import opened PageMap
  import opened PageSpans
  import opened PageEdits
  import opened FixedMappings
  import opened PageManagers

  const APPLICATION: int := 1

  /** `k` one-page groups of the application from address 0 on, then the record of the refill at `region`. */
  ghost predicate Neighbours(list: seq<VirtPage>, k: nat, region: int) {
    && |list| == k + 1 && list[k] == OwnGroup(region)
    && forall i | 0 <= i < k :: list[i].start == i * PAGE && list[i].size == PAGE && list[i].cid == APPLICATION
  }

  lemma OneMore(list: seq<VirtPage>, list': seq<VirtPage>, k: nat, region: int, info: Info)
    requires Neighbours(list, k, region) && (k + 1) * PAGE <= region && info.Mapped? && info.cid == APPLICATION
    requires LinkedIn(list, list', k * PAGE, (k + 1) * PAGE, info)
    ensures Neighbours(list', k + 1, region)
  {
    var i, g :| FitsAt(list, i, g) && list' == Inserted(list, i, g)
      && g.start == k * PAGE && End(g) == (k + 1) * PAGE && InfoOf(g) == info;
    forall t | 0 <= t < i ensures End(list[t]) <= k * PAGE { assert list[..i][t] == list[t]; }
    forall t | i <= t < |list| ensures (k + 1) * PAGE <= list[t].start { assert list[i..][t - i] == list[t]; }
    var next := if i < |list| then list[i] else g;
    assert next.start == if i < k then i * PAGE else if i == k then region else k * PAGE;
  }

  lemma RoomForOne(list: seq<VirtPage>, k: nat, region: int)
    requires Neighbours(list, k, region) && (k + 1) * PAGE <= region
    ensures NoOverlap(list, k * PAGE, (k + 1) * PAGE)
  {
  }

  lemma SpareCount(list: seq<VirtPage>, spare: seq<int>, region: int)
    requires Nodes(list) + multiset(spare) == multiset(RegionNodes(region))
    ensures |list| + |spare| == NODES_PER_REFILL
  {
    NodesCount(list, spare, RegionNodes(region));
    ChainCounts(region, NODES_PER_REFILL);
  }

  /** Four mappings next to each other, each recorded by `add_page`. */
  method MapFour(region: int, prot: int, flags: int) returns (pm: PageManager)
    requires 4 * PAGE <= region && region % PAGE == 0
    ensures fresh(pm) && Sorted(pm.pages) && Rooted(pm.pages) && Neighbours(pm.pages, 4, region)
    ensures pm.ConservedWith(multiset{}) && pm.nodes == RegionNodes(region) && |pm.free| == NODES_PER_REFILL - 5
  {
    pm := new PageManager();
    for k := 0 to 4
      invariant fresh(pm) && Sorted(pm.pages) && Rooted(pm.pages) && pm.ConservedWith(multiset{})
      invariant if k == 0 then pm.pages == [] && pm.free == [] && pm.nodes == {}
                else Neighbours(pm.pages, k, region) && pm.nodes == RegionNodes(region)
                     && |pm.pages| + |pm.free| == NODES_PER_REFILL
    {
      MapNext(pm, k, region, prot, flags);
    }
  }

  method MapNext(pm: PageManager, k: nat, region: int, prot: int, flags: int)
    requires k < 4 && 4 * PAGE <= region && region % PAGE == 0
    requires Sorted(pm.pages) && Rooted(pm.pages) && pm.ConservedWith(multiset{})
    requires if k == 0 then pm.pages == [] && pm.free == [] && pm.nodes == {}
             else Neighbours(pm.pages, k, region) && pm.nodes == RegionNodes(region)
                  && |pm.pages| + |pm.free| == NODES_PER_REFILL
    modifies pm
    ensures Sorted(pm.pages) && Rooted(pm.pages) && pm.ConservedWith(multiset{})
    ensures Neighbours(pm.pages, k + 1, region) && pm.nodes == RegionNodes(region)
    ensures |pm.pages| + |pm.free| == NODES_PER_REFILL
  {
    ghost var list := pm.pages;
    assert RoundUp(PAGE) == PAGE;
    var r, refilled, mid, at := pm.AddPage(k * PAGE, PAGE, prot, flags, APPLICATION, false, false, region);
    assert Neighbours(mid, k, region);
    RoomForOne(mid, k, region);
    OneMore(mid, pm.pages, k, region, Mapped(prot, flags, APPLICATION));
    assert pm.nodes == RegionNodes(region);
    SpareCount(pm.pages, pm.free, region);
  }

  lemma OwnedRow(list: seq<VirtPage>, region: int)
    requires Sorted(list) && Neighbours(list, 4, region)
    ensures OwnedBy(list, PAGE, 3 * PAGE, APPLICATION)
  {
    forall a | PAGE <= a < 3 * PAGE ensures At(list, a).Mapped? && At(list, a).cid == APPLICATION {
      AtGroup(list, if a < 2 * PAGE then 1 else 2, a);
    }
  }

  /** A range over the second group and part of the third. */
  lemma ProtectAccepted(list: seq<VirtPage>, region: int)
    requires Sorted(list) && Neighbours(list, 4, region)
    ensures ProtectOutcome(list, PAGE, 5000, APPLICATION) == Ok && !InOneGroup(list, PAGE, PAGE + 5000)
  {
    assert RoundUp(5000) == 2 * PAGE;
    OwnedRow(list, region);
    AtGroup(list, 1, PAGE);
    OneGroupIs(list, 1, PAGE, PAGE + 5000);
    assert StartsIn(list, 1, PAGE);
  }

  /** The pages after the first refill stay free. */
  lemma NextRegionFresh(list: seq<VirtPage>, list': seq<VirtPage>, info: Info, region: int)
    requires Neighbours(list, 4, region) && 4 * PAGE <= region && Sorted(list')
    requires Protected(list, list', PAGE, PAGE + 5000, 3 * PAGE, info, region, false)
    ensures FreshRegion(list', RegionNodes(region), region + REFILL_BYTES)
  {
    var lo, hi := region + REFILL_BYTES, region + 2 * REFILL_BYTES;
    ChainCounts(region, NODES_PER_REFILL);
    forall i | 0 <= i < |list'| ensures !Overlap(list'[i], lo, hi) {
      var a := if list'[i].start < lo then lo else list'[i].start;
      if Covers(list'[i], a) { AtGroup(list', i, a); }
      if lo <= a < hi { AtNone(list, a); }
    }
  }

  /** With several threads the last request traps although it passed its check; with one it is accepted. */
  method ProtectThenMap(region: int, prot: int, flags: int, multithreaded: bool) returns (r: Outcome)
    requires 4 * PAGE <= region && region % PAGE == 0
    ensures r == if multithreaded then Trap else Ok
  {
    var pm := MapFour(region, prot, flags);
    ghost var list := pm.pages;
    ProtectAccepted(list, region);
    assert RoundUp(5000) == 2 * PAGE;
    var refilled;
    r, refilled := pm.UpdateMprotect(PAGE, 5000, prot, APPLICATION, region);
    ghost var info := Mapped(prot, list[0].flags, APPLICATION);
    NextRegionFresh(list, pm.pages, info, region);
    assert At(pm.pages, PAGE) == info;
    UnalignedProtectTraps(list, pm.pages, PAGE, 5000, info, region, false, 100, region + REFILL_BYTES, pm.free == []);
    assert RoundUp(100) == PAGE;
    r, refilled := pm.MapFixed(2 * PAGE, 100, prot, flags, APPLICATION, multithreaded, region + REFILL_BYTES);
  }
}
