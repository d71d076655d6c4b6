/** The in-place `hbreakpoint_controller`: two fixed-size page lists, two counters and the perf
    events the kernel holds for this thread, proved against `BreakpointTable`. */
module BreakpointController {
  import opened BreakpointTable
  import opened Verdicts

  datatype HBreakpoint = HBreakpoint(address: Addr, fd: int)

  /** `watched_page`: a buffer of slots of which the first `count` are in use. */
  datatype WatchedPage = WatchedPage(breakpoints: seq<HBreakpoint>, count: nat)

  ghost predicate Shaped(cap: nat, w: WatchedPage) {
    |w.breakpoints| == cap && w.count <= cap
  }

  ghost predicate AllShaped(cap: nat, ws: seq<WatchedPage>) {
    forall k {:trigger ws[k]} | 0 <= k < |ws| :: Shaped(cap, ws[k])
  }

  ghost function Addresses(w: WatchedPage): seq<Addr>
    requires w.count <= |w.breakpoints|
  {
    seq(w.count, i requires 0 <= i < w.count => w.breakpoints[i].address)
  }

  ghost function PagesOf(cap: nat, ws: seq<WatchedPage>): seq<seq<Addr>>
    requires AllShaped(cap, ws)
  {
    seq(|ws|, k requires 0 <= k < |ws| => Addresses(ws[k]))
  }

  ghost function Slot(ws: seq<WatchedPage>, k: int, i: int): HBreakpoint
    requires 0 <= k < |ws| && 0 <= i < ws[k].count <= |ws[k].breakpoints|
  {
    ws[k].breakpoints[i]
  }

  /** Every recorded breakpoint has its own open event on the recorded address. */
  ghost predicate Armed(cap: nat, ws: seq<WatchedPage>, events: map<int, Addr>)
    requires AllShaped(cap, ws)
  {
    && (forall k, i | 0 <= k < |ws| && 0 <= i < ws[k].count ::
          var b := Slot(ws, k, i); b.fd > 0 && b.fd in events && events[b.fd] == b.address)
    && (forall k, i, l, j | 0 <= k < |ws| && 0 <= i < ws[k].count && 0 <= l < |ws| && 0 <= j < ws[l].count
          :: Slot(ws, k, i).fd == Slot(ws, l, j).fd ==> k == l && i == j)
  }

  lemma FreshDescriptorExists(s: set<int>)
    ensures exists fd :: fd > 0 && fd !in s
  {
    var m := UpperBound(s);
    assert m > 0 && m !in s;
  }

  lemma {:induction false} UpperBound(s: set<int>) returns (m: int)
    ensures m > 0 && forall x | x in s :: x < m
    decreases s
  {
    m := 1;
    if x :| x in s {
      var rest := s - {x};
      assert s == rest + {x};
      var n := UpperBound(rest);
      m := if x < n then n else x + 1;
    }
  }

  /** Page permissions are process-wide; evicting a page takes its execute permission away. */
  class PagePermissions {
    var executable: set<nat>

    constructor ()
      ensures executable == {}
    {
      executable := {};
    }

    method SetNonExecutable(address: Addr)
      modifies this
      ensures executable == old(executable) - {PageOf(address)}
    {
      if PageOf(address) !in executable { return; }
      executable := executable - {PageOf(address)};
    }
  }

  /** The pages that lose execute permission while `n` breakpoints are made free. */
  ghost function Evicted(cap: nat, t: Table, n: nat): set<nat>
    requires Budgeted(cap, t) && n <= t.maxDynamic
  {
    OldestPages(t, |t.dynamics| - |Evict(cap, t, n).dynamics|)
  }

  /** The pages watched by the first `k` entries. */
  ghost function OldestPages(t: Table, k: int): set<nat>
    requires k <= |t.dynamics| && [] !in t.dynamics
  {
    set i | 0 <= i < k :: PageOf(t.dynamics[i][0])
  }

  lemma EvictedStep(cap: nat, t: Table, n: nat)
    requires Budgeted(cap, t) && n <= t.maxDynamic
    ensures t.used + n <= cap ==> Evicted(cap, t, n) == {}
    ensures t.used + n > cap ==>
            && t.dynamics != [] && Budgeted(cap, DropOldest(t))
            && Evicted(cap, t, n) == {PageOf(t.dynamics[0][0])} + Evicted(cap, DropOldest(t), n)
  {
    if t.used + n > cap {
      DropKeepsBudget(cap, t);
      var d, gone := DropOldest(t), |t.dynamics| - |Evict(cap, t, n).dynamics|;
      forall a ensures a in OldestPages(t, gone) <==> a == PageOf(t.dynamics[0][0]) || a in OldestPages(d, gone - 1) {
        if i :| 0 < i < gone && a == PageOf(t.dynamics[i][0]) { assert d.dynamics[i - 1] == t.dynamics[i]; }
        if i :| 0 <= i < gone - 1 && a == PageOf(d.dynamics[i][0]) { assert t.dynamics[i + 1] == d.dynamics[i]; }
      }
    }
  }

  lemma PagesAppend(cap: nat, ws: seq<WatchedPage>, w: WatchedPage)
    requires AllShaped(cap, ws) && Shaped(cap, w)
    ensures AllShaped(cap, ws + [w])
    ensures PagesOf(cap, ws + [w]) == PagesOf(cap, ws) + [Addresses(w)]
  {}

  lemma PagesTail(cap: nat, ws: seq<WatchedPage>)
    requires AllShaped(cap, ws) && ws != []
    ensures AllShaped(cap, ws[1..])
    ensures PagesOf(cap, ws[1..]) == PagesOf(cap, ws)[1..]
  {}

  class HBreakpointController {
    const cap: nat
    const statics: array<WatchedPage>
    const dynamics: array<WatchedPage>
    const perms: PagePermissions
    var staticSize: nat
    var dynamicSize: nat
    var used: int
    var maxDynamic: int
    /** The perf events the kernel holds open for this thread. */
    var events: map<int, Addr>

    ghost predicate Shape()
      reads this, statics, dynamics
    {
      && statics != dynamics
      && statics.Length == cap && dynamics.Length == cap
      && staticSize <= cap && dynamicSize <= cap
      && AllShaped(cap, statics[..]) && AllShaped(cap, dynamics[..])
    }

    ghost function Model(): Table
      requires Shape()
      reads this, statics, dynamics
    {
      Table(PagesOf(cap, statics[..staticSize]), PagesOf(cap, dynamics[..dynamicSize]), used, maxDynamic)
    }

    ghost function Watched(): (ws: seq<WatchedPage>)
      requires Shape()
      reads this, statics, dynamics
      ensures AllShaped(cap, ws)
    {
      statics[..staticSize] + dynamics[..dynamicSize]
    }

    /** The table is within budget, and exactly the recorded addresses carry a hardware event. */
    ghost predicate Valid()
      reads this, statics, dynamics
    {
      Shape() && Budgeted(cap, Model()) && Armed(cap, Watched(), events) && |events| == used
    }

    constructor (cap: nat, perms: PagePermissions)
      ensures Valid() && Model() == EmptyTable(cap) && events == map[]
      ensures this.cap == cap && this.perms == perms && fresh(statics) && fresh(dynamics)
    {
      this.cap := cap;
      this.perms := perms;
      var blank := WatchedPage(seq(cap, _ => HBreakpoint(0, 0)), 0);
      statics := new WatchedPage[cap](_ => blank);
      dynamics := new WatchedPage[cap](_ => blank);
      staticSize, dynamicSize, used, maxDynamic := 0, 0, 0, cap;
      events := map[];
    }

    /** `perf_event_open`: the kernel hands out a descriptor that is not in use. */
    method SetHBreakpoint(address: Addr) returns (fd: int)
      modifies this`events
      ensures fd > 0 && fd !in old(events) && events == old(events)[fd := address]
    {
      FreshDescriptorExists(events.Keys);
      fd :| fd > 0 && fd !in events.Keys;
      events := events[fd := address];
    }

    /** The loop of `add_watched_page`: arm one event per instruction in slot `at` of `list`. */
    method FillPage(list: array<WatchedPage>, at: nat, page: seq<Addr>, isStatic: bool,
                    ghost ws: seq<WatchedPage>, ghost pos: nat)
      requires Shape() && at < cap && list == (if isStatic then statics else dynamics)
      requires |page| <= cap && list[at].count == 0
      requires AllShaped(cap, ws) && pos <= |ws| && Armed(cap, ws, events)
      modifies this`events, this`used, this`maxDynamic, list
      ensures Shape() && list[..] == old(list[..])[at := list[at]] && Addresses(list[at]) == page
      ensures AllShaped(cap, ws[..pos] + [list[at]] + ws[pos..])
      ensures Armed(cap, ws[..pos] + [list[at]] + ws[pos..], events)
      ensures used == old(used) + |page| && |events| == old(|events|) + |page|
      ensures maxDynamic == old(maxDynamic) - if isStatic then |page| else 0
    {
      ghost var all := ws[..pos] + [list[at]] + ws[pos..];
      ArmedBlank(cap, ws, pos, list[at], events);
      for i := 0 to |page|
        invariant Shape() && list[..] == old(list[..])[at := list[at]] && list[at].count == i
        invariant forall j | 0 <= j < i :: list[at].breakpoints[j].address == page[j]
        invariant used == old(used) + i && |events| == old(|events|) + i
        invariant maxDynamic == old(maxDynamic) - if isStatic then i else 0
        invariant all == ws[..pos] + [list[at]] + ws[pos..] && AllShaped(cap, all) && Armed(cap, all, events)
      {
        ghost var live := events;
        var fd := SetHBreakpoint(page[i]);
        list[at] := WatchedPage(list[at].breakpoints[i := HBreakpoint(page[i], fd)], i + 1);
        used := used + 1;
        if isStatic { maxDynamic := maxDynamic - 1; }
        ArmedExtend(cap, all, pos, list[at], live, fd);
        all := all[pos := list[at]];
      }
      assert Addresses(list[at]) == page;
    }

    method AddWatchedPage(page: seq<Addr>, isStatic: bool)
      requires Valid() && page != [] && |page| + used <= cap
      requires isStatic ==> |page| <= maxDynamic
      modifies this, statics, dynamics
      ensures Valid() && (isStatic || staticSize == old(staticSize))
      ensures Model() == Placed(old(Model()), page, isStatic)
      ensures Model().statics == old(Model()).statics + (if isStatic then [page] else [])
      ensures Model().dynamics == old(Model()).dynamics + (if isStatic then [] else [page])
      ensures used == old(used) + |page| && maxDynamic == old(maxDynamic) - (if isStatic then |page| else 0)
    {
      PlacedKeepsBudget(cap, Model(), page, isStatic);
      if isStatic { AddStaticPage(page); } else { AddDynamicPage(page); }
    }

    method AddStaticPage(page: seq<Addr>)
      requires Valid() && |page| + used <= cap && staticSize < cap
      modifies this, statics
      ensures Shape() && Model() == Placed(old(Model()), page, true)
      ensures Armed(cap, Watched(), events) && |events| == used
    {
      ghost var ws, list := Watched(), statics[..staticSize];
      var at := staticSize;
      staticSize := staticSize + 1;
      statics[at] := statics[at].(count := 0);
      FillPage(statics, at, page, true, ws, at);
      assert statics[..staticSize] == list + [statics[at]];
      PagesAppend(cap, list, statics[at]);
      assert Watched() == ws[..at] + [statics[at]] + ws[at..];
    }

    method AddDynamicPage(page: seq<Addr>)
      requires Valid() && |page| + used <= cap && dynamicSize < cap
      modifies this, dynamics
      ensures Shape() && Model() == Placed(old(Model()), page, false) && staticSize == old(staticSize)
      ensures Armed(cap, Watched(), events) && |events| == used
    {
      ghost var ws, list := Watched(), dynamics[..dynamicSize];
      var at := dynamicSize;
      dynamicSize := dynamicSize + 1;
      dynamics[at] := dynamics[at].(count := 0);
      FillPage(dynamics, at, page, false, ws, |ws|);
      assert dynamics[..dynamicSize] == list + [dynamics[at]];
      PagesAppend(cap, list, dynamics[at]);
      assert Watched() == ws[..|ws|] + [dynamics[at]] + ws[|ws|..];
    }

    /** Close the events of page `pos` of the watched list; no other event is touched. */
    method CloseEvents(page: WatchedPage, ghost ws: seq<WatchedPage>, ghost pos: nat)
      requires AllShaped(cap, ws) && pos < |ws| && ws[pos] == page
      requires Armed(cap, ws, events) && |events| == used
      modifies this`events, this`used
      ensures AllShaped(cap, ws[..pos] + ws[pos + 1..]) && Armed(cap, ws[..pos] + ws[pos + 1..], events)
      ensures used == old(used) - page.count == |events|
    {
      for i := 0 to page.count
        invariant used == old(used) - i && |events| == used
        invariant forall fd | fd in events :: fd in old(events) && events[fd] == old(events)[fd]
        invariant forall fd | fd in old(events) ::
                    fd in events <==> forall j | 0 <= j < i :: page.breakpoints[j].fd != fd
      {
        var fd := page.breakpoints[i].fd;
        assert fd == Slot(ws, pos, i).fd;
        forall j | 0 <= j < i ensures page.breakpoints[j].fd != fd {
          assert page.breakpoints[j].fd == Slot(ws, pos, j).fd;
        }
        assert fd in events;
        ghost var was := events;
        events := events - {fd};
        assert events.Keys == was.Keys - {fd};
        used := used - 1;
      }
      ArmedRemove(cap, ws, pos, old(events), events);
    }

    /** Move all remaining watched pages one place back. */
    method ShiftPages()
      requires Shape() && dynamicSize > 0
      modifies this`dynamicSize, dynamics
      ensures Shape() && dynamics[..dynamicSize] == old(dynamics[..dynamicSize])[1..]
    {
      dynamicSize := dynamicSize - 1;
      for i := 0 to dynamicSize
        modifies dynamics
        invariant Shape() && forall k | 0 <= k < i :: dynamics[k] == old(dynamics[k + 1])
        invariant forall k | i <= k < cap :: dynamics[k] == old(dynamics[k])
      {
        assert i + 1 <= cap;
        dynamics[i] := dynamics[i + 1];
      }
    }

    /** Forget the oldest page and its events. */
    method DropPage()
      requires Valid() && dynamicSize > 0
      modifies this, dynamics
      ensures Valid() && Model() == DropOldest(old(Model())) && staticSize == old(staticSize)
    {
      ghost var t, ws := Model(), Watched();
      DropKeepsBudget(cap, t);
      PagesTail(cap, dynamics[..dynamicSize]);
      CloseEvents(dynamics[0], ws, staticSize);
      ShiftPages();
      assert Watched() == ws[..staticSize] + ws[staticSize + 1..];
    }

    /** Take the oldest page out: first make it non-executable, then close its events. */
    method RemoveLastPage()
      requires Valid() && dynamicSize > 0
      modifies this, dynamics, perms
      ensures Valid() && Model() == DropOldest(old(Model())) && staticSize == old(staticSize)
      ensures perms.executable == old(perms.executable) - {PageOf(old(Model()).dynamics[0][0])}
    {
      assert Model().dynamics[0] == Addresses(dynamics[0]) && Model().dynamics[0] in Model().dynamics;
      perms.SetNonExecutable(dynamics[0].breakpoints[0].address);
      DropPage();
    }

    method RemoveDynamicHBreakpoints(n: nat)
      requires Valid() && n <= maxDynamic
      modifies this, dynamics, perms
      ensures Valid() && Model() == Evict(cap, old(Model()), n) && staticSize == old(staticSize)
      ensures perms.executable == old(perms.executable) - Evicted(cap, old(Model()), n)
    {
      while cap - used < n
        invariant Valid() && maxDynamic == old(maxDynamic) && staticSize == old(staticSize)
        invariant Evict(cap, Model(), n) == Evict(cap, old(Model()), n)
        invariant perms.executable - Evicted(cap, Model(), n) == old(perms.executable) - Evicted(cap, old(Model()), n)
        decreases dynamicSize
      {
        assert Model().dynamics != [];
        ghost var t, gone := Model(), perms.executable;
        EvictedStep(cap, t, n);
        RemoveLastPage();
        assert perms.executable - Evicted(cap, Model(), n) == gone - Evicted(cap, t, n);
      }
      EvictedStep(cap, Model(), n);
    }

    /** A page with recorded instructions is refused exactly when it could never fit next to the
        static pages; otherwise the table becomes the specified one. */
    method AddBreakpoints(page: seq<Addr>, isStatic: bool) returns (r: Verdict)
      requires Valid() && page != []
      modifies this, statics, dynamics, perms
      ensures Valid()
      ensures r.Failed? <==> |page| > old(maxDynamic)
      ensures r.Failed? ==> Model() == old(Model()) && perms.executable == old(perms.executable)
      ensures r.Done? ==> Model() == (if isStatic then AddStatic(cap, old(Model()), page)
                                                else Add(cap, old(Model()), page))
      ensures r.Done? ==> perms.executable == old(perms.executable) - Evicted(cap, old(Model()), |page|)
    {
      var needed := |page|;
      TotalBoundsLength(Model().statics);
      if isStatic {
        if staticSize + needed > cap { return Failed; }
        if used + needed <= cap {
          if needed > maxDynamic { return Failed; }
          AddWatchedPage(page, true);
          return Done;
        }
        if needed > maxDynamic { return Failed; }
        RemoveDynamicHBreakpoints(needed);
        AddWatchedPage(page, true);
        return Done;
      }
      if needed > maxDynamic { return Failed; }
      if used + needed <= cap {
        AddWatchedPage(page, false);
        return Done;
      }
      RemoveDynamicHBreakpoints(needed);
      AddWatchedPage(page, false);
      return Done;
    }

    /** One list of `set_all_hbreakpoits`: reopen an event for every recorded address. */
    method ReplayList(list: array<WatchedPage>, size: nat, isStatic: bool)
      requires Shape() && list == (if isStatic then statics else dynamics)
      requires size == (if isStatic then staticSize else dynamicSize)
      requires Armed(cap, if isStatic then [] else statics[..staticSize], events)
      modifies this`events, this`used, this`maxDynamic, list
      ensures Shape() && PagesOf(cap, list[..size]) == old(PagesOf(cap, list[..size]))
      ensures Armed(cap, if isStatic then statics[..size] else Watched(), events)
      ensures used == old(used) + Total(PagesOf(cap, list[..size]))
      ensures |events| == old(|events|) + Total(PagesOf(cap, list[..size]))
      ensures maxDynamic == old(maxDynamic) - if isStatic then Total(PagesOf(cap, list[..size])) else 0
    {
      ghost var pages := PagesOf(cap, list[..size]);
      ghost var before := if isStatic then [] else statics[..staticSize];
      assert before + list[..0] == before;
      for p := 0 to size
        invariant Shape() && (isStatic || statics[..] == old(statics[..]))
        invariant PagesOf(cap, list[..size]) == pages
        invariant Armed(cap, before + list[..p], events)
        invariant used == old(used) + Total(pages[..p]) && |events| == old(|events|) + Total(pages[..p])
        invariant maxDynamic == old(maxDynamic) - if isStatic then Total(pages[..p]) else 0
      {
        ReplayPage(list, p, isStatic, before);
        assert pages[..p + 1] == pages[..p] + [pages[p]];
        TotalSplit(pages[..p], [pages[p]]);
        TotalOne(pages[p]);
      }
      assert pages[..size] == pages;
      assert isStatic ==> before + list[..size] == statics[..size];
    }

    method ReplayPage(list: array<WatchedPage>, p: nat, isStatic: bool, ghost before: seq<WatchedPage>)
      requires Shape() && list == (if isStatic then statics else dynamics)
      requires p < (if isStatic then staticSize else dynamicSize)
      requires AllShaped(cap, before)
      requires Armed(cap, before + list[..p], events)
      modifies this`events, this`used, this`maxDynamic, list
      ensures Shape() && Addresses(list[p]) == old(Addresses(list[p]))
      ensures forall k | 0 <= k < cap && k != p :: list[k] == old(list[k])
      ensures Armed(cap, before + list[..p + 1], events)
      ensures var n := |old(Addresses(list[p]))|;
              used == old(used) + n && |events| == old(|events|) + n
              && maxDynamic == old(maxDynamic) - if isStatic then n else 0
    {
      ghost var ws := before + list[..p];
      ghost var filled := list[p].(count := 0);
      ArmedBlank(cap, ws, |ws|, filled, events);
      assert ws[..|ws|] + [filled] + ws[|ws|..] == ws + [filled];
      var n := list[p].count;
      for i := 0 to n
        invariant Shape() && list[p].count == n
        invariant forall k | 0 <= k < cap && k != p :: list[k] == old(list[k])
        invariant forall j | 0 <= j < n :: list[p].breakpoints[j].address == old(list[p].breakpoints[j].address)
        invariant filled == list[p].(count := i)
        invariant Armed(cap, ws + [filled], events)
        invariant used == old(used) + i && |events| == old(|events|) + i
        invariant maxDynamic == old(maxDynamic) - if isStatic then i else 0
      {
        ghost var soFar, live := ws + [filled], events;
        var b := list[p].breakpoints[i];
        var fd := SetHBreakpoint(b.address);
        list[p] := list[p].(breakpoints := list[p].breakpoints[i := b.(fd := fd)]);
        filled := list[p].(count := i + 1);
        assert ws + [filled] == soFar[|ws| := filled];
        ArmedExtend(cap, soFar, |ws|, filled, live, fd);
        used := used + 1;
        if isStatic { maxDynamic := maxDynamic - 1; }
      }
      assert Addresses(list[p]) == old(Addresses(list[p]));
      assert before + list[..p + 1] == ws + [filled];
    }

    /** `set_all_hbreakpoits`, run by a forked child or a new thread on a copied table: nothing is
        armed yet, and afterwards exactly the copied table is.  Both closing assertions hold. */
    method SetAllHBreakpoints()
      requires Shape() && Budgeted(cap, Model()) && events == map[]
      modifies this`events, this`used, this`maxDynamic, statics, dynamics
      ensures Valid() && Model() == old(Model())
    {
      ghost var t := Model();
      var required, tempMaxDynamic := used, maxDynamic;
      used := 0;
      maxDynamic := cap;
      ReplayList(statics, staticSize, true);
      ReplayList(dynamics, dynamicSize, false);
      assert used == required;
      assert maxDynamic == tempMaxDynamic;
    }
  }

  lemma ArmedBlank(cap: nat, ws: seq<WatchedPage>, pos: nat, w: WatchedPage, events: map<int, Addr>)
    requires AllShaped(cap, ws)
    requires pos <= |ws| && Shaped(cap, w) && w.count == 0 && Armed(cap, ws, events)
    ensures AllShaped(cap, ws[..pos] + [w] + ws[pos..])
    ensures Armed(cap, ws[..pos] + [w] + ws[pos..], events)
  {
    var r := ws[..pos] + [w] + ws[pos..];
    forall k | 0 <= k < |r| ensures Shaped(cap, r[k]) && (k != pos ==> r[k] == ws[if k < pos then k else k - 1]) {}
    forall k, i | 0 <= k < |r| && 0 <= i < r[k].count
      ensures k != pos && Slot(r, k, i) == Slot(ws, if k < pos then k else k - 1, i)
    {}
  }

  lemma ArmedExtend(cap: nat, ws: seq<WatchedPage>, pos: nat, w: WatchedPage, events: map<int, Addr>, fd: int)
    requires AllShaped(cap, ws)
    requires pos < |ws| && Shaped(cap, w) && w.count == ws[pos].count + 1
    requires forall i | 0 <= i < ws[pos].count :: w.breakpoints[i] == ws[pos].breakpoints[i]
    requires w.breakpoints[ws[pos].count].fd == fd > 0 && fd !in events
    requires Armed(cap, ws, events)
    ensures Armed(cap, ws[pos := w], events[fd := w.breakpoints[ws[pos].count].address])
  {
    var r := ws[pos := w];
    forall k, i | 0 <= k < |r| && 0 <= i < r[k].count
      ensures if k == pos && i == ws[pos].count then Slot(r, k, i).fd == fd
              else i < ws[k].count && Slot(r, k, i) == Slot(ws, k, i) && Slot(r, k, i).fd != fd
    {}
  }

  lemma ArmedRemove(cap: nat, ws: seq<WatchedPage>, pos: nat, before: map<int, Addr>, after: map<int, Addr>)
    requires AllShaped(cap, ws)
    requires pos < |ws| && Armed(cap, ws, before)
    requires forall fd | fd in after :: fd in before && after[fd] == before[fd]
    requires forall fd | fd in before ::
               fd in after <==> forall j | 0 <= j < ws[pos].count :: ws[pos].breakpoints[j].fd != fd
    ensures AllShaped(cap, ws[..pos] + ws[pos + 1..])
    ensures Armed(cap, ws[..pos] + ws[pos + 1..], after)
  {
    var r := ws[..pos] + ws[pos + 1..];
    forall k | 0 <= k < |r| ensures Shaped(cap, r[k]) && r[k] == ws[if k < pos then k else k + 1] {}
    forall k, i | 0 <= k < |r| && 0 <= i < r[k].count
      ensures Slot(r, k, i) == Slot(ws, if k < pos then k else k + 1, i) && Slot(r, k, i).fd in after
    {
      var l := if k < pos then k else k + 1;
      var fd := Slot(ws, l, i).fd;
      forall j | 0 <= j < ws[pos].count ensures ws[pos].breakpoints[j].fd != fd {
        assert Slot(ws, pos, j).fd == ws[pos].breakpoints[j].fd;
      }
    }
  }
}
