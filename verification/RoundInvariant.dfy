/** What every reachable state of the round protocol satisfies. */
module RoundInvariant {
  import opened BreakpointTable
  import opened RoundProtocol

  // ---------------------------------------------------------------- invariant

  /** The position of a controller phase in `add_breakpoint_wrapper`. */
  function CRank(k: CPhase): nat {
    match k
    case CCheck => 0 case CSkip => 1 case CAnnounce => 2 case CPublish => 3 case CSignal => 4 case CAdd => 5
    case CDrop => 6 case CGlobal => 7 case CLock1 => 8 case CStore1 => 9 case CUnlock1 => 10 case CWait1 => 11
    case CClear => 12 case CLock2 => 13 case CStore2 => 14 case CUnlock2 => 15 case CRetire => 16
    case CWait2 => 17 case CRelease => 18
  }

  /** The position of a follower phase in `other_thread_add_breakpoint_wrapper`. */
  function FRank(f: FPhase): nat {
    match f
    case FWait1 => 0 case FPage => 1 case FLoad => 2 case FAdd(_) => 3 case FDrop(_) => 4 case FLock1 => 5
    case FTest1 => 6 case FDec1 => 7 case FUnlock1 => 8 case FWait2 => 9 case FLock2 => 10 case FTest2 => 11
    case FDec2 => 12 case FUnlock2 => 13
  }

  predicate HoldsHandler(ph: Phase) { ph.H? || ph.C? }

  predicate HoldsSync(ph: Phase) { ph.C? || ph.U? }

  predicate HoldsCount(ph: Phase) {
    || (ph.C? && (ph.k.CStore1? || ph.k.CUnlock1? || ph.k.CStore2? || ph.k.CUnlock2?))
    || (ph.F? && (6 <= FRank(ph.f) <= 8 || 11 <= FRank(ph.f)))
  }

  ghost predicate Holders(s: State, t: Tid) {
    && (HoldsHandler(s.At(t)) <==> s.handlerLock == Some(t))
    && (HoldsSync(s.At(t)) <==> s.syncLock == Some(t))
    && (HoldsCount(s.At(t)) <==> s.countLock == Some(t))
  }

  /** Who may be in which phase, as far as the thread list and the page go. */
  ghost predicate Placement(c: Config, s: State, t: Tid) {
    match s.At(t)
    case Out => true
    case H(_, p) => t in s.listed && p in c.pages
    case C(_, p) => t in s.listed && p in c.pages
    case F(_) => t in s.listed
    case U(u) => if u.ACheck? || u.ACopy? || u.AList? then t !in s.listed && t != 0
                 else if u.LRelease? then t !in s.listed else t in s.listed
  }

  /** A table that came from the recorded pages. */
  ghost predicate WellTable(c: Config, t: Table) {
    && Budgeted(c.cap, t) && t.statics == c.statics
    && forall i | 0 <= i < |t.dynamics| :: Recorded(c, t.dynamics[i])
  }

  ghost predicate Recorded(c: Config, e: seq<Addr>) {
    e != [] && PageOf(e[0]) in c.pages && e == c.pages[PageOf(e[0])]
  }

  ghost predicate WellTables(c: Config, s: State) {
    && WellTable(c, s.global) && (s.rounds > 0 ==> WellTable(c, s.base))
    && forall t | t in s.listed :: t in s.tables && WellTable(c, s.tables[t])
  }

  /** The progress of a round, seen from its controller. */
  datatype Stage = Quiet | Gather | Collect | Clear | Rearm | Drain | Done

  function StageOf(ph: Phase): Stage {
    if !ph.C? then Quiet
    else
      var r := CRank(ph.k);
      if r < 3 then Quiet else if r < 10 then Gather else if r < 12 then Collect else if r < 15 then Clear
      else if r < 17 then Rearm else if r < 18 then Drain else Done
  }

  function RoundStage(s: State): Stage {
    if s.syncLock.Some? then StageOf(s.At(s.syncLock.value)) else Quiet
  }

  /** Done with every shared access of the wrapper (the count mutex may still have to be given back). */
  predicate Outside(ph: Phase) { ph.Out? || (ph.F? && ph.f.FUnlock2?) }

  /** Has not decremented the counter for the first time in this round. */
  predicate FirstHalf(ph: Phase) { Outside(ph) || (ph.F? && FRank(ph.f) <= 7) }

  /** Has decremented it once and not twice. */
  predicate SecondHalf(ph: Phase) { ph.F? && 9 <= FRank(ph.f) <= 12 }

  /** The follower phases that can coexist with each stage. */
  predicate Allowed(st: Stage, ph: Phase) {
    match st
    case Quiet => true
    case Gather => Outside(ph) || ph == F(FWait1)
    case Collect => FirstHalf(ph) || (ph.F? && FRank(ph.f) <= 9)
    case Clear => ph == F(FUnlock1) || ph == F(FWait2)
    case Rearm => ph == F(FWait2)
    case Drain => SecondHalf(ph) || Outside(ph)
    case Done => Outside(ph)
  }

  /** A follower that still has to decrement the counter in this stage. */
  predicate Owes(st: Stage, ph: Phase) {
    match st
    case Collect => FirstHalf(ph)
    case Rearm => SecondHalf(ph)
    case Drain => SecondHalf(ph)
    case _ => false
  }

  predicate InAdd(ph: Phase) { ph.F? && (ph.f.FAdd? || ph.f.FDrop?) }

  /** A follower that has not finished `add_breakpoints` for this round. */
  predicate Fresh(st: Stage, ph: Phase) {
    (st.Gather? || st.Collect?) && (Outside(ph) || (ph.F? && FRank(ph.f) <= 4))
  }

  ghost function Debtors(s: State, o: Tid, st: Stage): set<Tid> {
    set t | t in s.listed && t != o && Owes(st, s.At(t))
  }

  /** The table `own` reaches when the eviction loop for page `p` runs to its end. */
  function Settled(c: Config, own: Table, p: Page): Table
    decreases |own.dynamics|
  {
    if Fits(c, own, p) || own.dynamics == [] then Placed(own, Instructions(c, p), false)
    else Settled(c, DropOldest(own), p)
  }

  ghost predicate FollowerOk(c: Config, s: State, p: Page, st: Stage, t: Tid) {
    FollowerFits(c, s.base, p, st, s.At(t), s.Own(t), s.rounds - s.Runs(t))
  }

  /** `due` is the number of rounds the follower has not run yet.  Part way through the eviction
      loop a table is still headed where the base table is headed. */
  ghost predicate FollowerFits(c: Config, base: Table, p: Page, st: Stage, ph: Phase, own: Table, due: int) {
    && Allowed(st, ph)
    && if Fresh(st, ph) then
         due == 1 && if InAdd(ph) then ph.f.q == p && Settled(c, own, p) == Settled(c, base, p) else own == base
       else due == 0 && own == Settled(c, base, p)
  }

  /** The shared words of an open round, as its controller `o` in phase `C(k, p)` left them. */
  predicate WordsFit(o: Tid, rank: nat, p: Page, controller: Tid, page: Option<Page>) {
    && controller == (if rank < 17 then o else 0)
    && page == (if 4 <= rank <= 12 then Some(p) else None)
  }

  ghost predicate TablesFit(c: Config, base: Table, rank: nat, p: Page, global: Table, own: Table, due: int) {
    && global == (if rank <= 7 then base else Settled(c, base, p))
    && (if rank <= 6 then due == 1 && Settled(c, own, p) == Settled(c, base, p)
        else due == 0 && own == Settled(c, base, p))
  }

  ghost predicate OpenRound(c: Config, s: State, o: Tid) {
    var ph := s.At(o);
    && ph.C? && CRank(ph.k) >= 3 && o in s.listed && s.rounds > 0
    && WordsFit(o, CRank(ph.k), ph.p, s.controller, s.page)
    && TablesFit(c, s.base, CRank(ph.k), ph.p, s.global, s.Own(o), s.rounds - s.Runs(o))
    && s.waiting == |Debtors(s, o, StageOf(ph))|
    && Followers(c, s, o, ph.p, StageOf(ph))
  }

  ghost predicate Followers(c: Config, s: State, o: Tid, p: Page, st: Stage) {
    forall t | t in s.listed && t != o :: FollowerOk(c, s, p, st, t)
  }

  ghost predicate NoRound(s: State) {
    && s.controller == 0 && s.page.None? && s.waiting == 0
    && forall t | t in s.listed :: s.Own(t) == s.global && s.Runs(t) == s.rounds
  }

  /** While no round is open no thread is inside the follower wrapper's shared accesses. */
  ghost predicate QuietPhase(s: State, t: Tid) {
    var ph := s.At(t);
    && (ph.F? ==> ph.f.FUnlock2?)
    && (ph == U(AList) ==> s.Own(t) == s.global && s.Runs(t) == s.rounds && t in s.tables)
  }

  ghost predicate AllQuiet(s: State) { forall u: Tid :: QuietPhase(s, u) }

  ghost predicate RoundOk(c: Config, s: State) {
    if RoundStage(s).Quiet? then NoRound(s) && AllQuiet(s)
    else OpenRound(c, s, s.syncLock.value)
  }

  ghost predicate Watches(c: Config, t: Table, p: Page) {
    p in c.pages && c.pages[p] in t.dynamics
  }

  ghost predicate ExecSafe(c: Config, s: State) {
    && (forall q | q in s.executable :: Watches(c, s.global, q))
    && (forall q, t | q in s.executable && t in s.listed :: Watches(c, s.Own(t), q))
    && forall t: Tid :: ExecPhase(c, s, t)
  }

  ghost predicate ExecPhase(c: Config, s: State, t: Tid) {
    match s.At(t)
    case H(HExec, p) => Watches(c, s.global, p)
    case C(CSkip, p) => Watches(c, s.global, p)
    case C(CDrop, p) => !Fits(c, s.Own(t), p) && OldestPage(s.Own(t)) !in s.executable
    case F(FDrop(q)) => !Fits(c, s.Own(t), q) && OldestPage(s.Own(t)) !in s.executable
    case _ => true
  }

  ghost predicate Inv(c: Config, s: State) {
    && 0 !in s.listed && (forall t: Tid :: Holders(s, t)) && (forall t: Tid :: Placement(c, s, t))
    && WellTables(c, s) && RoundOk(c, s) && ExecSafe(c, s)
  }

  // ---------------------------------------------------------------- tables

  /** The eviction loop computes the specified `Add`. */
  lemma {:induction false} SettledIsAdd(c: Config, t: Table, p: Page)
    requires WellFormed(c) && WellTable(c, t) && p in c.pages
    ensures Budgeted(c.cap, t) && 1 <= |c.pages[p]| <= t.maxDynamic
    ensures Settled(c, t, p) == Add(c.cap, t, c.pages[p])
    decreases |t.dynamics|
  {
    assert WatchablePage(c, p);
    if !Fits(c, t, p) {
      DropCommutesWithAdd(c.cap, t, c.pages[p]);
      DropKeepsWell(c, t, p);
      SettledIsAdd(c, DropOldest(t), p);
    }
  }

  lemma DropKeepsWell(c: Config, t: Table, p: Page)
    requires WellFormed(c) && WellTable(c, t) && p in c.pages && !Fits(c, t, p)
    ensures t.dynamics != [] && t.dynamics[0] != []
    ensures WellTable(c, DropOldest(t))
    ensures Settled(c, DropOldest(t), p) == Settled(c, t, p)
  {
    assert WatchablePage(c, p);
    if t.dynamics == [] { assert false; }
    DropKeepsBudget(c.cap, t);
    assert t.dynamics[0] in t.dynamics;
  }

  lemma PlaceKeepsWell(c: Config, t: Table, p: Page)
    requires WellFormed(c) && WellTable(c, t) && p in c.pages && Fits(c, t, p)
    ensures WellTable(c, Placed(t, Instructions(c, p), false))
  {
    assert WatchablePage(c, p);
    var page := c.pages[p];
    assert Recorded(c, page);
    TotalSplit(t.dynamics, [page]);
    TotalOne(page);
  }

  lemma {:induction false} SettledWatches(c: Config, t: Table, p: Page)
    requires p in c.pages
    ensures Watches(c, Settled(c, t, p), p)
    decreases |t.dynamics|
  {
    if Fits(c, t, p) || t.dynamics == [] {
      assert Placed(t, Instructions(c, p), false).dynamics[|t.dynamics|] == c.pages[p];
    } else {
      SettledWatches(c, DropOldest(t), p);
    }
  }

  /** Only the dropped page stops being watched. */
  lemma DropKeepsWatching(c: Config, t: Table, q: Page)
    requires WellFormed(c) && WellTable(c, t) && Watches(c, t, q)
    requires t.dynamics != [] && OldestPage(t) != q
    ensures Watches(c, DropOldest(t), q)
  {
    assert Recorded(c, t.dynamics[0]);
    assert WatchablePage(c, q);
    var i :| 0 <= i < |t.dynamics| && t.dynamics[i] == c.pages[q];
    assert i != 0;
    assert DropOldest(t).dynamics[i - 1] == c.pages[q];
  }
}
