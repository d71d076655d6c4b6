/** Summaries of single steps and the proof that each keeps the invariant.

  `Next` is only ever unfolded in the `...Effect` lemmas; everything else reasons from the summary
  of what the moving thread did and the fact that no other thread moved. */
module RoundSteps {
  import opened BreakpointTable
  import opened RoundProtocol
  import opened RoundInvariant

  // ---------------------------------------------------------------- frames

  /** Thread `u` is where it was, with the table and the run count it had. */
  ghost predicate Same(s: State, s': State, u: Tid) {
    && s'.At(u) == s.At(u) && s'.Own(u) == s.Own(u) && s'.Runs(u) == s.Runs(u)
    && (u in s'.listed <==> u in s.listed) && (u in s.tables ==> u in s'.tables)
  }

  ghost predicate OthersSame(s: State, s': State, t: Tid) {
    forall u: Tid | u != t :: Same(s, s', u)
  }

  /** How one mutex may move when thread `t` goes from not holding (holding) to holding (not holding). */
  predicate LockMove(lock: Option<Tid>, lock': Option<Tid>, t: Tid, held: bool, holds: bool) {
    if held == holds then lock' == lock
    else if holds then lock.None? && lock' == Some(t)
    else lock == Some(t) && lock'.None?
  }

  ghost predicate LockMoves(s: State, s': State, t: Tid) {
    && LockMove(s.handlerLock, s'.handlerLock, t, HoldsHandler(s.At(t)), HoldsHandler(s'.At(t)))
    && LockMove(s.syncLock, s'.syncLock, t, HoldsSync(s.At(t)), HoldsSync(s'.At(t)))
    && LockMove(s.countLock, s'.countLock, t, HoldsCount(s.At(t)), HoldsCount(s'.At(t)))
  }

  lemma HoldersKept(s: State, s': State, t: Tid)
    requires (forall u: Tid :: Holders(s, u)) && LockMoves(s, s', t) && OthersSame(s, s', t)
    ensures forall u: Tid :: Holders(s', u)
  {
    assert Holders(s, t);
    forall u: Tid ensures Holders(s', u) {
      assert Holders(s, u);
      assert u != t ==> Same(s, s', u);
    }
  }

  lemma PlacementKept(c: Config, s: State, s': State, t: Tid)
    requires (forall u: Tid :: Placement(c, s, u)) && OthersSame(s, s', t) && Placement(c, s', t)
    ensures forall u: Tid :: Placement(c, s', u)
  {
    forall u: Tid ensures Placement(c, s', u) {
      assert Placement(c, s, u);
      assert u != t ==> Same(s, s', u);
    }
  }

  lemma WellKept(c: Config, s: State, s': State, t: Tid)
    requires WellTables(c, s) && WellTable(c, s'.global) && OthersSame(s, s', t)
    requires (s'.base == s.base && s'.rounds == s.rounds) || s'.base == s.global
    requires t in s'.listed ==> t in s'.tables && WellTable(c, s'.Own(t))
    ensures WellTables(c, s')
  {
    forall u | u in s'.listed ensures u in s'.tables && WellTable(c, s'.tables[u]) {
      if u != t { assert Same(s, s', u) && s.Own(u) == s.tables[u] && s'.Own(u) == s'.tables[u]; }
    }
  }

  lemma ExecKept(c: Config, s: State, s': State, t: Tid)
    requires ExecSafe(c, s) && s'.executable <= s.executable && OthersSame(s, s', t)
    requires s'.global == s.global || (s'.global == s'.Own(t) && AllWatched(c, s'.Own(t), s'.executable))
    requires s'.global == s.global || forall u: Tid | u != t :: !HoldsHandler(s.At(u))
    requires ExecPhase(c, s', t) && (t in s'.listed ==> AllWatched(c, s'.Own(t), s'.executable))
    ensures ExecSafe(c, s')
  {
    forall u: Tid ensures ExecPhase(c, s', u) {
      assert ExecPhase(c, s, u);
      assert u != t ==> Same(s, s', u);
    }
    forall q, u | q in s'.executable && u in s'.listed ensures Watches(c, s'.Own(u), q) {
      if u != t { assert Same(s, s', u) && Watches(c, s.Own(u), q); }
    }
  }

  /** The parts of the invariant that only need the moving thread to be looked at. */
  lemma Reassemble(c: Config, s: State, s': State, t: Tid)
    requires Inv(c, s) && RoundOk(c, s') && ExecSafe(c, s')
    requires OthersSame(s, s', t) && LockMoves(s, s', t) && Placement(c, s', t) && WellTable(c, s'.global)
    requires (s'.base == s.base && s'.rounds == s.rounds) || s'.base == s.global
    requires t in s'.listed ==> t != 0 && t in s'.tables && WellTable(c, s'.Own(t))
    ensures Inv(c, s')
  {
    assert 0 !in s'.listed by { if t != 0 { assert Same(s, s', 0); } }
    HoldersKept(s, s', t);
    PlacementKept(c, s, s', t);
    WellKept(c, s, s', t);
  }

  // ---------------------------------------------------------------- follower steps

  predicate Plain(f: FPhase) { !f.FLoad? && !f.FAdd? && !f.FDrop? }

  predicate Decrements(f: FPhase) { f.FDec1? || f.FDec2? }

  /** The phase after a follower step that does not depend on the page. */
  function FSucc(f: FPhase): Phase
    requires Plain(f)
  {
    match f
    case FWait1 => F(FPage) case FPage => F(FLoad) case FLock1 => F(FTest1) case FTest1 => F(FDec1)
    case FDec1 => F(FUnlock1) case FUnlock1 => F(FWait2) case FWait2 => F(FLock2) case FLock2 => F(FTest2)
    case FTest2 => F(FDec2) case FDec2 => F(FUnlock2) case FUnlock2 => Out
  }

  /** What a follower step leaves alone. */
  ghost predicate FollowerShared(s: State, s': State, t: Tid) {
    && s'.listed == s.listed && s'.controller == s.controller && s'.page == s.page
    && s'.global == s.global && s'.base == s.base && s'.rounds == s.rounds
    && s'.syncLock == s.syncLock && (t in s.tables ==> t in s'.tables)
  }

  /** What it does to the thread itself, the counter and the executable pages. */
  ghost predicate FollowerDoes(c: Config, s: State, s': State, t: Tid, f: FPhase) {
    var own := s.Own(t);
    match f
    case FLoad => s.page.Some? ==> && s'.At(t) == F(FAdd(s.page.value)) && s'.Own(t) == own && s'.Runs(t) == s.Runs(t)
                                   && s'.executable == s.executable && s'.waiting == s.waiting
    case FAdd(q) =>
      && s'.waiting == s.waiting
      && if Fits(c, own, q)
         then && s'.At(t) == F(FLock1) && s'.Own(t) == Placed(own, Instructions(c, q), false)
              && s'.Runs(t) == s.Runs(t) + 1
              && s'.executable == s.executable
         else && s'.At(t) == F(FDrop(q)) && s'.Own(t) == own && s'.Runs(t) == s.Runs(t)
              && s'.executable == s.executable - {OldestPage(own)}
    case FDrop(q) => && s'.waiting == s.waiting && s'.At(t) == F(FAdd(q)) && s'.Own(t) == DropOldest(own)
                     && s'.Runs(t) == s.Runs(t) && s'.executable == s.executable
    case _ => && s'.At(t) == FSucc(f) && s'.Own(t) == own && s'.Runs(t) == s.Runs(t) && s'.executable == s.executable
              && s'.waiting == s.waiting - if Decrements(f) then 1 else 0
  }

  lemma FollowerEffect(c: Config, s: State, t: Tid, f: FPhase)
    ensures FollowerShared(s, FollowerNext(c, s, t, f), t)
    ensures FollowerDoes(c, s, FollowerNext(c, s, t, f), t, f)
  {
  }

  lemma FollowerSame(c: Config, s: State, t: Tid, f: FPhase, u: Tid)
    requires u != t
    ensures Same(s, FollowerNext(c, s, t, f), u)
  {
  }

  lemma FollowerLocks(c: Config, s: State, t: Tid, f: FPhase)
    requires s.At(t) == F(f) && Enabled(c, s, t, Run) && Holders(s, t)
    ensures LockMoves(s, FollowerNext(c, s, t, f), t)
  {
  }

  /** The stage facts a follower can rely on. */
  ghost predicate StageWords(s: State, p: Page, st: Stage) {
    && !st.Quiet? && (st.Gather? ==> s.waiting == 0) && (st.Collect? ==> s.page == Some(p))
    && (s.controller == 0 <==> st.Drain? || st.Done?)
  }

  /** Every step stays among the phases its stage allows, and the two decrements are exactly the
      moments a follower's debt is paid. */
  lemma PlainPhase(f: FPhase, st: Stage)
    requires Plain(f) && !st.Quiet?
    requires Allowed(st, F(f)) && (f.FWait1? ==> !st.Gather?) && (f.FWait2? ==> st.Drain? || st.Done?)
    ensures Allowed(st, FSucc(f)) && (Fresh(st, FSucc(f)) <==> Fresh(st, F(f)))
    ensures Owes(st, FSucc(f)) ==> Owes(st, F(f))
    ensures Decrements(f) <==> Owes(st, F(f)) && !Owes(st, FSucc(f))
  {
  }

  ghost predicate Pays(s: State, s': State, t: Tid, st: Stage) {
    && (Owes(st, s'.At(t)) ==> Owes(st, s.At(t)))
    && s'.waiting == s.waiting - if Owes(st, s.At(t)) && !Owes(st, s'.At(t)) then 1 else 0
  }

  lemma FollowerPlain(c: Config, s: State, s': State, t: Tid, f: FPhase, p: Page, st: Stage)
    requires Plain(f) && s.At(t) == F(f) && Enabled(c, s, t, Run) && FollowerOk(c, s, p, st, t) && StageWords(s, p, st)
    requires FollowerShared(s, s', t) && FollowerDoes(c, s, s', t, f)
    ensures FollowerOk(c, s', p, st, t) && Pays(s, s', t, st)
  {
    PlainPhase(f, st);
  }

  lemma FollowerAdds(c: Config, s: State, s': State, t: Tid, f: FPhase, p: Page, st: Stage)
    requires WellFormed(c) && WellTable(c, s.Own(t)) && p in c.pages && !Plain(f)
    requires s.At(t) == F(f) && FollowerOk(c, s, p, st, t) && StageWords(s, p, st) && ExecPhase(c, s, t)
    requires FollowerShared(s, s', t) && FollowerDoes(c, s, s', t, f)
    ensures FollowerOk(c, s', p, st, t) && Pays(s, s', t, st) && WellTable(c, s'.Own(t))
  {
    if f.FAdd? && Fits(c, s.Own(t), p) { PlaceKeepsWell(c, s.Own(t), p); }
    if f.FDrop? { DropKeepsWell(c, s.Own(t), p); }
  }

  lemma FollowerMoves(c: Config, s: State, s': State, t: Tid, f: FPhase, p: Page, st: Stage)
    requires WellFormed(c) && WellTable(c, s.Own(t)) && p in c.pages && Enabled(c, s, t, Run)
    requires s.At(t) == F(f) && FollowerOk(c, s, p, st, t) && StageWords(s, p, st) && ExecPhase(c, s, t)
    requires FollowerShared(s, s', t) && FollowerDoes(c, s, s', t, f)
    ensures FollowerOk(c, s', p, st, t) && Pays(s, s', t, st) && WellTable(c, s'.Own(t))
    ensures f.FLoad? ==> s.page.Some?
  {
    if Plain(f) { FollowerPlain(c, s, s', t, f, p, st); } else { FollowerAdds(c, s, s', t, f, p, st); }
  }

  /** Own-table changes that keep an executable page watched. */
  lemma OwnTableSafe(c: Config, own: Table, p: Page, q: Page)
    requires WellFormed(c) && WellTable(c, own) && Watches(c, own, q)
    ensures Watches(c, Placed(own, Instructions(c, p), false), q)
    ensures OldestPage(own) != q ==> Watches(c, DropOldest(own), q)
  {
    if OldestPage(own) != q && own.dynamics != [] { DropKeepsWatching(c, own, q); }
  }

  ghost predicate AllWatched(c: Config, own: Table, pages: set<Page>) {
    forall q | q in pages :: Watches(c, own, q)
  }

  /** The three ways a thread's table and the executable pages change together. */
  ghost predicate SafeChange(c: Config, own: Table, own': Table, pages: set<Page>, pages': set<Page>, p: Page) {
    || (own' == own && pages' <= pages)
    || (own' == Placed(own, Instructions(c, p), false) && pages' == pages)
    || (own' == DropOldest(own) && OldestPage(own) !in pages && pages' == pages)
  }

  lemma SafeChangeKeepsWatch(c: Config, own: Table, own': Table, pages: set<Page>, pages': set<Page>, p: Page)
    requires WellFormed(c) && WellTable(c, own) && AllWatched(c, own, pages)
    requires SafeChange(c, own, own', pages, pages', p)
    ensures AllWatched(c, own', pages') && pages' <= pages
  {
    forall q | q in pages' ensures Watches(c, own', q) {
      assert Watches(c, own, q);
      OwnTableSafe(c, own, p, q);
    }
  }

  lemma FollowerExec(c: Config, s: State, s': State, t: Tid, f: FPhase)
    requires s.At(t) == F(f) && ExecPhase(c, s, t)
    requires FollowerDoes(c, s, s', t, f) && (f.FLoad? ==> s.page.Some?)
    ensures ExecPhase(c, s', t)
    ensures SafeChange(c, s.Own(t), s'.Own(t), s.executable, s'.executable, if f.FAdd? then f.q else 0)
  {
  }

  /** A thread other than the controller moves within an open round. */
  lemma FollowersKept(c: Config, s: State, s': State, o: Tid, p: Page, st: Stage, t: Tid)
    requires s'.base == s.base && s'.rounds == s.rounds
    requires Followers(c, s, o, p, st) && s'.listed == s.listed && OthersSame(s, s', t)
    requires t in s.listed && t != o ==> FollowerOk(c, s', p, st, t)
    ensures Followers(c, s', o, p, st)
  {
    forall u | u in s'.listed && u != o ensures FollowerOk(c, s', p, st, u) {
      assert FollowerOk(c, s, p, st, u);
      assert u != t ==> Same(s, s', u);
    }
  }

  lemma DebtorsKept(s: State, s': State, o: Tid, st: Stage, t: Tid)
    requires OthersSame(s, s', t)
    requires t in s.listed && t in s'.listed && t != o && (Owes(st, s'.At(t)) ==> Owes(st, s.At(t)))
    ensures |Debtors(s', o, st)| ==
            |Debtors(s, o, st)| - if Owes(st, s.At(t)) && !Owes(st, s'.At(t)) then 1 else 0
  {
    var d, d' := Debtors(s, o, st), Debtors(s', o, st);
    forall u | u != t ensures u in d' <==> u in d { assert Same(s, s', u); }
    if Owes(st, s.At(t)) && !Owes(st, s'.At(t)) {
      assert t in d && t !in d';
      assert d' == d - {t};
    } else {
      assert d' == d;
    }
  }

  lemma OpenRoundKept(c: Config, s: State, s': State, o: Tid, t: Tid)
    requires OpenRound(c, s, o) && t != o && t in s.listed
    requires OthersSame(s, s', t) && FollowerShared(s, s', t)
    requires FollowerOk(c, s', s.At(o).p, StageOf(s.At(o)), t) && Pays(s, s', t, StageOf(s.At(o)))
    ensures OpenRound(c, s', o)
  {
    assert Same(s, s', o);
    FollowersKept(c, s, s', o, s.At(o).p, StageOf(s.At(o)), t);
    DebtorsKept(s, s', o, StageOf(s.At(o)), t);
  }

  lemma QuietKept(s: State, s': State, t: Tid)
    requires NoRound(s) && AllQuiet(s) && OthersSame(s, s', t) && Undisturbed(s, s')
    requires QuietPhase(s', t) && (t in s'.listed ==> s'.Own(t) == s.global && s'.Runs(t) == s.rounds)
    ensures NoRound(s') && AllQuiet(s')
  {
    forall u: Tid ensures QuietPhase(s', u) {
      assert QuietPhase(s, u);
      if u != t { assert Same(s, s', u); }
    }
    forall u | u in s'.listed ensures s'.Own(u) == s'.global && s'.Runs(u) == s'.rounds {
      assert u != t ==> Same(s, s', u);
    }
  }

  ghost predicate Undisturbed(s: State, s': State) {
    && s'.controller == s.controller && s'.page == s.page && s'.waiting == s.waiting
    && s'.global == s.global && s'.rounds == s.rounds && s'.base == s.base
  }

  /** Where the round stands for a thread that is not its controller. */
  lemma RoundOwner(c: Config, s: State)
    requires RoundOk(c, s) && !RoundStage(s).Quiet? && 0 !in s.listed
    ensures s.syncLock.Some? && OpenRound(c, s, s.syncLock.value)
    ensures var o := s.syncLock.value; StageWords(s, s.At(o).p, StageOf(s.At(o)))
  {
    var o := s.syncLock.value;
    if StageOf(s.At(o)).Gather? { assert Debtors(s, o, StageOf(s.At(o))) == {}; }
  }

  /** One follower step inside an open round. */
  lemma FollowerInRound(c: Config, s: State, s': State, t: Tid, f: FPhase)
    requires WellFormed(c) && RoundOk(c, s) && !RoundStage(s).Quiet? && 0 !in s.listed
    requires s.At(t) == F(f) && Enabled(c, s, t, Run) && t in s.listed && ExecPhase(c, s, t)
    requires WellTable(c, s.Own(t)) && (forall u: Tid :: Placement(c, s, u))
    requires OthersSame(s, s', t) && FollowerShared(s, s', t) && FollowerDoes(c, s, s', t, f)
    ensures RoundOk(c, s') && WellTable(c, s'.Own(t)) && (f.FLoad? ==> s.page.Some?)
  {
    RoundOwner(c, s);
    var o := s.syncLock.value;
    var p, st := s.At(o).p, StageOf(s.At(o));
    assert Placement(c, s, o);
    assert FollowerOk(c, s, p, st, t);
    FollowerMoves(c, s, s', t, f, p, st);
    OpenRoundKept(c, s, s', o, t);
    assert Same(s, s', o);
  }

  /** With no round open the only thing left to a follower is to give the count mutex back. */
  lemma FollowerInQuiet(c: Config, s: State, s': State, t: Tid, f: FPhase)
    requires RoundOk(c, s) && RoundStage(s).Quiet? && WellTable(c, s.Own(t))
    requires s.At(t) == F(f) && t in s.listed && (forall u: Tid :: Holders(s, u))
    requires OthersSame(s, s', t) && FollowerShared(s, s', t) && FollowerDoes(c, s, s', t, f)
    ensures RoundOk(c, s') && WellTable(c, s'.Own(t)) && !f.FLoad?
  {
    assert QuietPhase(s, t);
    QuietKept(s, s', t);
    if s.syncLock.Some? {
      assert Holders(s, s.syncLock.value);
      assert Same(s, s', s.syncLock.value);
    }
  }

  lemma FollowerAbstract(c: Config, s: State, s': State, t: Tid, f: FPhase)
    requires WellFormed(c) && Inv(c, s) && s.At(t) == F(f) && Enabled(c, s, t, Run)
    requires OthersSame(s, s', t) && LockMoves(s, s', t)
    requires FollowerShared(s, s', t) && FollowerDoes(c, s, s', t, f)
    ensures Inv(c, s')
  {
    assert Holders(s, t) && Placement(c, s, t) && ExecPhase(c, s, t);
    if RoundStage(s).Quiet? { FollowerInQuiet(c, s, s', t, f); } else { FollowerInRound(c, s, s', t, f); }
    FollowerExec(c, s, s', t, f);
    assert AllWatched(c, s.Own(t), s.executable);
    SafeChangeKeepsWatch(c, s.Own(t), s'.Own(t), s.executable, s'.executable, if f.FAdd? then f.q else 0);
    ExecKept(c, s, s', t);
    Reassemble(c, s, s', t);
  }

  lemma FollowerKeepsInv(c: Config, s: State, t: Tid, f: FPhase)
    requires WellFormed(c) && Inv(c, s) && s.At(t) == F(f) && Enabled(c, s, t, Run)
    ensures Inv(c, FollowerNext(c, s, t, f))
  {
    var s' := FollowerNext(c, s, t, f);
    assert Holders(s, t);
    FollowerEffect(c, s, t, f);
    FollowerLocks(c, s, t, f);
    assert OthersSame(s, s', t) by {
      forall u: Tid | u != t ensures Same(s, s', u) { FollowerSame(c, s, t, f, u); }
    }
    FollowerAbstract(c, s, s', t, f);
  }

  // ---------------------------------------------------------------- steps while no round is open

  /** What a step outside every round may do to its own thread. */
  ghost predicate QuietMove(c: Config, s: State, s': State, t: Tid) {
    && Undisturbed(s, s') && LockMoves(s, s', t)
    && Placement(c, s', t) && ExecPhase(c, s', t) && QuietPhase(s', t) && StageOf(s'.At(t)).Quiet?
    && (t in s'.listed ==> t != 0 && t in s'.tables && s'.Own(t) == s.global && s'.Runs(t) == s.rounds)
  }

  lemma QuietStageKept(s: State, s': State, t: Tid)
    requires (forall u: Tid :: Holders(s, u)) && RoundStage(s).Quiet?
    requires OthersSame(s, s', t) && LockMoves(s, s', t) && StageOf(s'.At(t)).Quiet?
    ensures RoundStage(s').Quiet?
  {
    HoldersKept(s, s', t);
    if s'.syncLock.Some? {
      var o := s'.syncLock.value;
      assert Holders(s, o) && Holders(s', o);
      assert o != t ==> Same(s, s', o);
    }
  }

  lemma QuietStep(c: Config, s: State, s': State, t: Tid)
    requires Inv(c, s) && RoundStage(s).Quiet?
    requires OthersSame(s, s', t) && QuietMove(c, s, s', t) && s'.executable == s.executable
    ensures Inv(c, s')
  {
    QuietStageKept(s, s', t);
    QuietKept(s, s', t);
    ExecKept(c, s, s', t);
    Reassemble(c, s, s', t);
  }

  /** A thread in the fault handler, outside a round, knows that nobody else has a round open. */
  lemma HandlerIsQuiet(s: State, t: Tid)
    requires (forall u: Tid :: Holders(s, u)) && HoldsHandler(s.At(t)) && StageOf(s.At(t)).Quiet?
    ensures RoundStage(s).Quiet?
  {
    assert Holders(s, t);
    if s.syncLock.Some? { assert Holders(s, s.syncLock.value); }
  }

  lemma HandlerEffect(c: Config, s: State, t: Tid, h: HPhase, p: Page)
    requires s.At(t) == H(h, p) && Enabled(c, s, t, Run) && Holders(s, t) && Placement(c, s, t)
    requires t != 0 && t in s.tables && s.Own(t) == s.global && s.Runs(t) == s.rounds
    ensures QuietMove(c, s, HandlerNext(s, t, h, p), t)
    ensures HandlerNext(s, t, h, p).executable == s.executable + if h.HExec? then {p} else {}
  {
  }

  lemma HandlerSame(s: State, t: Tid, h: HPhase, p: Page, u: Tid)
    requires u != t
    ensures Same(s, HandlerNext(s, t, h, p), u)
  {
  }

  /** Making a page executable is safe: the finished round left it watched in every table. */
  lemma MakeExecutable(c: Config, s: State, s': State, t: Tid, p: Page)
    requires NoRound(s) && AllQuiet(s) && ExecSafe(c, s) && s.At(t) == H(HExec, p) && t in s.listed
    requires s'.executable == s.executable + {p} && s'.global == s.global && ExecPhase(c, s', t)
    requires s'.Own(t) == s.global && OthersSame(s, s', t) && forall u: Tid :: Holders(s, u)
    ensures ExecSafe(c, s')
  {
    assert ExecPhase(c, s, t) && Holders(s, t);
    forall u: Tid ensures ExecPhase(c, s', u) {
      assert ExecPhase(c, s, u) && QuietPhase(s, u) && Holders(s, u);
      assert u != t ==> Same(s, s', u);
    }
    forall q, u | q in s'.executable && u in s'.listed ensures Watches(c, s'.Own(u), q) {
      if u != t { assert Same(s, s', u) && s.Own(u) == s.global; }
    }
  }

  lemma HandlerKeepsInv(c: Config, s: State, t: Tid, h: HPhase, p: Page)
    requires Inv(c, s) && s.At(t) == H(h, p) && Enabled(c, s, t, Run)
    ensures Inv(c, HandlerNext(s, t, h, p))
  {
    assert Holders(s, t) && Placement(c, s, t);
    HandlerIsQuiet(s, t);
    HandlerEffect(c, s, t, h, p);
    var s' := HandlerNext(s, t, h, p);
    assert OthersSame(s, s', t) by {
      forall u: Tid | u != t ensures Same(s, s', u) { HandlerSame(s, t, h, p, u); }
    }
    if h.HExec? {
      QuietStageKept(s, s', t);
      QuietKept(s, s', t);
      MakeExecutable(c, s, s', t, p);
      Reassemble(c, s, s', t);
    } else {
      QuietStep(c, s, s', t);
    }
  }

  lemma ListEffect(c: Config, s: State, t: Tid, u: UPhase)
    requires s.At(t) == U(u) && Enabled(c, s, t, Run) && Holders(s, t) && QuietPhase(s, t) && Placement(c, s, t)
    requires t in s.listed ==> t != 0 && t in s.tables && s.Own(t) == s.global && s.Runs(t) == s.rounds
    ensures QuietMove(c, s, ListNext(s, t, u), t)
    ensures ListNext(s, t, u).executable == s.executable
  {
  }

  lemma ListSame(s: State, t: Tid, u: UPhase, v: Tid)
    requires v != t
    ensures Same(s, ListNext(s, t, u), v)
  {
  }

  lemma ListKeepsInv(c: Config, s: State, t: Tid, u: UPhase)
    requires Inv(c, s) && s.At(t) == U(u) && Enabled(c, s, t, Run)
    ensures Inv(c, ListNext(s, t, u))
  {
    assert Holders(s, t) && Placement(c, s, t) && QuietPhase(s, t);
    var s' := ListNext(s, t, u);
    ListEffect(c, s, t, u);
    assert OthersSame(s, s', t) by {
      forall v: Tid | v != t ensures Same(s, s', v) { ListSame(s, t, u, v); }
    }
    QuietStep(c, s, s', t);
  }

  lemma StartEffect(c: Config, s: State, t: Tid, a: Action)
    requires s.At(t).Out? && Enabled(c, s, t, a) && !a.Follow? && Holders(s, t)
    requires t in s.listed ==> t != 0 && t in s.tables && s.Own(t) == s.global && s.Runs(t) == s.rounds
    ensures QuietMove(c, s, Start(s, t, a), t) && Start(s, t, a).executable == s.executable
  {
  }

  lemma StartSame(s: State, t: Tid, a: Action, v: Tid)
    requires v != t
    ensures Same(s, Start(s, t, a), v)
  {
  }

  lemma StartIsQuiet(c: Config, s: State, t: Tid, a: Action)
    requires (forall u: Tid :: Holders(s, u)) && s.At(t).Out? && Enabled(c, s, t, a) && !a.Follow?
    ensures RoundStage(s).Quiet?
  {
    if s.syncLock.Some? { assert Holders(s, s.syncLock.value); }
  }

  lemma StartKeepsInv(c: Config, s: State, t: Tid, a: Action)
    requires Inv(c, s) && s.At(t).Out? && Enabled(c, s, t, a) && !a.Follow?
    ensures Inv(c, Start(s, t, a))
  {
    assert Holders(s, t);
    StartIsQuiet(c, s, t, a);
    StartEffect(c, s, t, a);
    var s' := Start(s, t, a);
    assert OthersSame(s, s', t) by {
      forall v: Tid | v != t ensures Same(s, s', v) { StartSame(s, t, a, v); }
    }
    QuietStep(c, s, s', t);
  }

  lemma EnterLocal(c: Config, s: State, s': State, t: Tid, p: Page, st: Stage)
    requires FollowerOk(c, s, p, st, t) && StageWords(s, p, st) && s.At(t).Out? && s.controller != 0
    requires s' == s.To(t, F(FWait1))
    ensures FollowerOk(c, s', p, st, t) && Pays(s, s', t, st) && FollowerShared(s, s', t)
    ensures ExecPhase(c, s', t) && s'.Own(t) == s.Own(t)
    ensures Holders(s, t) ==> LockMoves(s, s', t)
  {
  }

  /** A thread outside the wrapper can only see a controller before that controller retires, and
      only while its own contribution is still missing. */
  lemma FollowKeepsInv(c: Config, s: State, t: Tid)
    requires Inv(c, s) && s.At(t).Out? && Enabled(c, s, t, Follow)
    ensures Inv(c, Start(s, t, Follow))
  {
    var s' := Start(s, t, Follow);
    assert Holders(s, t);
    assert OthersSame(s, s', t) by {
      forall v: Tid | v != t ensures Same(s, s', v) { StartSame(s, t, Follow, v); }
    }
    RoundOwner(c, s);
    var o := s.syncLock.value;
    assert FollowerOk(c, s, s.At(o).p, StageOf(s.At(o)), t);
    EnterLocal(c, s, s', t, s.At(o).p, StageOf(s.At(o)));
    OpenRoundKept(c, s, s', o, t);
    assert Same(s, s', o);
    ExecKept(c, s, s', t);
    Reassemble(c, s, s', t);
  }
}
