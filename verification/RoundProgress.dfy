/** No round can block or run forever: while one is open some step is enabled, and every step that
    any thread takes shrinks a finite set of outstanding work. */
module RoundProgress {
  import opened BreakpointTable
  import opened RoundProtocol
  import opened RoundInvariant
  import opened RoundSteps
  import opened RoundControllerSteps
  import opened RoundSafety

  /** Steps left to the controller; every eviction costs two. */
  function ControllerLeft(k: CPhase, pages: nat): int {
    if CRank(k) >= 7 then 18 - CRank(k)
    else if k.CDrop? then 11 + 2 * pages
    else 17 - CRank(k) + 2 * pages
  }

  /** Steps left to a follower; `early` says that its own update is still due. */
  function FollowerLeft(early: bool, ph: Phase, pages: nat): int {
    if Outside(ph) then (if early then 16 + 2 * pages else 0) + (if ph.Out? then 0 else 1)
    else if !ph.F? then 0
    else if FRank(ph.f) <= 4 then 15 - FRank(ph.f) + 2 * pages
    else 15 - FRank(ph.f)
  }

  predicate Early(st: Stage) { st.Gather? || st.Collect? }

  function Left(s: State, o: Tid, t: Tid): int {
    if t == o then (if s.At(o).C? then ControllerLeft(s.At(o).k, |s.Own(o).dynamics|) else 0)
    else FollowerLeft(Early(StageOf(s.At(o))), s.At(t), |s.Own(t).dynamics|)
  }

  /** The work of a round: one token per thread and outstanding step. */
  ghost function Work(s: State, o: Tid): set<(Tid, int)> {
    set t, i | t in s.listed && 0 <= i < Left(s, o, t) :: (t, i)
  }

  lemma WorkShrinks(s: State, s': State, o: Tid, u: Tid)
    requires s'.listed == s.listed && u in s.listed
    requires 0 <= Left(s', o, u) < Left(s, o, u)
    requires forall t | t in s.listed && t != u :: Left(s', o, t) <= Left(s, o, t)
    ensures Work(s', o) < Work(s, o)
  {
    forall w | w in Work(s', o) ensures w in Work(s, o) {
      assert w.0 in s.listed && w.1 < Left(s', o, w.0);
    }
    var token := (u, Left(s', o, u));
    assert token in Work(s, o) && token !in Work(s', o);
  }

  lemma PlainLowers(f: FPhase, early: bool, st: Stage, pages: nat)
    requires Plain(f) && !st.Quiet? && Allowed(st, F(f)) && early == Early(st)
    ensures 0 <= FollowerLeft(early, FSucc(f), pages) < FollowerLeft(early, F(f), pages)
  {
  }

  lemma FollowerLowers(c: Config, s: State, s': State, o: Tid, t: Tid, f: FPhase, st: Stage)
    requires WellFormed(c) && t != o && s.At(t) == F(f) && Allowed(st, F(f)) && !st.Quiet?
    requires st == StageOf(s.At(o)) && s'.At(o) == s.At(o)
    requires FollowerDoes(c, s, s', t, f) && (f.FLoad? ==> s.page.Some?)
    requires f.FDrop? ==> s.Own(t).dynamics != []
    ensures 0 <= Left(s', o, t) < Left(s, o, t)
  {
    if Plain(f) { PlainLowers(f, Early(st), st, |s.Own(t).dynamics|); }
  }

  lemma ControllerLowers(c: Config, s: State, s': State, t: Tid, k: CPhase, p: Page)
    requires s.At(t) == C(k, p) && 3 <= CRank(k) <= 17 && ControllerDoes(c, s, s', t, k, p)
    requires k.CDrop? || !Fits(c, s.Own(t), p) ==> s.Own(t).dynamics != []
    ensures 0 <= Left(s', t, t) < Left(s, t, t)
  {
  }

  /** A controller step never gives a follower more to do. */
  lemma FollowersNotRaised(c: Config, s: State, s': State, o: Tid, k: CPhase, p: Page, t: Tid)
    requires s.At(o) == C(k, p) && 3 <= CRank(k) <= 17 && ControllerDoes(c, s, s', o, k, p)
    requires t != o && Same(s, s', t)
    ensures Left(s', o, t) <= Left(s, o, t)
  {
  }

  /** Which threads can move while a round is open. */
  lemma OnlyRoundSteps(c: Config, s: State, o: Tid, u: Tid, a: Action)
    requires Inv(c, s) && RoundOpenBy(s, o) && Enabled(c, s, u, a)
    ensures s.syncLock == Some(o) && OpenRound(c, s, o)
    ensures u == o || (u in s.listed && (s.At(u).F? || (s.At(u).Out? && a.Follow?)))
  {
    assert Holders(s, o) && Holders(s, u) && Placement(c, s, u);
  }

  /** Every step taken while a round is open either gives the sync mutex back or shrinks the work. */
  lemma RoundStepShrinks(c: Config, s: State, o: Tid, u: Tid, a: Action)
    requires WellFormed(c) && Inv(c, s) && RoundOpenBy(s, o) && Enabled(c, s, u, a)
    ensures (u == o && s.At(o).k.CRelease?)
            || (RoundOpenBy(Next(c, s, u, a), o) && Work(Next(c, s, u, a), o) < Work(s, o))
  {
    OnlyRoundSteps(c, s, o, u, a);
    if u == o {
      if !s.At(o).k.CRelease? { ControllerShrinks(c, s, o, s.At(o).k, s.At(o).p); }
    } else if s.At(u).F? {
      FollowerShrinks(c, s, o, u, s.At(u).f);
    } else {
      EnterShrinks(c, s, o, u);
    }
  }

  lemma ControllerShrinks(c: Config, s: State, o: Tid, k: CPhase, p: Page)
    requires WellFormed(c) && Inv(c, s) && s.At(o) == C(k, p) && 3 <= CRank(k) <= 17 && Enabled(c, s, o, Run)
    ensures var s' := ControllerNext(c, s, o, k, p);
            RoundOpenBy(s', o) && Work(s', o) < Work(s, o)
  {
    var s' := ControllerNext(c, s, o, k, p);
    ControllerEffect(c, s, o, k, p);
    assert Placement(c, s, o) && ExecPhase(c, s, o);
    TableAssertions(c, s.Own(o), p);
    assert OthersSame(s, s', o) by {
      forall t: Tid | t != o ensures Same(s, s', t) { ControllerSame(c, s, o, k, p, t); }
    }
    ControllerWork(c, s, s', o, k, p);
  }

  lemma ControllerWork(c: Config, s: State, s': State, o: Tid, k: CPhase, p: Page)
    requires s.At(o) == C(k, p) && 3 <= CRank(k) <= 17 && o in s.listed
    requires ControllerDoes(c, s, s', o, k, p) && OthersSame(s, s', o)
    requires k.CDrop? || !Fits(c, s.Own(o), p) ==> s.Own(o).dynamics != []
    ensures RoundOpenBy(s', o) && Work(s', o) < Work(s, o)
  {
    ControllerLowers(c, s, s', o, k, p);
    forall t | t in s.listed && t != o ensures Left(s', o, t) <= Left(s, o, t) {
      assert Same(s, s', t);
      FollowersNotRaised(c, s, s', o, k, p, t);
    }
    WorkShrinks(s, s', o, o);
  }

  lemma FollowerShrinks(c: Config, s: State, o: Tid, u: Tid, f: FPhase)
    requires WellFormed(c) && Inv(c, s) && RoundOpenBy(s, o) && OpenRound(c, s, o) && u != o
    requires s.At(u) == F(f) && Enabled(c, s, u, Run)
    ensures var s' := FollowerNext(c, s, u, f);
            RoundOpenBy(s', o) && Work(s', o) < Work(s, o)
  {
    var s' := FollowerNext(c, s, u, f);
    FollowerEffect(c, s, u, f);
    assert Placement(c, s, u);
    FollowerAssertions(c, s, u, f);
    assert FollowerOk(c, s, s.At(o).p, StageOf(s.At(o)), u);
    assert OthersSame(s, s', u) by {
      forall t: Tid | t != u ensures Same(s, s', t) { FollowerSame(c, s, u, f, t); }
    }
    FollowerWork(c, s, s', o, u, f);
  }

  lemma FollowerWork(c: Config, s: State, s': State, o: Tid, u: Tid, f: FPhase)
    requires WellFormed(c) && RoundOpenBy(s, o) && u != o && u in s.listed && s.At(u) == F(f)
    requires Allowed(StageOf(s.At(o)), F(f)) && AssertionsHold(c, s, u)
    requires FollowerDoes(c, s, s', u, f) && FollowerShared(s, s', u) && OthersSame(s, s', u)
    ensures RoundOpenBy(s', o) && Work(s', o) < Work(s, o)
  {
    assert Same(s, s', o);
    FollowerLowers(c, s, s', o, u, f, StageOf(s.At(o)));
    forall t | t in s.listed && t != u ensures Left(s', o, t) <= Left(s, o, t) { assert Same(s, s', t); }
    WorkShrinks(s, s', o, u);
  }

  lemma EnterShrinks(c: Config, s: State, o: Tid, u: Tid)
    requires WellFormed(c) && Inv(c, s) && RoundOpenBy(s, o) && OpenRound(c, s, o) && u != o
    requires s.At(u).Out? && Enabled(c, s, u, Follow)
    ensures var s' := Start(s, u, Follow);
            RoundOpenBy(s', o) && Work(s', o) < Work(s, o)
  {
    var s' := Start(s, u, Follow);
    assert FollowerOk(c, s, s.At(o).p, StageOf(s.At(o)), u);
    forall t | t in s.listed && t != u ensures Left(s', o, t) <= Left(s, o, t) { StartSame(s, u, Follow, t); }
    StartSame(s, u, Follow, o);
    WorkShrinks(s, s', o, u);
  }

  // ---------------------------------------------------------------- some step is always enabled

  /** Whoever holds the count mutex can go on. */
  lemma CountHolderMoves(c: Config, s: State, o: Tid) returns (u: Tid)
    requires Inv(c, s) && RoundOpenBy(s, o) && s.countLock.Some? && !HoldsCount(s.At(o))
    ensures Enabled(c, s, u, Run)
  {
    u := s.countLock.value;
    assert Holders(s, u) && Holders(s, o);
  }

  /** A follower that owes a decrement can move, or the holder of the count mutex can. */
  lemma DebtorMoves(c: Config, s: State, o: Tid, t: Tid) returns (u: Tid, a: Action)
    requires Inv(c, s) && RoundOpenBy(s, o) && OpenRound(c, s, o) && s.waiting != 0
    requires t in Debtors(s, o, StageOf(s.At(o))) && !HoldsCount(s.At(o)) && !s.At(o).k.CRetire?
    ensures Enabled(c, s, u, a)
  {
    assert Holders(s, o);
    u, a := t, Run;
    if s.At(t).Out? {
      a := Follow;
    } else if s.At(t) == F(FLock1) || s.At(t) == F(FLock2) {
      if s.countLock.Some? { u := CountHolderMoves(c, s, o); }
    }
  }

  lemma NonemptyHasMember(d: set<Tid>) returns (t: Tid)
    requires |d| > 0
    ensures t in d
  {
    if x :| x in d { t := x; } else { assert false; }
  }

  /** In every state with an open round some thread has an enabled step. */
  lemma RoundNeverBlocks(c: Config, s: State, o: Tid) returns (u: Tid, a: Action)
    requires WellFormed(c) && Inv(c, s) && RoundOpenBy(s, o)
    ensures Enabled(c, s, u, a)
  {
    u, a := o, Run;
    assert Holders(s, o);
    var k := s.At(o).k;
    if (k.CLock1? || k.CLock2?) && s.countLock.Some? {
      u := CountHolderMoves(c, s, o);
    } else if (k.CWait1? || k.CWait2?) && s.waiting != 0 {
      var t := NonemptyHasMember(Debtors(s, o, StageOf(s.At(o))));
      u, a := DebtorMoves(c, s, o, t);
    }
  }

  // ---------------------------------------------------------------- theorem

  /** A stretch of a run during which the round of `o` stays open is no longer than the work it
      started with: every round ends under any scheduler that keeps taking enabled steps. */
  lemma {:induction false} RoundsAreBounded(c: Config, states: seq<State>, moves: seq<(Tid, Action)>, i: nat, j: nat,
                                            o: Tid)
    requires WellFormed(c) && Execution(c, states, moves) && i <= j < |states|
    requires forall k | i <= k <= j :: RoundOpenBy(states[k], o)
    requires forall k | i <= k < j :: !(moves[k].0 == o && RoundOpenBy(states[k], o) && states[k].At(o).k.CRelease?)
    ensures |Work(states[j], o)| + (j - i) <= |Work(states[i], o)|
    decreases j - i
  {
    if i < j {
      RunKeepsInv(c, states, moves, i);
      RoundStepShrinks(c, states[i], o, moves[i].0, moves[i].1);
      SubsetCard(Work(states[i + 1], o), Work(states[i], o));
      RoundsAreBounded(c, states, moves, i + 1, j, o);
    }
  }

  lemma SubsetCard<T>(a: set<T>, b: set<T>)
    requires a < b
    ensures |a| < |b|
  {
    var rest := b - a;
    assert b == a + rest && a !! rest;
    assert rest != {};
  }
}
