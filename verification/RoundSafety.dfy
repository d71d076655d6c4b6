/** What holds over every run of the round protocol, for any number of threads and any interleaving. */
module RoundSafety {
  import opened BreakpointTable
  import opened RoundProtocol
  import opened RoundInvariant
  import opened RoundSteps
  import opened RoundControllerSteps

  lemma InitInv(c: Config, s: State)
    requires WellFormed(c) && Init(c, s)
    ensures Inv(c, s)
  {
    forall t: Tid ensures s.At(t).Out? {}
  }

  lemma StepKeepsInv(c: Config, s: State, t: Tid, a: Action)
    requires WellFormed(c) && Inv(c, s) && Enabled(c, s, t, a)
    ensures Inv(c, Next(c, s, t, a))
  {
    match s.At(t)
    case Out => if a.Follow? { FollowKeepsInv(c, s, t); } else { StartKeepsInv(c, s, t, a); }
    case H(h, p) => HandlerKeepsInv(c, s, t, h, p);
    case C(k, p) => ControllerKeepsInv(c, s, t, k, p);
    case F(f) => FollowerKeepsInv(c, s, t, f);
    case U(u) => ListKeepsInv(c, s, t, u);
  }

  lemma {:induction false} RunKeepsInv(c: Config, states: seq<State>, moves: seq<(Tid, Action)>, i: nat)
    requires WellFormed(c) && Execution(c, states, moves) && i < |states|
    ensures Inv(c, states[i])
  {
    if i == 0 {
      InitInv(c, states[0]);
    } else {
      RunKeepsInv(c, states, moves, i - 1);
      StepKeepsInv(c, states[i - 1], moves[i - 1].0, moves[i - 1].1);
    }
  }

  /** Thread `o` has published itself as controller and has not given the sync mutex back. */
  predicate RoundOpenBy(s: State, o: Tid) { s.At(o).C? && CRank(s.At(o).k) >= 3 }

  // ---------------------------------------------------------------- theorems

  /** An assertion of the two wrappers, of `add_breakpoints` or of the thread list code fails exactly when a thread
      lists itself in a full list. */
  lemma AssertionsNeverFail(c: Config, states: seq<State>, moves: seq<(Tid, Action)>, i: nat, t: Tid)
    requires WellFormed(c) && Execution(c, states, moves) && i < |states|
    ensures AssertionsHold(c, states[i], t) <==> !ListIsFull(c, states[i], t)
  {
    RunKeepsInv(c, states, moves, i);
    InvImpliesAssertions(c, states[i], t);
  }

  lemma InvImpliesAssertions(c: Config, s: State, t: Tid)
    requires WellFormed(c) && Inv(c, s)
    ensures AssertionsHold(c, s, t) <==> !ListIsFull(c, s, t)
  {
    assert Holders(s, t) && Placement(c, s, t) && ExecPhase(c, s, t);
    match s.At(t)
    case C(k, p) =>
      if CRank(k) < 3 { HandlerIsQuiet(s, t); }
      else { TableAssertions(c, s.Own(t), p); }
    case F(f) => FollowerAssertions(c, s, t, f);
    case _ =>
  }

  lemma TableAssertions(c: Config, own: Table, p: Page)
    requires WellFormed(c) && WellTable(c, own) && p in c.pages
    ensures AddAssertions(c, own, p)
    ensures !Fits(c, own, p) ==> own.dynamics != [] && own.dynamics[0] != []
  {
    SettledIsAdd(c, own, p);
    if !Fits(c, own, p) { DropKeepsWell(c, own, p); }
  }

  lemma FollowerAssertions(c: Config, s: State, t: Tid, f: FPhase)
    requires WellFormed(c) && Inv(c, s) && s.At(t) == F(f)
    ensures AssertionsHold(c, s, t)
  {
    assert Placement(c, s, t) && ExecPhase(c, s, t);
    if RoundStage(s).Quiet? {
      assert QuietPhase(s, t);
    } else {
      RoundOwner(c, s);
      var o := s.syncLock.value;
      assert Placement(c, s, o);
      assert FollowerOk(c, s, s.At(o).p, StageOf(s.At(o)), t);
      TableAssertions(c, s.Own(t), s.At(o).p);
      if Owes(StageOf(s.At(o)), F(f)) { DebtIsCounted(s, o, StageOf(s.At(o)), t); }
    }
  }

  lemma DebtIsCounted(s: State, o: Tid, st: Stage, t: Tid)
    requires t in s.listed && t != o && Owes(st, s.At(t))
    ensures |Debtors(s, o, st)| > 0
  {
    assert t in Debtors(s, o, st);
  }

  /** When a controller is about to release the sync mutex, every other listed thread is past its
      last access to the round (at most the count mutex is left to give back), has run every round
      so far, and holds exactly the table that one `add_breakpoints` for this round's page makes of
      the table all threads had when the round opened. */
  lemma ReleaseMeansEveryoneUpdated(c: Config, states: seq<State>, moves: seq<(Tid, Action)>, i: nat, o: Tid, p: Page)
    requires WellFormed(c) && Execution(c, states, moves) && i < |states|
    requires states[i].At(o) == C(CRelease, p)
    ensures var s := states[i];
            && p in c.pages && Budgeted(c.cap, s.base) && 1 <= |c.pages[p]| <= s.base.maxDynamic
            && s.global == Add(c.cap, s.base, c.pages[p])
            && (forall t | t in s.listed :: s.Own(t) == s.global && s.Runs(t) == s.rounds)
            && (forall t | t in s.listed && t != o :: Outside(s.At(t)))
            && s.controller == 0 && s.page.None? && s.waiting == 0
  {
    RunKeepsInv(c, states, moves, i);
    var s := states[i];
    assert Holders(s, o) && Placement(c, s, o);
    assert Debtors(s, o, Done) == {};
    SettledIsAdd(c, s.base, p);
    forall t | t in s.listed && t != o ensures Outside(s.At(t)) && s.Own(t) == s.global && s.Runs(t) == s.rounds {
      assert FollowerOk(c, s, p, Done, t);
    }
  }

  /** Exactly once: between the opening of a round and its release, the run count of every thread
      listed at both ends grows by one. */
  lemma EveryRoundRunsOnce(c: Config, states: seq<State>, moves: seq<(Tid, Action)>, i: nat, j: nat, o: Tid, p: Page,
                           t: Tid)
    requires WellFormed(c) && Execution(c, states, moves) && i < |states| && j < |states|
    requires states[i].At(o) == C(CAnnounce, p) && states[j].At(o) == C(CRelease, p)
    requires states[j].rounds == states[i].rounds + 1
    requires t in states[i].listed && t in states[j].listed
    ensures states[j].Runs(t) == states[i].Runs(t) + 1
  {
    RunKeepsInv(c, states, moves, i);
    ReleaseMeansEveryoneUpdated(c, states, moves, j, o, p);
    HandlerIsQuiet(states[i], o);
  }

  /** Replica agreement: whenever no round is open, every listed thread's table equals the global
      one, page for page and in the same order. */
  lemma ReplicasAgree(c: Config, states: seq<State>, moves: seq<(Tid, Action)>, i: nat, t: Tid)
    requires WellFormed(c) && Execution(c, states, moves) && i < |states|
    requires (forall o: Tid :: !RoundOpenBy(states[i], o)) && t in states[i].listed
    ensures states[i].Own(t) == states[i].global && Budgeted(c.cap, states[i].global)
  {
    RunKeepsInv(c, states, moves, i);
    var s := states[i];
    if !RoundStage(s).Quiet? {
      RoundOwner(c, s);
      assert RoundOpenBy(s, s.syncLock.value);
    }
  }

  /** In every reachable state, also in the middle of a round, an executable page has all its
      recorded instructions watched in every listed thread's own table. */
  lemma ExecutableMeansWatched(c: Config, states: seq<State>, moves: seq<(Tid, Action)>, i: nat, q: Page, t: Tid,
                               a: Addr)
    requires WellFormed(c) && Execution(c, states, moves) && i < |states|
    requires q in states[i].executable && t in states[i].listed
    requires q in c.pages && a in c.pages[q]
    ensures exists k :: 0 <= k < |states[i].Own(t).dynamics| && a in states[i].Own(t).dynamics[k]
  {
    RunKeepsInv(c, states, moves, i);
    var s := states[i];
    assert Watches(c, s.Own(t), q);
    var k :| 0 <= k < |s.Own(t).dynamics| && s.Own(t).dynamics[k] == c.pages[q];
  }

  /** Rounds never overlap. */
  lemma OneRoundAtATime(c: Config, states: seq<State>, moves: seq<(Tid, Action)>, i: nat, o: Tid, o': Tid)
    requires WellFormed(c) && Execution(c, states, moves) && i < |states|
    requires RoundOpenBy(states[i], o) && RoundOpenBy(states[i], o')
    ensures o == o'
  {
    RunKeepsInv(c, states, moves, i);
    assert Holders(states[i], o) && Holders(states[i], o');
  }
}
