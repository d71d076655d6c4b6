/** The controller's steps: the barrier argument. */
module RoundControllerSteps {
  import opened BreakpointTable
  import opened RoundProtocol
  import opened RoundInvariant
  import opened RoundSteps

  /** The successor in program order; from `CAdd` this is the step that places the page. */
  function CSucc(k: CPhase): CPhase
    requires 2 <= CRank(k) <= 17
  {
    match k
    case CAnnounce => CPublish case CPublish => CSignal case CSignal => CAdd case CAdd => CGlobal
    case CDrop => CAdd case CGlobal => CLock1 case CLock1 => CStore1 case CStore1 => CUnlock1
    case CUnlock1 => CWait1 case CWait1 => CClear case CClear => CLock2 case CLock2 => CStore2
    case CStore2 => CUnlock2 case CUnlock2 => CRetire case CRetire => CWait2 case CWait2 => CRelease
  }

  predicate Evicting(c: Config, own: Table, k: CPhase, p: Page) { k.CAdd? && !Fits(c, own, p) }

  predicate Placing(c: Config, own: Table, k: CPhase, p: Page) { k.CAdd? && Fits(c, own, p) }

  function CTarget(c: Config, own: Table, k: CPhase, p: Page): CPhase
    requires 2 <= CRank(k) <= 17
  {
    if Evicting(c, own, k, p) then CDrop else CSucc(k)
  }

  /** What a step from `C(k, p)` to the next controller phase does. */
  ghost predicate ControllerDoes(c: Config, s: State, s': State, t: Tid, k: CPhase, p: Page)
    requires 2 <= CRank(k) <= 17
  {
    var own := s.Own(t);
    && s'.At(t) == C(CTarget(c, own, k, p), p)
    && s'.controller == (if k.CAnnounce? then t else if k.CRetire? then 0 else s.controller)
    && s'.page == (if k.CPublish? then Some(p) else if k.CClear? then None else s.page)
    && s'.waiting == (if k.CStore1? || k.CStore2? then |s.listed| - 1 else s.waiting)
    && s'.global == (if k.CGlobal? then own else s.global)
    && s'.Own(t) == (if Placing(c, own, k, p) then Placed(own, Instructions(c, p), false)
                     else if k.CDrop? then DropOldest(own) else own)
    && s'.Runs(t) == s.Runs(t) + (if Placing(c, own, k, p) then 1 else 0)
    && s'.executable == s.executable - (if Evicting(c, own, k, p) then {OldestPage(own)} else {})
    && s'.base == (if k.CAnnounce? then s.global else s.base)
    && s'.rounds == s.rounds + (if k.CAnnounce? then 1 else 0)
    && s'.listed == s.listed && s'.syncLock == s.syncLock && (t in s.tables ==> t in s'.tables)
  }

  lemma ControllerEffect(c: Config, s: State, t: Tid, k: CPhase, p: Page)
    requires 2 <= CRank(k) <= 17
    ensures ControllerDoes(c, s, ControllerNext(c, s, t, k, p), t, k, p)
  {
    if CRank(k) <= 9 { EarlyEffect(c, s, t, k, p); } else { LateEffect(c, s, t, k, p); }
  }

  lemma EarlyEffect(c: Config, s: State, t: Tid, k: CPhase, p: Page)
    requires 2 <= CRank(k) <= 9
    ensures ControllerDoes(c, s, ControllerNext(c, s, t, k, p), t, k, p)
  {
  }

  lemma LateEffect(c: Config, s: State, t: Tid, k: CPhase, p: Page)
    requires 10 <= CRank(k) <= 17
    ensures ControllerDoes(c, s, ControllerNext(c, s, t, k, p), t, k, p)
  {
  }

  lemma ControllerSame(c: Config, s: State, t: Tid, k: CPhase, p: Page, u: Tid)
    requires u != t
    ensures Same(s, ControllerNext(c, s, t, k, p), u)
  {
  }

  lemma ControllerLocks(c: Config, s: State, t: Tid, k: CPhase, p: Page)
    requires s.At(t) == C(k, p) && Enabled(c, s, t, Run) && Holders(s, t)
    ensures LockMoves(s, ControllerNext(c, s, t, k, p), t)
  {
  }

  // ---------------------------------------------------------------- own table and shared words

  lemma WordsAdvance(s: State, s': State, c: Config, t: Tid, k: CPhase, p: Page)
    requires 3 <= CRank(k) <= 17 && ControllerDoes(c, s, s', t, k, p)
    requires WordsFit(t, CRank(k), p, s.controller, s.page)
    ensures WordsFit(t, CRank(CTarget(c, s.Own(t), k, p)), p, s'.controller, s'.page)
  {
  }

  lemma TablesAdvance(c: Config, s: State, s': State, t: Tid, k: CPhase, p: Page)
    requires WellFormed(c) && WellTable(c, s.Own(t)) && p in c.pages
    requires 3 <= CRank(k) <= 17 && ControllerDoes(c, s, s', t, k, p)
    requires k.CDrop? ==> !Fits(c, s.Own(t), p)
    requires TablesFit(c, s.base, CRank(k), p, s.global, s.Own(t), s.rounds - s.Runs(t))
    ensures TablesFit(c, s'.base, CRank(CTarget(c, s.Own(t), k, p)), p, s'.global, s'.Own(t), s'.rounds - s'.Runs(t))
    ensures WellTable(c, s'.Own(t))
  {
    var own := s.Own(t);
    if k.CAdd? {
      if Fits(c, own, p) { PlaceKeepsWell(c, own, p); }
    } else if k.CDrop? {
      DropKeepsWell(c, own, p);
    } else if !k.CGlobal? {
      assert (CRank(k) <= 6 <==> CRank(CSucc(k)) <= 6) && (CRank(k) <= 7 <==> CRank(CSucc(k)) <= 7);
    }
  }

  lemma ControllerExecPhase(c: Config, s: State, s': State, t: Tid, k: CPhase, p: Page)
    requires 2 <= CRank(k) <= 17 && s.At(t) == C(k, p) && ExecPhase(c, s, t)
    requires ControllerDoes(c, s, s', t, k, p)
    ensures ExecPhase(c, s', t)
    ensures SafeChange(c, s.Own(t), s'.Own(t), s.executable, s'.executable, p)
  {
  }

  lemma ControllerExec(c: Config, s: State, s': State, t: Tid, k: CPhase, p: Page)
    requires WellFormed(c) && 2 <= CRank(k) <= 17 && s.At(t) == C(k, p)
    requires WellTable(c, s.Own(t)) && AllWatched(c, s.Own(t), s.executable) && ExecPhase(c, s, t)
    requires ControllerDoes(c, s, s', t, k, p)
    ensures AllWatched(c, s'.Own(t), s'.executable) && ExecPhase(c, s', t) && s'.executable <= s.executable
  {
    ControllerExecPhase(c, s, s', t, k, p);
    SafeChangeKeepsWatch(c, s.Own(t), s'.Own(t), s.executable, s'.executable, p);
  }

  // ---------------------------------------------------------------- stages

  function NextStage(st: Stage): Stage {
    match st
    case Gather => Collect case Collect => Clear case Clear => Rearm case Rearm => Drain case Drain => Done
    case _ => Quiet
  }

  predicate Collecting(st: Stage) { st.Collect? || st.Rearm? || st.Drain? }

  predicate Advancing(k: CPhase) { k.CStore1? || k.CWait1? || k.CStore2? || k.CRetire? || k.CWait2? }

  /** The stage advances only when every follower is ready for it; then either all of them or none
      of them owe a decrement. */
  lemma StageAdvances(st: Stage, ph: Phase)
    requires Allowed(st, ph) && !st.Quiet? && !st.Done?
    requires st.Collect? || st.Drain? ==> !Owes(st, ph)
    requires st.Clear? ==> ph != F(FUnlock1)
    ensures Allowed(NextStage(st), ph) && (Fresh(NextStage(st), ph) <==> Fresh(st, ph))
    ensures Owes(NextStage(st), ph) <==> Collecting(NextStage(st))
  {
  }

  lemma StageOfSucc(k: CPhase, p: Page)
    requires 3 <= CRank(k) <= 17
    ensures StageOf(C(CSucc(k), p)) == if Advancing(k) then NextStage(StageOf(C(k, p))) else StageOf(C(k, p))
    ensures k.CStore1? <==> Advancing(k) && StageOf(C(k, p)).Gather?
    ensures k.CWait1? <==> Advancing(k) && StageOf(C(k, p)).Collect?
    ensures k.CStore2? <==> Advancing(k) && StageOf(C(k, p)).Clear?
    ensures k.CRetire? <==> Advancing(k) && StageOf(C(k, p)).Rearm?
    ensures k.CWait2? <==> Advancing(k) && StageOf(C(k, p)).Drain?
  {
  }

  lemma Restage(c: Config, s: State, s': State, o: Tid, p: Page, st: Stage, st': Stage)
    requires s'.base == s.base && s'.rounds == s.rounds && s'.listed == s.listed
    requires Followers(c, s, o, p, st) && OthersSame(s, s', o)
    requires forall u | u in s.listed && u != o ::
             Allowed(st', s.At(u)) && (Fresh(st', s.At(u)) <==> Fresh(st, s.At(u)))
    ensures Followers(c, s', o, p, st')
  {
    forall u | u in s'.listed && u != o ensures FollowerOk(c, s', p, st', u) {
      assert FollowerOk(c, s, p, st, u) && Same(s, s', u);
    }
  }

  /** The barrier: when the stage advances, the number of followers that owe a decrement is all
      of them or none. */
  lemma Advance(c: Config, s: State, s': State, o: Tid, p: Page, st: Stage)
    requires s'.base == s.base && s'.rounds == s.rounds && s'.listed == s.listed
    requires Followers(c, s, o, p, st) && o in s.listed && !st.Quiet? && !st.Done? && OthersSame(s, s', o)
    requires st.Collect? || st.Drain? ==> |Debtors(s, o, st)| == 0
    requires st.Clear? ==> forall u | u in s.listed && u != o :: s.At(u) != F(FUnlock1)
    ensures Followers(c, s', o, p, NextStage(st))
    ensures |Debtors(s', o, NextStage(st))| == if Collecting(NextStage(st)) then |s.listed| - 1 else 0
  {
    forall u | u in s.listed && u != o
      ensures Allowed(NextStage(st), s.At(u)) && (Fresh(NextStage(st), s.At(u)) <==> Fresh(st, s.At(u)))
      ensures Owes(NextStage(st), s.At(u)) <==> Collecting(NextStage(st))
    {
      assert FollowerOk(c, s, p, st, u);
      assert u in Debtors(s, o, st) <==> Owes(st, s.At(u));
      StageAdvances(st, s.At(u));
    }
    Restage(c, s, s', o, p, st, NextStage(st));
    forall u | u in s.listed && u != o ensures u in Debtors(s', o, NextStage(st)) <==> Collecting(NextStage(st)) {
      assert Same(s, s', u);
    }
    assert Debtors(s', o, NextStage(st)) == if Collecting(NextStage(st)) then s.listed - {o} else {};
  }

  lemma RearmOwesAll(c: Config, s: State, o: Tid, p: Page)
    requires Followers(c, s, o, p, Rearm) && o in s.listed
    ensures |Debtors(s, o, Rearm)| == |s.listed| - 1
  {
    forall u | u in s.listed && u != o ensures u in Debtors(s, o, Rearm) {
      assert FollowerOk(c, s, p, Rearm, u);
    }
    assert Debtors(s, o, Rearm) == s.listed - {o};
  }

  lemma Stay(c: Config, s: State, s': State, o: Tid, p: Page, st: Stage)
    requires s'.base == s.base && s'.rounds == s.rounds && s'.listed == s.listed
    requires Followers(c, s, o, p, st) && OthersSame(s, s', o)
    ensures Followers(c, s', o, p, st) && Debtors(s', o, st) == Debtors(s, o, st)
  {
    Restage(c, s, s', o, p, st, st);
    forall u | u != o ensures u in Debtors(s', o, st) <==> u in Debtors(s, o, st) { assert Same(s, s', u); }
  }

  /** Followers and counter after any controller step inside a round. */
  lemma RoundAdvances(c: Config, s: State, s': State, t: Tid, k: CPhase, p: Page)
    requires s.At(t) == C(k, p) && 3 <= CRank(k) <= 17 && Enabled(c, s, t, Run) && OpenRound(c, s, t)
    requires ControllerDoes(c, s, s', t, k, p) && OthersSame(s, s', t)
    requires k.CStore2? ==> forall u | u in s.listed && u != t :: s.At(u) != F(FUnlock1)
    ensures Followers(c, s', t, p, StageOf(s'.At(t)))
    ensures s'.waiting == |Debtors(s', t, StageOf(s'.At(t)))|
  {
    var st := StageOf(C(k, p));
    StageOfSucc(k, p);
    if Evicting(c, s.Own(t), k, p) || !Advancing(k) {
      Stay(c, s, s', t, p, st);
    } else {
      if k.CRetire? { RearmOwesAll(c, s, t, p); }
      Advance(c, s, s', t, p, st);
    }
  }

  lemma OpenRoundAdvances(c: Config, s: State, s': State, t: Tid, k: CPhase, p: Page)
    requires WellFormed(c) && s.At(t) == C(k, p) && 3 <= CRank(k) <= 17 && Enabled(c, s, t, Run) && p in c.pages
    requires OpenRound(c, s, t) && WellTable(c, s.Own(t)) && ExecPhase(c, s, t) && (forall u: Tid :: Holders(s, u))
    requires ControllerDoes(c, s, s', t, k, p) && OthersSame(s, s', t)
    ensures OpenRound(c, s', t) && WellTable(c, s'.Own(t))
  {
    assert Holders(s, t);
    if k.CStore2? {
      forall u | u in s.listed && u != t ensures s.At(u) != F(FUnlock1) { assert Holders(s, u); }
    }
    RoundAdvances(c, s, s', t, k, p);
    WordsAdvance(s, s', c, t, k, p);
    TablesAdvance(c, s, s', t, k, p);
  }

  lemma ControllerInRound(c: Config, s: State, s': State, t: Tid, k: CPhase, p: Page)
    requires WellFormed(c) && Inv(c, s) && s.At(t) == C(k, p) && 3 <= CRank(k) <= 17 && Enabled(c, s, t, Run)
    requires ControllerDoes(c, s, s', t, k, p) && OthersSame(s, s', t) && LockMoves(s, s', t)
    ensures Inv(c, s')
  {
    assert Holders(s, t) && Placement(c, s, t) && ExecPhase(c, s, t);
    OpenRoundAdvances(c, s, s', t, k, p);
    ControllerExec(c, s, s', t, k, p);
    forall u: Tid | u != t ensures !HoldsHandler(s.At(u)) { assert Holders(s, u); }
    ExecKept(c, s, s', t);
    Reassemble(c, s, s', t);
  }

  // ---------------------------------------------------------------- opening and closing a round

  /** Nobody else can be in a handler, a wrapper or the thread list code while `t` holds both the
      handler and the sync mutex and no round is open. */
  lemma OthersOutside(c: Config, s: State, t: Tid, u: Tid)
    requires Holders(s, t) && Holders(s, u) && QuietPhase(s, u) && s.At(t).C? && u != t
    ensures Outside(s.At(u))
  {
  }

  lemma Opens(c: Config, s: State, s': State, t: Tid, p: Page)
    requires Inv(c, s) && s.At(t) == C(CAnnounce, p) && RoundStage(s).Quiet?
    requires ControllerDoes(c, s, s', t, CAnnounce, p) && OthersSame(s, s', t)
    ensures OpenRound(c, s', t)
  {
    assert Holders(s, t) && Placement(c, s, t);
    forall u | u in s'.listed && u != t ensures FollowerOk(c, s', p, Gather, u) {
      assert Holders(s, u) && QuietPhase(s, u) && Same(s, s', u);
      OthersOutside(c, s, t, u);
    }
    assert Debtors(s', t, Gather) == {};
  }

  lemma AnnounceKeepsInv(c: Config, s: State, s': State, t: Tid, p: Page)
    requires WellFormed(c) && Inv(c, s) && s.At(t) == C(CAnnounce, p)
    requires ControllerDoes(c, s, s', t, CAnnounce, p) && OthersSame(s, s', t) && LockMoves(s, s', t)
    ensures Inv(c, s')
  {
    assert Holders(s, t) && Placement(c, s, t) && ExecPhase(c, s, t);
    HandlerIsQuiet(s, t);
    Opens(c, s, s', t, p);
    ControllerExec(c, s, s', t, CAnnounce, p);
    ExecKept(c, s, s', t);
    Reassemble(c, s, s', t);
  }

  /** Giving the sync mutex back, on the way to making the page executable. */
  ghost predicate ReleaseDoes(s: State, s': State, t: Tid, p: Page) {
    && s'.At(t) == H(HExec, p) && Undisturbed(s, s') && s'.executable == s.executable && s'.listed == s.listed
    && s'.syncLock.None? && s'.Own(t) == s.Own(t) && s'.Runs(t) == s.Runs(t) && (t in s.tables ==> t in s'.tables)
  }

  lemma ReleaseEffect(c: Config, s: State, t: Tid, k: CPhase, p: Page)
    requires k.CRelease?
    ensures ReleaseDoes(s, ControllerNext(c, s, t, k, p), t, p)
  {
  }

  lemma Closes(c: Config, s: State, s': State, t: Tid, p: Page)
    requires Inv(c, s) && s.At(t) == C(CRelease, p) && OpenRound(c, s, t)
    requires ReleaseDoes(s, s', t, p) && OthersSame(s, s', t)
    ensures NoRound(s') && AllQuiet(s')
  {
    assert Holders(s, t);
    assert Debtors(s, t, Done) == {};
    forall u: Tid ensures QuietPhase(s', u) {
      assert Holders(s, u) && Placement(c, s, u);
      if u != t && u in s.listed { assert FollowerOk(c, s, p, Done, u); }
      assert u != t ==> Same(s, s', u);
    }
    forall u | u in s'.listed ensures s'.Own(u) == s'.global && s'.Runs(u) == s'.rounds {
      if u != t { assert FollowerOk(c, s, p, Done, u) && Same(s, s', u); }
    }
  }

  lemma ReleaseKeepsInv(c: Config, s: State, s': State, t: Tid, p: Page)
    requires WellFormed(c) && Inv(c, s) && s.At(t) == C(CRelease, p)
    requires ReleaseDoes(s, s', t, p) && OthersSame(s, s', t) && LockMoves(s, s', t)
    ensures Inv(c, s')
  {
    assert Holders(s, t) && Placement(c, s, t);
    Closes(c, s, s', t, p);
    SettledWatches(c, s.base, p);
    ExecKept(c, s, s', t);
    Reassemble(c, s, s', t);
  }

  /** The wrapper's first two steps never touch the round state. */
  lemma CheckEffect(c: Config, s: State, t: Tid, p: Page)
    requires s.At(t) == C(CCheck, p) && Holders(s, t) && Placement(c, s, t)
    requires p in s.executable ==> Watches(c, s.global, p)
    requires t != 0 && t in s.tables && s.Own(t) == s.global && s.Runs(t) == s.rounds
    ensures QuietMove(c, s, ControllerNext(c, s, t, CCheck, p), t)
    ensures ControllerNext(c, s, t, CCheck, p).executable == s.executable
  {
  }

  lemma SkipEffect(c: Config, s: State, t: Tid, p: Page)
    requires s.At(t) == C(CSkip, p) && Holders(s, t) && Placement(c, s, t) && ExecPhase(c, s, t)
    requires t != 0 && t in s.tables && s.Own(t) == s.global && s.Runs(t) == s.rounds
    ensures QuietMove(c, s, ControllerNext(c, s, t, CSkip, p), t)
    ensures ControllerNext(c, s, t, CSkip, p).executable == s.executable
  {
  }

  lemma ControllerKeepsInv(c: Config, s: State, t: Tid, k: CPhase, p: Page)
    requires WellFormed(c) && Inv(c, s) && s.At(t) == C(k, p) && Enabled(c, s, t, Run)
    ensures Inv(c, ControllerNext(c, s, t, k, p))
  {
    var s' := ControllerNext(c, s, t, k, p);
    assert Holders(s, t) && Placement(c, s, t) && ExecPhase(c, s, t);
    assert OthersSame(s, s', t) by {
      forall u: Tid | u != t ensures Same(s, s', u) { ControllerSame(c, s, t, k, p, u); }
    }
    if CRank(k) < 2 {
      HandlerIsQuiet(s, t);
      if k.CCheck? { CheckEffect(c, s, t, p); } else { SkipEffect(c, s, t, p); }
      QuietStep(c, s, s', t);
    } else {
      ControllerLocks(c, s, t, k, p);
      if k.CRelease? {
        ReleaseEffect(c, s, t, k, p);
        ReleaseKeepsInv(c, s, s', t, p);
      } else {
        ControllerEffect(c, s, t, k, p);
        if k.CAnnounce? { AnnounceKeepsInv(c, s, s', t, p); } else { ControllerInRound(c, s, s', t, k, p); }
      }
    }
  }
}
