/** Runs that exist: threads come and go, a fault is answered by a round that ends, and the page is executable then. */
module RoundRuns {
  import opened BreakpointTable
  import opened RoundProtocol
  import opened RoundInvariant
  import opened RoundSteps
  import opened RoundControllerSteps
  import opened RoundSafety
  import opened RoundProgress

  function Last(states: seq<State>): State
    requires states != []
  {
    states[|states| - 1]
  }

  lemma Extend(c: Config, states: seq<State>, moves: seq<(Tid, Action)>, t: Tid, a: Action)
    returns (states': seq<State>, moves': seq<(Tid, Action)>)
    requires Execution(c, states, moves) && Enabled(c, Last(states), t, a)
    ensures Execution(c, states', moves') && states <= states' && |states'| == |states| + 1
    ensures Last(states') == Next(c, Last(states), t, a)
  {
    states', moves' := states + [Next(c, Last(states), t, a)], moves + [(t, a)];
  }

  // ---------------------------------------------------------------- coming and going

  /** No thread is inside a wrapper or a handler. */
  ghost predicate Idle(s: State) { s.syncLock.None? && forall t :: s.At(t).Out? }

  /** A new thread takes the mutex and gets as far as listing itself. */
  lemma ReachListing(c: Config, states: seq<State>, moves: seq<(Tid, Action)>, t: Tid)
    returns (states': seq<State>, moves': seq<(Tid, Action)>)
    requires Execution(c, states, moves) && t != 0
    requires var s := Last(states); s.At(t).Out? && t !in s.listed && s.syncLock.None?
    ensures Execution(c, states', moves') && states <= states'
    ensures var s, s' := Last(states), Last(states');
            s'.At(t) == U(AList) && s'.listed == s.listed && forall u | u != t :: s'.At(u) == s.At(u)
  {
    states', moves' := Extend(c, states, moves, t, Arrive);
    states', moves' := Extend(c, states', moves', t, Run);
    states', moves' := Extend(c, states', moves', t, Run);
  }

  /** It then lists itself and lets go of the mutex. */
  lemma FinishListing(c: Config, states: seq<State>, moves: seq<(Tid, Action)>, t: Tid)
    returns (states': seq<State>, moves': seq<(Tid, Action)>)
    requires Execution(c, states, moves) && Last(states).At(t) == U(AList) && |Last(states).listed| < c.maxThreads
    ensures Execution(c, states', moves') && states <= states'
    ensures var s, s' := Last(states), Last(states');
            && s'.listed == s.listed + {t} && s'.syncLock.None?
            && s'.At(t).Out? && forall u | u != t :: s'.At(u) == s.At(u)
  {
    states', moves' := Extend(c, states, moves, t, Run);
    states', moves' := Extend(c, states', moves', t, Run);
  }

  /** From every idle state of a run with a free slot a new thread can come in. */
  lemma ThreadArrives(c: Config, states: seq<State>, moves: seq<(Tid, Action)>, t: Tid)
    returns (states': seq<State>, moves': seq<(Tid, Action)>)
    requires Execution(c, states, moves) && Idle(Last(states)) && t != 0
    requires t !in Last(states).listed && |Last(states).listed| < c.maxThreads
    ensures Execution(c, states', moves') && states <= states' && Idle(Last(states'))
    ensures Last(states').listed == Last(states).listed + {t}
  {
    states', moves' := ReachListing(c, states, moves, t);
    states', moves' := FinishListing(c, states', moves', t);
  }

  lemma StartLeaving(c: Config, states: seq<State>, moves: seq<(Tid, Action)>, t: Tid)
    returns (states': seq<State>, moves': seq<(Tid, Action)>)
    requires Execution(c, states, moves) && t in Last(states).listed
    requires Last(states).At(t).Out? && Last(states).syncLock.None?
    ensures Execution(c, states', moves') && states <= states'
    ensures var s, s' := Last(states), Last(states');
            s'.At(t) == U(LRemove) && s'.listed == s.listed && forall u | u != t :: s'.At(u) == s.At(u)
  {
    states', moves' := Extend(c, states, moves, t, Leave);
    states', moves' := Extend(c, states', moves', t, Run);
  }

  lemma FinishLeaving(c: Config, states: seq<State>, moves: seq<(Tid, Action)>, t: Tid)
    returns (states': seq<State>, moves': seq<(Tid, Action)>)
    requires Execution(c, states, moves) && Last(states).At(t) == U(LRemove)
    ensures Execution(c, states', moves') && states <= states'
    ensures var s, s' := Last(states), Last(states');
            && s'.listed == s.listed - {t} && s'.syncLock.None?
            && s'.At(t).Out? && forall u | u != t :: s'.At(u) == s.At(u)
  {
    states', moves' := Extend(c, states, moves, t, Run);
    states', moves' := Extend(c, states', moves', t, Run);
  }

  /** And every listed thread can leave. */
  lemma ThreadLeaves(c: Config, states: seq<State>, moves: seq<(Tid, Action)>, t: Tid)
    returns (states': seq<State>, moves': seq<(Tid, Action)>)
    requires Execution(c, states, moves) && Idle(Last(states)) && t in Last(states).listed
    ensures Execution(c, states', moves') && states <= states' && Idle(Last(states'))
    ensures Last(states').listed == Last(states).listed - {t}
  {
    states', moves' := StartLeaving(c, states, moves, t);
    states', moves' := FinishLeaving(c, states', moves', t);
  }

  /** A run at whose end exactly the threads 1 to `n` are listed and none is inside a wrapper. */
  lemma {:induction false} ListThreads(c: Config, n: nat) returns (states: seq<State>, moves: seq<(Tid, Action)>)
    requires n <= c.maxThreads
    ensures Execution(c, states, moves) && Idle(Last(states)) && |Last(states).listed| == n
    ensures forall t :: t in Last(states).listed <==> 1 <= t <= n
  {
    if n == 0 {
      var global := Table(c.statics, [], Total(c.statics), c.cap - Total(c.statics));
      var s := State(0, None, 0, None, None, None, {}, map[], map[], global, {}, NO_TABLE, 0, map[]);
      states, moves := [s], [];
    } else {
      states, moves := ListThreads(c, n - 1);
      states, moves := ThreadArrives(c, states, moves, n);
    }
  }

  /** Some run fails the one assertion that can fail. */
  lemma FullListReached(c: Config) returns (states: seq<State>, moves: seq<(Tid, Action)>, t: Tid)
    ensures Execution(c, states, moves) && ListIsFull(c, Last(states), t)
  {
    states, moves := ListThreads(c, c.maxThreads);
    t := c.maxThreads + 1;
    states, moves := ReachListing(c, states, moves, t);
  }

  // ---------------------------------------------------------------- a handler that is done leaves an executable page

  ghost predicate Answered(s: State, t: Tid) {
    match s.At(t)
    case H(HUnlock, p) => p in s.executable
    case _ => true
  }

  /** Execute permission is taken away only by an eviction. */
  lemma OnlyEvictionTakes(c: Config, s: State, u: Tid, a: Action, q: Page)
    requires Enabled(c, s, u, a) && q in s.executable && q !in Next(c, s, u, a).executable
    ensures (s.At(u).C? && s.At(u).k.CAdd?) || (s.At(u).F? && s.At(u).f.FAdd?)
  {
  }

  lemma OthersStay(c: Config, s: State, u: Tid, a: Action, t: Tid)
    requires Enabled(c, s, u, a) && t != u
    ensures Next(c, s, u, a).At(t) == s.At(t)
  {
    match s.At(u)
    case Out => StartSame(s, u, a, t);
    case H(h, p) => HandlerSame(s, u, h, p, t);
    case C(k, p) => ControllerSame(c, s, u, k, p, t);
    case F(f) => FollowerSame(c, s, u, f, t);
    case U(v) => ListSame(s, u, v, t);
  }

  /** A thread gets to the end of the handler only from its start or its last step. */
  lemma OwnStepAnswers(c: Config, s: State, t: Tid, a: Action)
    requires Enabled(c, s, t, a)
    ensures Answered(Next(c, s, t, a), t)
  {
    match s.At(t)
    case Out =>
    case H(h, p) => assert Next(c, s, t, a) == HandlerNext(s, t, h, p);
    case C(k, p) => ControllerStays(c, s, t, k, p);
    case F(f) => FollowerStays(c, s, t, f);
    case U(v) =>
  }

  lemma ControllerStays(c: Config, s: State, t: Tid, k: CPhase, p: Page)
    requires s.At(t) == C(k, p)
    ensures var s' := ControllerNext(c, s, t, k, p); (s'.At(t).C? || s'.At(t) == H(HExec, p)) && s'.listed == s.listed
  {
  }

  lemma FollowerStays(c: Config, s: State, t: Tid, f: FPhase)
    requires s.At(t) == F(f)
    ensures var s' := FollowerNext(c, s, t, f); (s'.At(t).F? || s'.At(t).Out?) && s'.listed == s.listed
  {
  }

  /** While a thread is done with its fault and about to leave, nobody evicts. */
  lemma NobodyEvicts(c: Config, s: State, t: Tid, u: Tid)
    requires Inv(c, s) && s.At(t).H? && s.At(t).h.HUnlock?
    ensures !(s.At(u).C? && s.At(u).k.CAdd?) && !(s.At(u).F? && s.At(u).f.FAdd?)
  {
    HandlerIsQuiet(s, t);
    assert Holders(s, t) && Holders(s, u) && QuietPhase(s, u);
  }

  lemma StepAnswers(c: Config, s: State, u: Tid, a: Action, t: Tid)
    requires Inv(c, s) && Enabled(c, s, u, a) && Answered(s, t)
    ensures Answered(Next(c, s, u, a), t)
  {
    var s' := Next(c, s, u, a);
    if t == u {
      OwnStepAnswers(c, s, t, a);
    } else {
      OthersStay(c, s, u, a, t);
      if s.At(t).H? && s.At(t).h.HUnlock? {
        NobodyEvicts(c, s, t, u);
        if s.At(t).p !in s'.executable { OnlyEvictionTakes(c, s, u, a, s.At(t).p); }
      }
    }
  }

  /** In every reachable state a thread that leaves the fault handler leaves its page executable. */
  lemma {:induction false} FaultLeavesExecutable(c: Config, states: seq<State>, moves: seq<(Tid, Action)>, i: nat,
                                                 t: Tid)
    requires WellFormed(c) && Execution(c, states, moves) && i < |states|
    ensures Answered(states[i], t)
  {
    if i > 0 {
      FaultLeavesExecutable(c, states, moves, i - 1, t);
      RunKeepsInv(c, states, moves, i - 1);
      StepAnswers(c, states[i - 1], moves[i - 1].0, moves[i - 1].1, t);
    }
  }

  // ---------------------------------------------------------------- a fault is answered

  /** A step taken while a round is open changes neither its page nor the thread list. */
  lemma RoundStays(c: Config, s: State, o: Tid, u: Tid, a: Action)
    requires Inv(c, s) && RoundOpenBy(s, o) && Enabled(c, s, u, a) && RoundOpenBy(Next(c, s, u, a), o)
    ensures Next(c, s, u, a).At(o).p == s.At(o).p && Next(c, s, u, a).listed == s.listed
  {
    OnlyRoundSteps(c, s, o, u, a);
    if u == o {
      ControllerKeepsPage(c, s, o, s.At(o).k, s.At(o).p);
    } else {
      OthersStay(c, s, u, a, o);
      if s.At(u).F? { FollowerStays(c, s, u, s.At(u).f); }
    }
  }

  lemma ControllerKeepsPage(c: Config, s: State, t: Tid, k: CPhase, p: Page)
    requires s.At(t) == C(k, p)
    ensures var s' := ControllerNext(c, s, t, k, p); s'.listed == s.listed && (s'.At(t).C? ==> s'.At(t).p == p)
  {
  }

  /** Every open round can be run to its end, whatever the other threads are doing. */
  lemma {:induction false} RoundCompletes(c: Config, states: seq<State>, moves: seq<(Tid, Action)>, o: Tid)
    returns (states': seq<State>, moves': seq<(Tid, Action)>)
    requires WellFormed(c) && Execution(c, states, moves) && RoundOpenBy(Last(states), o)
    ensures Execution(c, states', moves') && states <= states'
    ensures Last(states').At(o) == C(CRelease, Last(states).At(o).p) && Last(states').listed == Last(states).listed
    decreases Work(Last(states), o)
  {
    states', moves' := states, moves;
    var s := Last(states);
    if !s.At(o).k.CRelease? {
      RunKeepsInv(c, states, moves, |states| - 1);
      var u, a := RoundNeverBlocks(c, s, o);
      RoundStepShrinks(c, s, o, u, a);
      RoundStays(c, s, o, u, a);
      states', moves' := Extend(c, states, moves, u, a);
      states', moves' := RoundCompletes(c, states', moves', o);
    }
  }

  lemma IdleIsUnlocked(c: Config, s: State)
    requires Inv(c, s) && Idle(s)
    ensures s.handlerLock.None?
  {
    var t := if s.handlerLock.Some? then s.handlerLock.value else 0;
    assert Holders(s, t) && s.At(t).Out?;
  }

  lemma FaultEnters(c: Config, states: seq<State>, moves: seq<(Tid, Action)>, t: Tid, p: Page)
    returns (states': seq<State>, moves': seq<(Tid, Action)>)
    requires Execution(c, states, moves) && Enabled(c, Last(states), t, Fault(p)) && Last(states).At(t).Out?
    requires p !in Last(states).executable && Last(states).syncLock.None?
    ensures Execution(c, states', moves') && states <= states'
    ensures var s, s' := Last(states), Last(states');
            s'.At(t) == C(CCheck, p) && s'.listed == s.listed && s'.executable == s.executable
  {
    states', moves' := Extend(c, states, moves, t, Fault(p));
    states', moves' := Extend(c, states', moves', t, Run);
    states', moves' := Extend(c, states', moves', t, Run);
  }

  /** A fault on a page that is not executable becomes a round for that page. */
  lemma FaultOpensRound(c: Config, states: seq<State>, moves: seq<(Tid, Action)>, t: Tid, p: Page)
    returns (states': seq<State>, moves': seq<(Tid, Action)>)
    requires WellFormed(c) && Execution(c, states, moves) && Idle(Last(states))
    requires t in Last(states).listed && p in c.pages && p !in Last(states).executable
    ensures Execution(c, states', moves') && states <= states'
    ensures Last(states').At(t) == C(CPublish, p) && Last(states').listed == Last(states).listed
  {
    RunKeepsInv(c, states, moves, |states| - 1);
    IdleIsUnlocked(c, Last(states));
    states', moves' := FaultEnters(c, states, moves, t, p);
    states', moves' := Extend(c, states', moves', t, Run);
    states', moves' := Extend(c, states', moves', t, Run);
  }

  /** The end of a round, and what follows in the handler. */
  lemma HandlerFinishes(c: Config, states: seq<State>, moves: seq<(Tid, Action)>, t: Tid, p: Page)
    returns (states': seq<State>, moves': seq<(Tid, Action)>)
    requires Execution(c, states, moves) && Last(states).At(t) == C(CRelease, p)
    ensures Execution(c, states', moves') && states <= states' && |states'| == |states| + 3
    ensures Last(states').At(t).Out? && p in Last(states').executable && Last(states').listed == Last(states).listed
  {
    states', moves' := Extend(c, states, moves, t, Run);
    states', moves' := Extend(c, states', moves', t, Run);
    states', moves' := Extend(c, states', moves', t, Run);
  }

  /** From every idle state of every run, with any number of listed threads, a fault can be served: a round for the
      page opens and ends, and the thread goes on with the page executable. */
  lemma FaultIsServed(c: Config, states: seq<State>, moves: seq<(Tid, Action)>, t: Tid, p: Page)
    returns (states': seq<State>, moves': seq<(Tid, Action)>, i: nat)
    requires WellFormed(c) && Execution(c, states, moves) && Idle(Last(states))
    requires t in Last(states).listed && p in c.pages && p !in Last(states).executable
    ensures Execution(c, states', moves') && states <= states' && |states| <= i < |states'|
    ensures states'[i].At(t) == C(CRelease, p)
    ensures Last(states').At(t).Out? && p in Last(states').executable && Last(states').listed == Last(states).listed
  {
    states', moves' := FaultOpensRound(c, states, moves, t, p);
    states', moves' := RoundCompletes(c, states', moves', t);
    i := |states'| - 1;
    states', moves' := HandlerFinishes(c, states', moves', t, p);
  }

  /** So for every number of threads that fits and every recorded page, some run makes the page executable; all
      those threads watch it then. */
  lemma PageBecomesExecutable(c: Config, n: nat, p: Page) returns (states: seq<State>, moves: seq<(Tid, Action)>)
    requires WellFormed(c) && 1 <= n <= c.maxThreads && p in c.pages
    ensures Execution(c, states, moves) && p in Last(states).executable
    ensures forall t | 1 <= t <= n :: t in Last(states).listed && Watches(c, Last(states).Own(t), p)
  {
    states, moves := ListThreads(c, n);
    if p !in Last(states).executable {
      var i;
      states, moves, i := FaultIsServed(c, states, moves, 1, p);
    }
    RunKeepsInv(c, states, moves, |states| - 1);
  }
}
