/** The two-phase breakpoint round as a transition system over any number of threads.

  A thread that faults on a read-only page becomes the controller of a round; every other listed
  thread must enter the follower wrapper, update its own breakpoint table and leave again.  Every
  atomic load, store, decrement and lock operation on the shared state is one step; table updates
  are broken into single evictions.  Noticing a controller and entering the follower wrapper is one
  step, because the handlers run with all signals masked. */
module RoundProtocol {
  import opened BreakpointTable

  type Tid = nat
  type Page = nat

  datatype Option<T> = None | Some(value: T)

  /** What the scan recorded before the run: the hardware budget, the pages of the fault handler
      itself, and for each watchable page the addresses of its unsafe instructions. */
  datatype Config = Config(cap: nat, statics: seq<seq<Addr>>, pages: map<Page, seq<Addr>>, maxThreads: nat)

  /** Recorded instructions lie on their page, and every page alone fits next to the static ones. */
  ghost predicate WellFormed(c: Config) {
    && [] !in c.statics && Total(c.statics) <= c.cap
    && forall p | p in c.pages :: WatchablePage(c, p)
  }

  ghost predicate WatchablePage(c: Config, p: Page)
    requires p in c.pages
  {
    && 1 <= |c.pages[p]| <= c.cap - Total(c.statics)
    && forall i | 0 <= i < |c.pages[p]| :: PageOf(c.pages[p][i]) == p
  }

  /** The fault handler around a round. */
  datatype HPhase = HTest | HSync | HExec | HUnlock

  /** `add_breakpoint_wrapper`, in program order. */
  datatype CPhase =
    | CCheck | CSkip | CAnnounce | CPublish | CSignal | CAdd | CDrop | CGlobal | CLock1 | CStore1 | CUnlock1
    | CWait1 | CClear | CLock2 | CStore2 | CUnlock2 | CRetire | CWait2 | CRelease

  /** `other_thread_add_breakpoint_wrapper`, in program order; `q` is the page the thread loaded. */
  datatype FPhase =
    | FWait1 | FPage | FLoad | FAdd(q: Page) | FDrop(q: Page) | FLock1 | FTest1 | FDec1 | FUnlock1
    | FWait2 | FLock2 | FTest2 | FDec2 | FUnlock2

  /** `update_active_thread_list`: arriving (A) and leaving (L). */
  datatype UPhase = ACheck | ACopy | AList | ARelease | LCheck | LRemove | LRelease

  datatype Phase = Out | H(h: HPhase, p: Page) | C(k: CPhase, p: Page) | F(f: FPhase) | U(u: UPhase)

  const NO_TABLE: Table := Table([], [], 0, 0)

  /** The last three fields are history: the global table when the current round opened, how many
      rounds have opened, and how many of them each thread has run `add_breakpoints` for. */
  datatype State = State(
    controller: Tid, page: Option<Page>, waiting: int,
    handlerLock: Option<Tid>, syncLock: Option<Tid>, countLock: Option<Tid>,
    listed: set<Tid>, phase: map<Tid, Phase>,
    tables: map<Tid, Table>, global: Table, executable: set<Page>,
    base: Table, rounds: nat, runs: map<Tid, nat>)
  {
    function At(t: Tid): Phase { if t in phase then phase[t] else Out }

    function Runs(t: Tid): nat { if t in runs then runs[t] else 0 }

    function To(t: Tid, ph: Phase): State { this.(phase := phase[t := ph]) }

    function Own(t: Tid): Table { if t in tables then tables[t] else NO_TABLE }
  }

  /** What a thread outside every wrapper may start; `Run` continues a wrapper. */
  datatype Action = Run | Fault(p: Page) | Follow | Arrive | Leave

  /** Thread `t` is about to list itself and the list is full. */
  predicate ListIsFull(c: Config, s: State, t: Tid) { s.At(t) == U(AList) && |s.listed| >= c.maxThreads }

  /** A thread whose list is full has failed an assertion and takes no further step. */
  predicate Enabled(c: Config, s: State, t: Tid, a: Action) {
    match s.At(t)
    case Out =>
      (match a
       case Run => false
       case Fault(p) => t in s.listed && p in c.pages && s.handlerLock.None?
       case Follow => t in s.listed && s.controller != 0
       case Arrive => t !in s.listed && t != 0 && s.syncLock.None?
       case Leave => t in s.listed && s.syncLock.None?)
    case H(h, _) => a.Run? && (h.HSync? ==> s.syncLock.None?)
    case C(k, _) => a.Run? && (k.CLock1? || k.CLock2? ==> s.countLock.None?)
                           && (k.CWait1? || k.CWait2? ==> s.waiting == 0)
    case F(f) => a.Run? && (f.FLock1? || f.FLock2? ==> s.countLock.None?)
                        && (f.FWait1? ==> s.waiting != 0) && (f.FWait2? ==> s.controller == 0)
    case U(u) => a.Run? && !ListIsFull(c, s, t)
  }

  function Instructions(c: Config, p: Page): seq<Addr> { if p in c.pages then c.pages[p] else [] }

  predicate Fits(c: Config, t: Table, p: Page) { t.used + |Instructions(c, p)| <= c.cap }

  function OldestPage(t: Table): Page {
    if t.dynamics == [] || t.dynamics[0] == [] then 0 else PageOf(t.dynamics[0][0])
  }

  /** One pass of the eviction loop: place the page if it fits, else make the oldest watched page
      non-executable; dropping its breakpoints is the next step. */
  function AddStep(c: Config, s: State, t: Tid, p: Page, placed: Phase, drop: Phase): State {
    if Fits(c, s.Own(t), p)
    then s.(tables := s.tables[t := Placed(s.Own(t), Instructions(c, p), false)],
            runs := s.runs[t := s.Runs(t) + 1]).To(t, placed)
    else s.(executable := s.executable - {OldestPage(s.Own(t))}).To(t, drop)
  }

  function Start(s: State, t: Tid, a: Action): State {
    match a
    case Run => s
    case Fault(p) => s.(handlerLock := Some(t)).To(t, H(HTest, p))
    case Follow => s.To(t, F(FWait1))
    case Arrive => s.(syncLock := Some(t)).To(t, U(ACheck))
    case Leave => s.(syncLock := Some(t)).To(t, U(LCheck))
  }

  /** `secpoline_segfault_handler`, the read-only page branch. */
  function HandlerNext(s: State, t: Tid, h: HPhase, p: Page): State {
    match h
    case HTest => if p in s.executable then s.To(t, H(HUnlock, p)) else s.To(t, H(HSync, p))
    case HSync => s.(syncLock := Some(t)).To(t, C(CCheck, p))
    case HExec => s.(executable := s.executable + {p}).To(t, H(HUnlock, p))
    case HUnlock => s.(handlerLock := None).To(t, Out)
  }

  function ControllerNext(c: Config, s: State, t: Tid, k: CPhase, p: Page): State {
    match k
    case CCheck => if p in s.executable then s.To(t, C(CSkip, p)) else s.To(t, C(CAnnounce, p))
    case CSkip => s.(syncLock := None).To(t, H(HExec, p))
    case CAnnounce => s.(controller := t, base := s.global, rounds := s.rounds + 1).To(t, C(CPublish, p))
    case CPublish => s.(page := Some(p)).To(t, C(CSignal, p))
    case CSignal => s.To(t, C(CAdd, p))
    case CAdd => AddStep(c, s, t, p, C(CGlobal, p), C(CDrop, p))
    case CDrop => s.(tables := s.tables[t := DropOldest(s.Own(t))]).To(t, C(CAdd, p))
    case CGlobal => s.(global := s.Own(t)).To(t, C(CLock1, p))
    case CLock1 => s.(countLock := Some(t)).To(t, C(CStore1, p))
    case CStore1 => s.(waiting := |s.listed| - 1).To(t, C(CUnlock1, p))
    case CUnlock1 => s.(countLock := None).To(t, C(CWait1, p))
    case CWait1 => s.To(t, C(CClear, p))
    case CClear => s.(page := None).To(t, C(CLock2, p))
    case CLock2 => s.(countLock := Some(t)).To(t, C(CStore2, p))
    case CStore2 => s.(waiting := |s.listed| - 1).To(t, C(CUnlock2, p))
    case CUnlock2 => s.(countLock := None).To(t, C(CRetire, p))
    case CRetire => s.(controller := 0).To(t, C(CWait2, p))
    case CWait2 => s.To(t, C(CRelease, p))
    case CRelease => s.(syncLock := None).To(t, H(HExec, p))
  }

  function FollowerNext(c: Config, s: State, t: Tid, f: FPhase): State {
    match f
    case FWait1 => s.To(t, F(FPage))
    case FPage => s.To(t, F(FLoad))
    case FLoad => if s.page.Some? then s.To(t, F(FAdd(s.page.value))) else s
    case FAdd(q) => AddStep(c, s, t, q, F(FLock1), F(FDrop(q)))
    case FDrop(q) => s.(tables := s.tables[t := DropOldest(s.Own(t))]).To(t, F(FAdd(q)))
    case FLock1 => s.(countLock := Some(t)).To(t, F(FTest1))
    case FTest1 => s.To(t, F(FDec1))
    case FDec1 => s.(waiting := s.waiting - 1).To(t, F(FUnlock1))
    case FUnlock1 => s.(countLock := None).To(t, F(FWait2))
    case FWait2 => s.To(t, F(FLock2))
    case FLock2 => s.(countLock := Some(t)).To(t, F(FTest2))
    case FTest2 => s.To(t, F(FDec2))
    case FDec2 => s.(waiting := s.waiting - 1).To(t, F(FUnlock2))
    case FUnlock2 => s.(countLock := None).To(t, Out)
  }

  function ListNext(s: State, t: Tid, u: UPhase): State {
    match u
    case ACheck => s.To(t, U(ACopy))
    case ACopy => s.(tables := s.tables[t := s.global], runs := s.runs[t := s.rounds]).To(t, U(AList))
    case AList => s.(listed := s.listed + {t}).To(t, U(ARelease))
    case ARelease => s.(syncLock := None).To(t, Out)
    case LCheck => s.To(t, U(LRemove))
    case LRemove => s.(listed := s.listed - {t}).To(t, U(LRelease))
    case LRelease => s.(syncLock := None).To(t, Out)
  }

  function Next(c: Config, s: State, t: Tid, a: Action): State {
    match s.At(t)
    case Out => Start(s, t, a)
    case H(h, p) => HandlerNext(s, t, h, p)
    case C(k, p) => ControllerNext(c, s, t, k, p)
    case F(f) => FollowerNext(c, s, t, f)
    case U(u) => ListNext(s, t, u)
  }

  /** The `nolibc_assert`s (and the page pointer dereference) a thread is about to evaluate. */
  ghost predicate AssertionsHold(c: Config, s: State, t: Tid) {
    match s.At(t)
    case C(CCheck, p) => p !in s.executable ==> s.controller == 0 && s.waiting == 0 && s.page.None?
    case C(CAdd, p) => AddAssertions(c, s.Own(t), p)
    case F(FAdd(q)) => AddAssertions(c, s.Own(t), q)
    case C(CDrop, _) => s.Own(t).dynamics != [] && s.Own(t).dynamics[0] != []
    case F(FDrop(_)) => s.Own(t).dynamics != [] && s.Own(t).dynamics[0] != []
    case F(FPage) => s.page.Some?
    case F(FLoad) => s.page.Some?
    case F(FTest1) => s.waiting > 0
    case F(FDec1) => s.waiting > 0
    case F(FTest2) => s.waiting > 0
    case F(FDec2) => s.waiting > 0
    case U(ACheck) => s.controller == 0
    case U(AList) => |s.listed| < c.maxThreads
    case U(LCheck) => s.controller == 0
    case _ => true
  }

  ghost predicate AddAssertions(c: Config, own: Table, p: Page) {
    && 1 <= |Instructions(c, p)| <= own.maxDynamic
    && (!Fits(c, own, p) ==> own.dynamics != [] && own.dynamics[0] != [])
  }

  /** No thread listed, nothing executable, the global table holding the static pages only. */
  ghost predicate Init(c: Config, s: State) {
    && s.controller == 0 && s.page.None? && s.waiting == 0
    && s.handlerLock.None? && s.syncLock.None? && s.countLock.None?
    && s.listed == {} && s.phase == map[] && s.executable == {} && s.rounds == 0
    && s.global == Table(c.statics, [], Total(c.statics), c.cap - Total(c.statics))
  }

  /** A finite execution: from an initial state, one step of some thread after the other. */
  ghost predicate Execution(c: Config, states: seq<State>, moves: seq<(Tid, Action)>) {
    && |states| == |moves| + 1 && Init(c, states[0])
    && forall i | 0 <= i < |moves| ::
         && Enabled(c, states[i], moves[i].0, moves[i].1)
         && states[i + 1] == Next(c, states[i], moves[i].0, moves[i].1)
  }
}
