/** Consequences for whole runs of a thread. */
module SignalSafety {
  import opened SignalMachine
  import opened SignalInvariant

  // ---------------------------------------------------------------- in every reachable state

  lemma {:induction false} TopInRange(cfg: Config, mem: map<int, int>, k: Stack)
    requires Ok(cfg, mem, k) && cfg.base < cfg.top
    ensures cfg.base < AppTop(cfg, k) <= cfg.top && Floor(cfg, k) <= cfg.top
  {
    if k.Frame? { TopInRange(cfg, mem, k.rest); }
  }

  /** In the application the trusted stack pointer and thread-local base are the saved ones, and the
      alternate stack ends where the saved stack pointer points; in the monitor they are the live ones. */
  lemma TrustedExactlyOnce(cfg: Config, run: seq<State>, steps: seq<Step>, n: nat)
    requires Execution(cfg, run, steps) && Init(cfg, run[0]) && n < |run|
    ensures var s := run[n];
            && (s.compartment == Application ==>
                  && s.savedSp == cfg.base + s.altSize && cfg.base < s.savedSp <= cfg.top
                  && s.savedFs == cfg.monitorFs && s.fs == s.appFs)
            && (s.compartment == Monitor ==>
                  && cfg.base < s.rsp <= cfg.base + s.altSize <= cfg.top
                  && s.fs == cfg.monitorFs && s.savedFs == s.appFs && InMonitor(s.stack)
                  && s.savedSp == s.stack.act.appSp)
  {
    RunKeepsInv(cfg, run, steps, n);
    TopInRange(cfg, run[n].mem, run[n].stack);
    FloorBelowTop(cfg, run[n].mem, run[n].stack);
  }

  predicate InStack(k: Stack, a: Act) { k.Frame? && (k.act == a || InStack(k.rest, a)) }

  lemma {:induction false} FloorIsLowest(cfg: Config, mem: map<int, int>, k: Stack, a: Act)
    requires Ok(cfg, mem, k) && InStack(k, a)
    ensures Floor(cfg, k) <= FloorOf(a)
  {
    if k.act != a { FloorIsLowest(cfg, mem, k.rest, a); }
  }

  /** At any depth, the frame of the next signal ends at or below the lowest address any open sequence owns,
      and so does whatever the next system call pushes. */
  lemma NewFramesBelowLive(cfg: Config, run: seq<State>, steps: seq<Step>, n: nat, a: Act)
    requires Execution(cfg, run, steps) && Init(cfg, run[0]) && n < |run| && InStack(run[n].stack, a)
    ensures FrameTop(cfg, run[n].rsp, run[n].altSize) <= FloorOf(a)
    ensures run[n].compartment == Application ==> run[n].savedSp <= FloorOf(a)
  {
    RunKeepsInv(cfg, run, steps, n);
    FloorIsLowest(cfg, run[n].mem, run[n].stack, a);
    FloorBelowTop(cfg, run[n].mem, run[n].stack);
  }

  lemma {:induction false} SlotsBound(cfg: Config, k: Stack)
    ensures |Slots(cfg, k)| <= 9 * Signals(k)
  {
    if k.Frame? { SlotsBound(cfg, k.rest); }
  }

  /** 455 open signals fit the sigreturn stack. */
  lemma SigreturnStackFits(cfg: Config, run: seq<State>, steps: seq<Step>, n: nat)
    requires Execution(cfg, run, steps) && Init(cfg, run[0]) && n < |run|
    ensures |run[n].sig| <= 9 * Signals(run[n].stack)
    ensures Signals(run[n].stack) <= 455 ==> |run[n].sig| <= SIGRETURN_SLOTS
  {
    RunKeepsInv(cfg, run, steps, n);
    SlotsBound(cfg, run[n].stack);
  }

  /** The handler level counts open handler calls, so its zero test tells a real handler return from a stray one;
      every pop of the return paths finds the word it needs. */
  lemma ReturnsAreGuarded(cfg: Config, run: seq<State>, steps: seq<Step>, n: nat)
    requires Execution(cfg, run, steps) && Init(cfg, run[0]) && n < |run|
    ensures var s := run[n];
            && s.level == Handlers(s.stack)
            && (s.compartment == Application && s.level > 0 ==>
                s.stack.Frame? && s.stack.act.Handler? && Enabled(cfg, s, ReturnHandler))
            && (s.compartment == Application && s.level == 0 ==> s.stack.Empty?)
            && (s.stack.Frame? && s.stack.act.Sig? && s.stack.act.pending.Returning? ==> Enabled(cfg, s, Trampoline))
            && (s.stack.Frame? && s.stack.act.Sud? && s.stack.act.from == Application && s.rsp == s.stack.act.entry ==>
                Enabled(cfg, s, LeaveSud))
  {
    var s := run[n];
    RunKeepsInv(cfg, run, steps, n);
    if s.stack.Frame? && s.stack.act.Sig? && s.stack.act.pending.Returning? { TrampolineFinds(cfg, s); }
  }

  // ---------------------------------------------------------------- matching returns

  function Depth(k: Stack): nat { if k.Empty? then 0 else 1 + Depth(k.rest) }

  /** The bottom `d` frames. */
  function Bottom(k: Stack, d: nat): Stack { if Depth(k) <= d then k else Bottom(k.rest, d) }

  /** The control stack fixes everything the crossings swap and count. */
  lemma StackDecides(cfg: Config, s: State, t: State)
    requires Inv(cfg, s) && Inv(cfg, t) && s.stack == t.stack
    ensures t.compartment == s.compartment && t.savedSp == s.savedSp && t.altSize == s.altSize
    ensures t.sig == s.sig && t.level == s.level
    ensures s.compartment == Application ==> t.savedFs == s.savedFs
    ensures s.compartment == Monitor ==> t.fs == s.fs
  {
  }

  lemma StepBottom(cfg: Config, s: State, step: Step, d: nat)
    requires Enabled(cfg, s, step)
    requires Depth(s.stack) >= d && (Depth(s.stack) > d || Depth(Next(cfg, s, step).stack) > Depth(s.stack))
    ensures Bottom(Next(cfg, s, step).stack, d) == Bottom(s.stack, d)
    ensures Depth(s.stack) - 1 <= Depth(Next(cfg, s, step).stack) <= Depth(s.stack) + 1
  {
    BottomPush(s.stack, d);
  }

  lemma BottomPush(k: Stack, d: nat)
    requires Depth(k) >= d
    ensures forall a :: Bottom(Frame(a, k), d) == Bottom(k, d)
    ensures k.Frame? && Depth(k) > d ==> Bottom(k, d) == Bottom(k.rest, d)
  {
  }

  /** From `i` to `j` the stack stays above its height at `i`, and is back at that height at `j`. */
  ghost predicate Nested(run: seq<State>, i: int, j: int) {
    && 0 <= i && i + 1 < j < |run|
    && (forall t | i < t < j :: Depth(run[t].stack) > Depth(run[i].stack))
    && Depth(run[j].stack) == Depth(run[i].stack)
  }

  lemma {:induction false} BottomKept(cfg: Config, run: seq<State>, steps: seq<Step>, i: int, j: int, t: int)
    requires Execution(cfg, run, steps) && Nested(run, i, j) && i <= t <= j
    ensures Bottom(run[t].stack, Depth(run[i].stack)) == run[i].stack
    decreases t
  {
    if t > i {
      BottomKept(cfg, run, steps, i, j, t - 1);
      assert StepAt(cfg, run, steps, t - 1);
      StepBottom(cfg, run[t - 1], steps[t - 1], Depth(run[i].stack));
    }
  }

  /** Whatever happens in between, coming back to the same height comes back to the same context. */
  lemma NestedRestores(cfg: Config, run: seq<State>, steps: seq<Step>, i: int, j: int)
    requires Execution(cfg, run, steps) && Init(cfg, run[0]) && Nested(run, i, j)
    ensures run[j].stack == run[i].stack
    ensures run[j].compartment == run[i].compartment && run[j].savedSp == run[i].savedSp
    ensures run[j].altSize == run[i].altSize
    ensures run[j].sig == run[i].sig && run[j].level == run[i].level
    ensures run[i].compartment == Application ==> run[j].savedFs == run[i].savedFs
    ensures run[i].compartment == Monitor ==> run[j].fs == run[i].fs
  {
    BottomKept(cfg, run, steps, i, j, j);
    RunKeepsInv(cfg, run, steps, i);
    RunKeepsInv(cfg, run, steps, j);
    StackDecides(cfg, run[i], run[j]);
  }

  /** The act just above the bottom `d` frames. */
  function Opened(k: Stack, d: nat): Stack { Bottom(k, d + 1) }

  /** `b` is `a`, possibly with its return set up since. */
  predicate SameAct(a: Act, b: Act) {
    if a.Sig? then b.Sig? && b == a.(pending := b.pending) else a == b
  }

  /** A step that deepens the stack pushes one act on it. */
  lemma OpeningStep(cfg: Config, s: State, step: Step)
    requires Enabled(cfg, s, step) && Depth(Next(cfg, s, step).stack) > Depth(s.stack)
    ensures Next(cfg, s, step).stack.Frame? && Next(cfg, s, step).stack.rest == s.stack
    ensures Next(cfg, s, step).stack.act.Sig? ==> Next(cfg, s, step).stack.act.pending == NotReturning
  {
  }

  /** A step above depth `d + 1` leaves the act there alone; one at that depth may set up its return. */
  lemma OpenedStep(cfg: Config, s: State, step: Step, d: nat)
    requires Enabled(cfg, s, step) && Depth(s.stack) > d && Depth(Next(cfg, s, step).stack) > d
    ensures var k, k' := Opened(s.stack, d), Opened(Next(cfg, s, step).stack, d);
            k' == k || (Depth(s.stack) == d + 1 && step.SetupReturn? && k.Frame? && k.act.Sig?
                        && k' == Frame(k.act.(pending := Returning(step.final)), k.rest))
  {
    BottomPush(s.stack, d + 1);
  }

  /** The return of the act at depth `d + 1` was set up with `final` at some step after `i` and before `t`. */
  ghost predicate SetUp(run: seq<State>, steps: seq<Step>, i: int, t: int, d: nat, final: Regs) {
    0 <= i && exists m ::
      && i < m < t && m < |steps| && m < |run| && steps[m] == SetupReturn(final)
      && Depth(run[m].stack) == d + 1
  }

  /** The act opened at `i` stays where it is, and only its own return setup touches it. */
  ghost predicate StillOpen(run: seq<State>, steps: seq<Step>, i: int, t: int, a: Act) {
    && 0 <= i < t < |run|
    && var d, k := Depth(run[i].stack), Opened(run[t].stack, Depth(run[i].stack));
    && k.Frame? && k.rest == run[i].stack && SameAct(a, k.act)
    && (k.act != a ==> k.act.Sig? && k.act.pending.Returning? && SetUp(run, steps, i, t, d, k.act.pending.final))
  }

  lemma OpenedAt(cfg: Config, run: seq<State>, steps: seq<Step>, i: int, j: int)
    requires Execution(cfg, run, steps) && Nested(run, i, j)
    ensures run[i + 1].stack.Frame? && run[i + 1].stack.rest == run[i].stack
    ensures run[i + 1].stack.act.Sig? ==> run[i + 1].stack.act.pending == NotReturning
    ensures StillOpen(run, steps, i, i + 1, run[i + 1].stack.act)
  {
    assert StepAt(cfg, run, steps, i);
    assert Depth(run[i + 1].stack) > Depth(run[i].stack);
    OpeningStep(cfg, run[i], steps[i]);
  }

  lemma {:induction false} OpenedKept(cfg: Config, run: seq<State>, steps: seq<Step>, i: int, j: int, t: int)
    requires Execution(cfg, run, steps) && Nested(run, i, j) && i < t < j
    ensures run[i + 1].stack.Frame? && StillOpen(run, steps, i, t, run[i + 1].stack.act)
    decreases t
  {
    OpenedAt(cfg, run, steps, i, j);
    if t > i + 1 {
      OpenedKept(cfg, run, steps, i, j, t - 1);
      OpenedMore(cfg, run, steps, i, j, t - 1);
    }
  }

  lemma OpenedMore(cfg: Config, run: seq<State>, steps: seq<Step>, i: int, j: int, t: int)
    requires Execution(cfg, run, steps) && Nested(run, i, j) && i < t < j - 1 && run[i + 1].stack.Frame?
    requires StillOpen(run, steps, i, t, run[i + 1].stack.act)
    ensures StillOpen(run, steps, i, t + 1, run[i + 1].stack.act)
  {
    var d, a := Depth(run[i].stack), run[i + 1].stack.act;
    var k, k' := Opened(run[t].stack, d), Opened(run[t + 1].stack, d);
    assert Depth(run[t].stack) > d && Depth(run[t + 1].stack) > d;
    assert StepAt(cfg, run, steps, t);
    OpenedStep(cfg, run[t], steps[t], d);
    if k' == k {
      if k.act != a { SetUpLater(run, steps, i, t, d, k.act.pending.final); }
    } else {
      assert SetUp(run, steps, i, t + 1, d, k'.act.pending.final);
    }
  }

  lemma SetUpLater(run: seq<State>, steps: seq<Step>, i: int, t: int, d: nat, final: Regs)
    requires SetUp(run, steps, i, t, d, final)
    ensures SetUp(run, steps, i, t + 1, d, final)
  {
  }

  /** A step that brings the stack down to depth `d` closes the act above it, in the way that act is closed. */
  lemma ClosingStep(cfg: Config, s: State, step: Step, d: nat)
    requires Inv(cfg, s) && Enabled(cfg, s, step) && Depth(s.stack) > d && Depth(Next(cfg, s, step).stack) == d
    ensures Depth(s.stack) == d + 1 && Opened(s.stack, d) == s.stack
    ensures match s.stack.act
            case Sys(_, _) => step == SyscallExit
            case Sig(_, _, _, _, _, pending) => step == Trampoline && pending.Returning?
            case Sud(_, _, _, _) => step == LeaveSud
            case Handler(_, _, _, _) => step == ReturnHandler
  {
    StepBottom(cfg, s, step, d);
  }

  lemma ClosesAt(cfg: Config, run: seq<State>, steps: seq<Step>, t: int, d: nat)
    requires Execution(cfg, run, steps) && Init(cfg, run[0]) && 0 <= t < |steps|
    requires Depth(run[t].stack) > d && Depth(run[t + 1].stack) == d
    ensures Depth(run[t].stack) == d + 1 && Opened(run[t].stack, d) == run[t].stack
    ensures match run[t].stack.act
            case Sys(_, _) => steps[t] == SyscallExit
            case Sig(_, _, _, _, _, pending) => steps[t] == Trampoline && pending.Returning?
            case Sud(_, _, _, _) => steps[t] == LeaveSud
            case Handler(_, _, _, _) => steps[t] == ReturnHandler
  {
    RunKeepsInv(cfg, run, steps, t);
    assert StepAt(cfg, run, steps, t);
    ClosingStep(cfg, run[t], steps[t], d);
  }

  /** At `j - 1` the act opened at `i` is on top, and the step from there closes it. */
  lemma ClosedAt(cfg: Config, run: seq<State>, steps: seq<Step>, i: int, j: int)
    requires Execution(cfg, run, steps) && Init(cfg, run[0]) && Nested(run, i, j)
    ensures var k, a := run[j - 1].stack, run[i + 1].stack;
            && a.Frame? && k.Frame? && k.rest == run[i].stack && SameAct(a.act, k.act)
            && (k.act != a.act ==>
                && k.act.Sig? && k.act.pending.Returning?
                && SetUp(run, steps, i, j - 1, Depth(run[i].stack), k.act.pending.final))
            && (a.act.Sig? ==> a.act.pending == NotReturning)
            && match a.act
               case Sys(_, _) => steps[j - 1] == SyscallExit
               case Sig(_, _, _, _, _, _) => steps[j - 1] == Trampoline && k.act.pending.Returning?
               case Sud(_, _, _, _) => steps[j - 1] == LeaveSud
               case Handler(_, _, _, _) => steps[j - 1] == ReturnHandler
  {
    OpenedAt(cfg, run, steps, i, j);
    OpenedKept(cfg, run, steps, i, j, j - 1);
    ClosesAt(cfg, run, steps, j - 1, Depth(run[i].stack));
  }

  lemma DeliveryRecords(cfg: Config, run: seq<State>, steps: seq<Step>, i: int)
    requires Execution(cfg, run, steps) && 0 <= i < |steps| && steps[i].Deliver?
    ensures var k := run[i + 1].stack;
            && k.Frame? && k.act.Sig? && k.act.from == run[i].compartment && k.act.selector == run[i].selector
            && k.act.at == run[i].rsp
  {
    assert StepAt(cfg, run, steps, i);
  }

  lemma TrampolineRestores(cfg: Config, run: seq<State>, steps: seq<Step>, j: int)
    requires Execution(cfg, run, steps) && Init(cfg, run[0]) && 0 <= j < |steps| && steps[j] == Trampoline
    ensures var a := run[j].stack; a.Frame? && a.act.Sig? && a.act.pending.Returning?
    ensures var a, f, s := run[j].stack.act, run[j].stack.act.pending.final, run[j + 1];
            && s.regs.rip == f.rip && s.regs.efl == f.efl && s.rsp == FinalRsp(f)
            && s.regs.rax == f.rax && s.regs.rdx == f.rdx && s.regs.rcx == f.rcx && s.selector == a.selector
            && (a.from == Monitor ==> s.rsp == a.at)
  {
    assert StepAt(cfg, run, steps, j);
    RunKeepsInv(cfg, run, steps, j);
    TrampolineFinds(cfg, run[j]);
  }

  /** For any nesting of signals, the return to the interrupted code restores the registers of the final signal
      frame, and the selector, compartment, trusted stack pointer and sigreturn stack as they were at delivery. */
  lemma SignalRoundTrip(cfg: Config, run: seq<State>, steps: seq<Step>, i: int, j: int) returns (final: Regs)
    requires Execution(cfg, run, steps) && Init(cfg, run[0]) && Nested(run, i, j) && steps[i].Deliver?
    ensures SetUp(run, steps, i, j - 1, Depth(run[i].stack), final) && steps[j - 1] == Trampoline
    ensures var s := run[j];
            && s.regs.rip == final.rip && s.regs.efl == final.efl && s.rsp == FinalRsp(final)
            && s.regs.rax == final.rax && s.regs.rdx == final.rdx && s.regs.rcx == final.rcx
    ensures run[j].selector == run[i].selector && run[j].compartment == run[i].compartment
    ensures run[j].savedSp == run[i].savedSp && run[j].sig == run[i].sig && run[j].stack == run[i].stack
    ensures run[i].compartment == Monitor ==> run[j].rsp == run[i].rsp
  {
    NestedRestores(cfg, run, steps, i, j);
    DeliveryRecords(cfg, run, steps, i);
    ClosedAt(cfg, run, steps, i, j);
    TrampolineRestores(cfg, run, steps, j - 1);
    final := run[j - 1].stack.act.pending.final;
  }

  lemma SyscallRecords(cfg: Config, run: seq<State>, steps: seq<Step>, i: int)
    requires Execution(cfg, run, steps) && 0 <= i < |steps| && steps[i] == SyscallEntry
    ensures run[i].compartment == Application && run[i + 1].stack.Frame?
    ensures run[i + 1].stack.act == Sys(run[i].savedSp, run[i].rsp)
  {
    assert StepAt(cfg, run, steps, i);
  }

  lemma ExitRestores(cfg: Config, run: seq<State>, steps: seq<Step>, j: int)
    requires Execution(cfg, run, steps) && Init(cfg, run[0]) && 0 <= j < |steps| && steps[j] == SyscallExit
    ensures run[j].stack.Frame? && run[j].stack.act.Sys?
    ensures run[j + 1].rsp == run[j].stack.act.appSp && run[j + 1].selector == BLOCK
    ensures run[j + 1].fs == run[j + 1].appFs
  {
    assert StepAt(cfg, run, steps, j);
    RunKeepsInv(cfg, run, steps, j);
  }

  /** A system call returns to the stack it was made from. */
  lemma SyscallRoundTrip(cfg: Config, run: seq<State>, steps: seq<Step>, i: int, j: int)
    requires Execution(cfg, run, steps) && Init(cfg, run[0]) && Nested(run, i, j) && steps[i] == SyscallEntry
    ensures steps[j - 1] == SyscallExit
    ensures run[j].rsp == run[i].rsp && run[j].savedSp == run[i].savedSp && run[j].savedFs == run[i].savedFs
    ensures run[j].fs == run[j].appFs
    ensures run[j].compartment == Application && run[j].selector == BLOCK && run[j].sig == run[i].sig
    ensures run[j].stack == run[i].stack
  {
    NestedRestores(cfg, run, steps, i, j);
    SyscallRecords(cfg, run, steps, i);
    ClosedAt(cfg, run, steps, i, j);
    ExitRestores(cfg, run, steps, j - 1);
  }

  lemma CallRecords(cfg: Config, run: seq<State>, steps: seq<Step>, i: int)
    requires Execution(cfg, run, steps) && 0 <= i < |steps| && steps[i].CallHandler?
    ensures run[i + 1].stack.Frame?
    ensures run[i + 1].stack.act == Handler(run[i].rsp - 16, run[i].altSize, run[i].savedSp, steps[i].returnTo)
    ensures run[i].stack.Frame? && run[i].stack.act.Sig?
  {
    assert StepAt(cfg, run, steps, i);
  }

  lemma ReturnRestores(cfg: Config, run: seq<State>, steps: seq<Step>, j: int)
    requires Execution(cfg, run, steps) && Init(cfg, run[0]) && 0 <= j < |steps| && steps[j] == ReturnHandler
    ensures run[j].stack.Frame? && run[j].stack.act.Handler?
    ensures run[j + 1].rsp == run[j].stack.act.spot + 16 && run[j + 1].regs.rip == run[j].stack.act.returnTo
    ensures run[j + 1].compartment == Monitor
  {
    assert StepAt(cfg, run, steps, j);
    RunKeepsInv(cfg, run, steps, j);
    ReturnKeepsInv(cfg, run[j]);
  }

  /** A handler call comes back to the return address it was made with, on the stack it was made from. */
  lemma HandlerRoundTrip(cfg: Config, run: seq<State>, steps: seq<Step>, i: int, j: int)
    requires Execution(cfg, run, steps) && Init(cfg, run[0]) && Nested(run, i, j) && steps[i].CallHandler?
    ensures steps[j - 1] == ReturnHandler
    ensures run[j].rsp == run[i].rsp && run[j].regs.rip == steps[i].returnTo && run[j].savedSp == run[i].savedSp
    ensures run[j].compartment == Monitor && run[j].altSize == run[i].altSize && run[j].level == run[i].level
  {
    NestedRestores(cfg, run, steps, i, j);
    CallRecords(cfg, run, steps, i);
    ClosedAt(cfg, run, steps, i, j);
    ReturnRestores(cfg, run, steps, j - 1);
  }

  lemma SudRecords(cfg: Config, run: seq<State>, steps: seq<Step>, i: int)
    requires Execution(cfg, run, steps) && 0 <= i < |steps| && steps[i].EnterSud?
    ensures run[i + 1].stack.Frame? && run[i + 1].stack.act.Sud?
    ensures run[i + 1].stack.act.from == run[i].compartment && run[i + 1].stack.act.at == run[i].rsp
  {
    assert StepAt(cfg, run, steps, i);
  }

  lemma LeaveRestores(cfg: Config, run: seq<State>, steps: seq<Step>, j: int)
    requires Execution(cfg, run, steps) && 0 <= j < |steps| && steps[j] == LeaveSud
    ensures run[j].stack.Frame? && run[j].stack.act.Sud?
    ensures run[j + 1].rsp == run[j].stack.act.at - 16 && run[j + 1].regs.rip == cfg.hook
  {
    assert StepAt(cfg, run, steps, j);
  }

  /** A dispatched system call resumes at the system call hook, two words further down the interrupted stack, with
      the trusted stack pointer back where it was. */
  lemma SudRoundTrip(cfg: Config, run: seq<State>, steps: seq<Step>, i: int, j: int)
    requires Execution(cfg, run, steps) && Init(cfg, run[0]) && Nested(run, i, j) && steps[i].EnterSud?
    ensures steps[j - 1] == LeaveSud && run[j].regs.rip == cfg.hook
    ensures run[j].rsp == run[i].rsp - 16 && run[j].savedSp == run[i].savedSp
    ensures run[j].compartment == run[i].compartment
    ensures run[j].sig == run[i].sig && run[j].altSize == run[i].altSize && run[j].stack == run[i].stack
  {
    NestedRestores(cfg, run, steps, i, j);
    SudRecords(cfg, run, steps, i);
    ClosedAt(cfg, run, steps, i, j);
    LeaveRestores(cfg, run, steps, j - 1);
  }
}
