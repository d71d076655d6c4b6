/** What holds of a thread in every state it can reach, however deeply signals and system calls nest. */
module SignalInvariant {
  import opened SignalMachine

  /** An open sequence fits on top of the ones below it, and the words it left in trusted memory are intact. */
  ghost predicate ActOk(cfg: Config, mem: map<int, int>, a: Act, rest: Stack) {
    && cfg.base < FloorOf(a) <= Floor(cfg, rest)
    && match a
       case Sys(entry, _) => !InMonitor(rest) && entry == AppTop(cfg, rest)
       case Sig(entry, appSp, from, at, _, pending) =>
         && entry + 8 < Floor(cfg, rest) && InterruptOk(cfg, appSp, from, at, rest)
         && (pending.Returning? && from == Monitor ==> FinalRsp(pending.final) == at)
       case Sud(entry, appSp, from, at) =>
         && entry < Floor(cfg, rest) && InterruptOk(cfg, appSp, from, at, rest)
         && (from == Application ==> entry in mem && mem[entry] == AppTop(cfg, rest))
       case Handler(spot, altSize, oldSp, returnTo) =>
         && rest.Frame? && rest.act.Sig? && rest.act.pending == NotReturning && oldSp == rest.act.appSp
         && spot + 16 <= FloorOf(rest.act)
         && spot in mem && mem[spot] == altSize && spot + 8 in mem && mem[spot + 8] == returnTo
         && cfg.base + altSize == AppTop(cfg, rest)
  }

  /** A signal from the application found no monitor sequence running; one from the monitor interrupted one. */
  predicate InterruptOk(cfg: Config, appSp: int, from: Compartment, at: int, rest: Stack) {
    if from == Application then !InMonitor(rest) && appSp == at
    else InMonitor(rest) && appSp == rest.act.appSp && cfg.base < at <= Floor(cfg, rest)
  }

  ghost predicate Ok(cfg: Config, mem: map<int, int>, k: Stack) {
    k.Empty? || (Ok(cfg, mem, k.rest) && ActOk(cfg, mem, k.act, k.rest))
  }

  /** What the sigreturn stack holds for one open sequence. */
  function ActSlots(cfg: Config, a: Act, rest: Stack): seq<int> {
    if a.Sig? then
      (if a.from == Application then [AppTop(cfg, rest)] else [])
      + (if a.pending.Returning? then ReturnSlots(a.from, a.selector, a.pending.final) else [])
    else []
  }

  function Slots(cfg: Config, k: Stack): seq<int> {
    if k.Empty? then [] else Slots(cfg, k.rest) + ActSlots(cfg, k.act, k.rest)
  }

  /** Open handler calls. */
  function Handlers(k: Stack): nat { if k.Empty? then 0 else Handlers(k.rest) + if k.act.Handler? then 1 else 0 }

  /** Open signals. */
  function Signals(k: Stack): nat { if k.Empty? then 0 else Signals(k.rest) + if k.act.Sig? then 1 else 0 }

  /** Exactly one stack pointer and one thread-local base is the trusted one, and it is live exactly in the monitor. */
  predicate Placed(cfg: Config, s: State) {
    if InMonitor(s.stack) then
      && s.compartment == Monitor && s.fs == cfg.monitorFs && cfg.base < s.rsp <= Floor(cfg, s.stack)
      && s.savedSp == s.stack.act.appSp && s.savedFs == s.appFs
    else
      && s.compartment == Application && s.savedSp == AppTop(cfg, s.stack) && s.savedFs == cfg.monitorFs
      && s.fs == s.appFs
  }

  ghost predicate Inv(cfg: Config, s: State) {
    && Ok(cfg, s.mem, s.stack) && Placed(cfg, s)
    && cfg.base + s.altSize == AppTop(cfg, s.stack)
    && s.sig == Slots(cfg, s.stack) && s.level == Handlers(s.stack)
  }

  // ---------------------------------------------------------------- frames

  lemma {:induction false} FloorBelowTop(cfg: Config, mem: map<int, int>, k: Stack)
    requires Ok(cfg, mem, k)
    ensures Floor(cfg, k) <= AppTop(cfg, k) && (k.Frame? ==> cfg.base < Floor(cfg, k))
  {
    if k.Frame? { FloorBelowTop(cfg, mem, k.rest); }
  }

  /** Writing below the floor touches no word an open sequence relies on. */
  lemma {:induction false} MemKept(cfg: Config, mem: map<int, int>, mem': map<int, int>, k: Stack)
    requires Ok(cfg, mem, k) && KeepsFrom(mem, mem', Floor(cfg, k))
    ensures Ok(cfg, mem', k)
  {
    if k.Frame? { MemKept(cfg, mem, mem', k.rest); }
  }

  // ---------------------------------------------------------------- steps

  lemma InitHolds(cfg: Config, s: State)
    requires Init(cfg, s)
    ensures Inv(cfg, s)
  {
  }

  lemma SyscallKeepsInv(cfg: Config, s: State, step: Step)
    requires Inv(cfg, s) && Enabled(cfg, s, step) && (step.SyscallEntry? || step.SyscallExit?) && cfg.base < cfg.top
    ensures Inv(cfg, Next(cfg, s, step))
  {
    FloorBelowTop(cfg, s.mem, s.stack);
  }

  lemma DeliverKeepsInv(cfg: Config, s: State, size: int, mem: map<int, int>)
    requires Inv(cfg, s) && Enabled(cfg, s, Deliver(size, mem))
    ensures Inv(cfg, Next(cfg, s, Deliver(size, mem)))
  {
    FloorBelowTop(cfg, s.mem, s.stack);
    MemKept(cfg, s.mem, mem, s.stack);
  }

  lemma SudKeepsInv(cfg: Config, s: State, size: int, mem: map<int, int>)
    requires Inv(cfg, s) && Enabled(cfg, s, EnterSud(size, mem))
    ensures Inv(cfg, Next(cfg, s, EnterSud(size, mem)))
  {
    FloorBelowTop(cfg, s.mem, s.stack);
    MemKept(cfg, s.mem, mem, s.stack);
    var s' := Next(cfg, s, EnterSud(size, mem));
    MemKept(cfg, mem, s'.mem, s.stack);
  }

  lemma LeaveSudKeepsInv(cfg: Config, s: State)
    requires Inv(cfg, s) && Enabled(cfg, s, LeaveSud)
    ensures Inv(cfg, Next(cfg, s, LeaveSud))
  {
  }

  lemma CallKeepsInv(cfg: Config, s: State, room: int, returnTo: int)
    requires Inv(cfg, s) && Enabled(cfg, s, CallHandler(room, returnTo))
    ensures Inv(cfg, Next(cfg, s, CallHandler(room, returnTo)))
  {
    var s' := Next(cfg, s, CallHandler(room, returnTo));
    MemKept(cfg, s.mem, s'.mem, s.stack);
  }

  lemma ReturnKeepsInv(cfg: Config, s: State)
    requires Inv(cfg, s) && Enabled(cfg, s, ReturnHandler)
    ensures s.stack.Frame? && s.stack.act.Handler?
    ensures Inv(cfg, Next(cfg, s, ReturnHandler))
  {
    assert s.stack.Frame?;
  }

  lemma SetupKeepsInv(cfg: Config, s: State, final: Regs)
    requires Inv(cfg, s) && Enabled(cfg, s, SetupReturn(final))
    ensures Inv(cfg, Next(cfg, s, SetupReturn(final)))
  {
  }

  /** What the trampoline finds on the sigreturn stack. */
  lemma TrampolineFinds(cfg: Config, s: State)
    requires Inv(cfg, s) && s.stack.Frame? && s.stack.act.Sig? && s.stack.act.pending.Returning?
    ensures var a, n := s.stack.act, |s.sig|; var f := a.pending.final;
            && n >= 8
            && s.sig[n - 8] == Code(a.from) && s.sig[n - 7] == a.selector && s.sig[n - 6] == f.rip
            && s.sig[n - 5] == f.efl
            && s.sig[n - 4] == FinalRsp(f) && s.sig[n - 3] == f.rax && s.sig[n - 2] == f.rdx && s.sig[n - 1] == f.rcx
            && (a.from == Monitor ==> s.sig[..n - 8] == Slots(cfg, s.stack.rest))
            && (a.from == Application ==>
                n >= 9 && s.sig[n - 9] == AppTop(cfg, s.stack.rest) && s.sig[..n - 9] == Slots(cfg, s.stack.rest))
  {
    var a := s.stack.act;
    var below, words := Slots(cfg, s.stack.rest), ReturnSlots(a.from, a.selector, a.pending.final);
    if a.from == Application {
      assert s.sig == below + ([AppTop(cfg, s.stack.rest)] + words);
    } else {
      assert s.sig == below + ([] + words);
    }
  }

  lemma TrampolineKeepsInv(cfg: Config, s: State)
    requires Inv(cfg, s) && Enabled(cfg, s, Trampoline)
    ensures Inv(cfg, Next(cfg, s, Trampoline))
  {
    TrampolineFinds(cfg, s);
  }

  lemma WorkKeepsInv(cfg: Config, s: State, step: Step)
    requires Inv(cfg, s) && Enabled(cfg, s, step) && (step.MonitorWork? || step.AppWork?)
    ensures Inv(cfg, Next(cfg, s, step))
  {
    if step.MonitorWork? { MemKept(cfg, s.mem, step.mem, s.stack); }
  }

  lemma StepKeepsInv(cfg: Config, s: State, step: Step)
    requires Inv(cfg, s) && Enabled(cfg, s, step) && cfg.base < cfg.top
    ensures Inv(cfg, Next(cfg, s, step))
  {
    match step
    case SyscallEntry => SyscallKeepsInv(cfg, s, step);
    case SyscallExit => SyscallKeepsInv(cfg, s, step);
    case Deliver(size, mem) => DeliverKeepsInv(cfg, s, size, mem);
    case CallHandler(room, returnTo) => CallKeepsInv(cfg, s, room, returnTo);
    case ReturnHandler => ReturnKeepsInv(cfg, s);
    case SetupReturn(final) => SetupKeepsInv(cfg, s, final);
    case Trampoline => TrampolineKeepsInv(cfg, s);
    case EnterSud(size, mem) => SudKeepsInv(cfg, s, size, mem);
    case LeaveSud => LeaveSudKeepsInv(cfg, s);
    case MonitorWork(_, _, _) => WorkKeepsInv(cfg, s, step);
    case AppWork(_, _, _) => WorkKeepsInv(cfg, s, step);
  }

  lemma {:induction false} RunKeepsInv(cfg: Config, run: seq<State>, steps: seq<Step>, n: nat)
    requires Execution(cfg, run, steps) && Init(cfg, run[0]) && n < |run|
    ensures Inv(cfg, run[n])
  {
    if n == 0 {
      InitHolds(cfg, run[0]);
    } else {
      RunKeepsInv(cfg, run, steps, n - 1);
      assert StepAt(cfg, run, steps, n - 1);
      StepKeepsInv(cfg, run[n - 1], steps[n - 1]);
    }
  }
}
