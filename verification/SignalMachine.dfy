/** One thread crossing between the application and the monitor: system calls, signals, application signal
    handlers and their returns, nested to any depth.

  Each entry, exit, handler call, handler return, return setup and trampoline sequence is one step.
  `stack` is the control stack: which sequences are open, with the locals their frames hold. */
module SignalMachine {
  datatype Compartment = Monitor | Application

  /** The registers of a signal frame that the code saves, restores or tests. */
  datatype Regs = Regs(rip: int, efl: int, rsp: int, rax: int, rdx: int, rcx: int, r9: int)

  datatype Pending = NotReturning | Returning(final: Regs)

  /** An open sequence.  `entry` is the lowest trusted address it owns so far; `appSp` is what the saved
      stack pointer must hold while the sequence runs; `at` is the stack pointer that was interrupted. */
  datatype Act =
    | Sys(entry: int, appSp: int)
    | Sig(entry: int, appSp: int, from: Compartment, at: int, selector: int, pending: Pending)
    | Sud(entry: int, appSp: int, from: Compartment, at: int)
    | Handler(spot: int, altSize: int, oldSp: int, returnTo: int)

  datatype Stack = Empty | Frame(act: Act, rest: Stack)

  /** `hook` is the address of the system call hook. */
  datatype Config = Config(base: int, top: int, monitorFs: int, hook: int)

  datatype State = State(
    rsp: int, fs: int, savedSp: int, savedFs: int,
    compartment: Compartment, selector: int,
    altSize: int, level: int,
    sig: seq<int>, mem: map<int, int>, regs: Regs,
    stack: Stack, appFs: int)

  const ALLOW: int := 0
  const BLOCK: int := 1
  const RED_ZONE: int := 128
  const SIGRETURN_SLOTS: int := 4096

  function Code(c: Compartment): int { if c == Monitor then 0 else 1 }

  /** The kernel keeps using the alternate stack if the stack pointer is already on it. */
  predicate OnAltStack(cfg: Config, rsp: int, altSize: int) {
    cfg.base < rsp <= cfg.base + altSize
  }

  /** The address a signal frame is put below. */
  function FrameTop(cfg: Config, rsp: int, altSize: int): int {
    if OnAltStack(cfg, rsp, altSize) then rsp - RED_ZONE else cfg.base + altSize
  }

  /** A stack pointer of 0 marks an interrupted switch of the alternate stack; the real one is in r9. */
  function FinalRsp(r: Regs): int { if r.rsp == 0 then r.r9 else r.rsp }

  /** The lowest trusted address the open sequences still need. */
  function FloorOf(a: Act): int {
    match a
    case Sys(entry, _) => entry
    case Sig(entry, _, _, _, _, pending) => if pending.Returning? then entry + 8 else entry
    case Sud(entry, _, _, _) => entry
    case Handler(spot, _, _, _) => spot
  }

  function Floor(cfg: Config, k: Stack): int { if k.Empty? then cfg.top else FloorOf(k.act) }

  /** The trusted stack pointer while the application runs: where the innermost handler call left it. */
  function AppTop(cfg: Config, k: Stack): int {
    if k.Empty? then cfg.top else if k.act.Handler? then k.act.spot else AppTop(cfg, k.rest)
  }

  predicate InMonitor(k: Stack) { k.Frame? && !k.act.Handler? }

  /** `mem'` keeps every trusted word from `floor` up. */
  ghost predicate KeepsFrom(mem: map<int, int>, mem': map<int, int>, floor: int) {
    forall w | w in mem && w >= floor :: w in mem' && mem'[w] == mem[w]
  }

  // ---------------------------------------------------------------- steps

  datatype Step =
    | SyscallEntry
    | SyscallExit
    | Deliver(size: int, mem: map<int, int>)
    | CallHandler(room: int, returnTo: int)
    | ReturnHandler
    | SetupReturn(final: Regs)
    | Trampoline
    | EnterSud(size: int, mem: map<int, int>)
    | LeaveSud
    | MonitorWork(rsp: int, selector: int, mem: map<int, int>)
    | AppWork(rsp: int, fs: int, regs: Regs)

  /** Swap of stack pointers and thread-local bases, as every crossing does it. */
  function Swapped(s: State): State {
    s.(rsp := s.savedSp, savedSp := s.rsp, fs := s.savedFs, savedFs := s.fs)
  }

  predicate CanExit(s: State) { s.stack.Frame? && s.stack.act.Sys? && s.rsp == s.stack.act.entry }

  /** There is room for a frame, and the kernel writes nothing above it. */
  ghost predicate CanDeliver(cfg: Config, s: State, size: int, mem: map<int, int>) {
    var top := FrameTop(cfg, s.rsp, s.altSize);
    size >= 16 && cfg.base < top - size && KeepsFrom(s.mem, mem, top)
  }

  /** A signal is being handled and its return is not set up yet. */
  predicate Handling(s: State) { s.stack.Frame? && s.stack.act.Sig? && s.stack.act.pending == NotReturning }

  predicate CanCall(cfg: Config, s: State, room: int) { Handling(s) && room >= 0 && cfg.base < s.rsp - 16 }

  predicate CanReturn(s: State) {
    s.compartment == Application && s.level > 0 && s.savedSp in s.mem && s.savedSp + 8 in s.mem
  }

  /** The monitor leaves the stack pointer of its own interrupted code alone. */
  predicate CanSetUp(s: State, final: Regs) {
    Handling(s) && (s.stack.act.from == Monitor ==> FinalRsp(final) == s.stack.act.at)
  }

  predicate CanTrampoline(s: State) {
    && s.stack.Frame? && s.stack.act.Sig? && s.stack.act.pending.Returning?
    && |s.sig| >= 8 && (s.sig[|s.sig| - 8] != Code(Monitor) ==> |s.sig| >= 9)
  }

  predicate CanLeaveSud(cfg: Config, s: State) {
    && s.stack.Frame? && s.stack.act.Sud? && s.rsp == s.stack.act.entry
    && (s.stack.act.from == Application ==> s.rsp in s.mem)
    && (s.stack.act.from == Monitor ==> cfg.base < s.stack.act.at - 16)
  }

  /** Monitor code moves its stack pointer and writes memory only below what open sequences own. */
  ghost predicate CanWork(cfg: Config, s: State, rsp: int, mem: map<int, int>) {
    && InMonitor(s.stack) && !(s.stack.act.Sig? && s.stack.act.pending.Returning?)
    && cfg.base < rsp <= Floor(cfg, s.stack) && KeepsFrom(s.mem, mem, Floor(cfg, s.stack))
  }

  ghost predicate Enabled(cfg: Config, s: State, step: Step) {
    match step
    case SyscallEntry => s.compartment == Application
    case SyscallExit => CanExit(s)
    case Deliver(size, mem) => CanDeliver(cfg, s, size, mem)
    case CallHandler(room, _) => CanCall(cfg, s, room)
    case ReturnHandler => CanReturn(s)
    case SetupReturn(final) => CanSetUp(s, final)
    case Trampoline => CanTrampoline(s)
    case EnterSud(size, mem) => CanDeliver(cfg, s, size + 8, mem) && size >= 16
    case LeaveSud => CanLeaveSud(cfg, s)
    case MonitorWork(rsp, selector, mem) => CanWork(cfg, s, rsp, mem)
    case AppWork(_, _, _) => s.compartment == Application
  }

  /** The words pushed on the sigreturn stack when a signal handler finishes. */
  function ReturnSlots(from: Compartment, selector: int, final: Regs): seq<int> {
    [Code(from), selector, final.rip, final.efl, FinalRsp(final), final.rax, final.rdx, final.rcx]
  }

  function Next(cfg: Config, s: State, step: Step): State {
    match step
    case SyscallEntry => EnterSyscall(s)
    case SyscallExit => ExitSyscall(s)
    case Deliver(size, mem) => DeliverSignal(cfg, s, size, mem)
    case CallHandler(room, returnTo) => EnterHandler(cfg, s, room, returnTo)
    case ReturnHandler => LeaveHandler(s)
    case SetupReturn(final) => BeginReturn(s, final)
    case Trampoline => FinishReturn(s)
    case EnterSud(size, mem) => DeliverSud(cfg, s, size, mem)
    case LeaveSud => FinishSud(cfg, s)
    case MonitorWork(rsp, selector, mem) => s.(rsp := rsp, selector := selector, mem := mem)
    case AppWork(rsp, fs, regs) => s.(rsp := rsp, fs := fs, regs := regs, appFs := fs)
  }

  function EnterSyscall(s: State): State {
    Swapped(s).(selector := BLOCK, compartment := Monitor, stack := Frame(Sys(s.savedSp, s.rsp), s.stack))
  }

  function ExitSyscall(s: State): State {
    var rest := if s.stack.Frame? then s.stack.rest else s.stack;
    Swapped(s).(selector := BLOCK, compartment := Application, stack := rest)
  }

  /** Kernel frame on the alternate stack, then the signal entry sequence. */
  function DeliverSignal(cfg: Config, s: State, size: int, mem: map<int, int>): State {
    var entry := FrameTop(cfg, s.rsp, s.altSize) - size;
    if s.compartment == Application then
      s.(sig := s.sig + [s.savedSp], savedSp := s.rsp, fs := s.savedFs, savedFs := s.fs,
         rsp := entry, mem := mem, compartment := Monitor, selector := ALLOW,
         stack := Frame(Sig(entry, s.rsp, Application, s.rsp, s.selector, NotReturning), s.stack))
    else
      s.(rsp := entry, mem := mem, selector := ALLOW,
         stack := Frame(Sig(entry, s.savedSp, Monitor, s.rsp, s.selector, NotReturning), s.stack))
  }

  /** The call pushes its return address and the old size; the alternate stack then ends there. */
  function EnterHandler(cfg: Config, s: State, room: int, returnTo: int): State {
    var spot := s.rsp - 16;
    s.(mem := s.mem[s.rsp - 8 := returnTo][spot := s.altSize], altSize := spot - cfg.base,
       rsp := s.savedSp - room, savedSp := spot, fs := s.savedFs, savedFs := s.fs,
       level := s.level + 1, compartment := Application, selector := BLOCK,
       stack := Frame(Handler(spot, s.altSize, s.savedSp, returnTo), s.stack))
  }

  function LeaveHandler(s: State): State {
    if s.stack.Frame? && s.stack.act.Handler? && s.savedSp in s.mem && s.savedSp + 8 in s.mem then
      s.(rsp := s.savedSp + 16, savedSp := s.stack.act.oldSp, fs := s.savedFs, savedFs := s.fs,
         altSize := s.mem[s.savedSp], regs := s.regs.(rip := s.mem[s.savedSp + 8]),
         level := s.level - 1, compartment := Monitor, selector := BLOCK, stack := s.stack.rest)
    else s
  }

  function BeginReturn(s: State, final: Regs): State {
    if s.stack.Frame? && s.stack.act.Sig? then
      var a := s.stack.act;
      s.(sig := s.sig + ReturnSlots(a.from, a.selector, final), rsp := a.entry + 8, selector := ALLOW,
         stack := Frame(a.(pending := Returning(final)), s.stack.rest))
    else s
  }

  /** The trampoline pops what the return setup pushed, and the trusted stack pointer if it goes back to the
      application. */
  function FinishReturn(s: State): State {
    var n := |s.sig|;
    if n >= 8 && s.stack.Frame? then
      var regs := Regs(s.sig[n - 6], s.sig[n - 5], s.sig[n - 4], s.sig[n - 3], s.sig[n - 2], s.sig[n - 1], s.regs.r9);
      var t := s.(regs := regs, rsp := regs.rsp, selector := s.sig[n - 7], stack := s.stack.rest);
      if s.sig[n - 8] == Code(Monitor) then t.(sig := s.sig[..n - 8])
      else if n >= 9 then
        t.(compartment := Application, fs := s.savedFs, savedFs := s.fs, savedSp := s.sig[n - 9], sig := s.sig[..n - 9])
      else s
    else s
  }

  /** The system call dispatch signal keeps the trusted stack pointer on the trusted stack itself. */
  function DeliverSud(cfg: Config, s: State, size: int, mem: map<int, int>): State {
    var entry := FrameTop(cfg, s.rsp, s.altSize) - size;
    if s.compartment == Application then
      s.(savedSp := s.rsp, fs := s.savedFs, savedFs := s.fs,
         rsp := entry - 8, mem := mem[entry - 8 := s.savedSp], compartment := Monitor, selector := ALLOW,
         stack := Frame(Sud(entry - 8, s.rsp, Application, s.rsp), s.stack))
    else
      s.(rsp := entry, mem := mem, selector := ALLOW, stack := Frame(Sud(entry, s.savedSp, Monitor, s.rsp), s.stack))
  }

  /** The interrupted code resumes at the system call hook with two more words on its stack. */
  function FinishSud(cfg: Config, s: State): State {
    if s.stack.Frame? && s.stack.act.Sud? then
      var t := s.(rsp := s.stack.act.at - 16, regs := s.regs.(rip := cfg.hook), stack := s.stack.rest);
      if s.stack.act.from == Monitor then t
      else if s.rsp in s.mem then
        t.(savedSp := s.mem[s.rsp], fs := s.savedFs, savedFs := s.fs, compartment := Application)
      else s
    else s
  }

  /** A thread as it starts to run application code: the main thread uses its whole trusted stack, a new
      thread what is left of it below `sp`. */
  predicate Init(cfg: Config, s: State) {
    && cfg.base < cfg.top
    && s.stack == Empty && s.compartment == Application && s.savedSp == cfg.top && s.savedFs == cfg.monitorFs
    && s.altSize == cfg.top - cfg.base && s.level == 0 && s.sig == [] && s.appFs == s.fs && s.selector == BLOCK
  }

  ghost predicate StepAt(cfg: Config, run: seq<State>, steps: seq<Step>, i: int) {
    0 <= i < |steps| && i + 1 < |run| && Enabled(cfg, run[i], steps[i]) && run[i + 1] == Next(cfg, run[i], steps[i])
  }

  ghost predicate Execution(cfg: Config, run: seq<State>, steps: seq<Step>) {
    && |run| == |steps| + 1
    && forall i {:trigger StepAt(cfg, run, steps, i)} | 0 <= i < |steps| :: StepAt(cfg, run, steps, i)
  }
}
