/** The dispatch selector while application code runs: system calls are blocked, and so reach the monitor, except
    between a dispatch exit and the system call entry it jumps to. */
module SignalSelector {
  import opened SignalMachine
  import opened SignalInvariant
  import opened SignalSafety

  /** History of a run: whether a dispatch exit is still waiting for its system call entry, now (`due`) and, for every
      open signal from the outermost in, when it came (`saved`). */
  datatype Debt = Debt(due: bool, saved: seq<bool>)

  function Popped(d: Debt): Debt {
    if d.saved == [] then d else Debt(d.saved[|d.saved| - 1], d.saved[..|d.saved| - 1])
  }

  function DebtAfter(d: Debt, step: Step): Debt {
    match step
    case SyscallEntry => d.(due := false)
    case Deliver(_, _) => Debt(false, d.saved + [d.due])
    case EnterSud(_, _) => Debt(false, d.saved + [d.due])
    case CallHandler(_, _) => d.(due := false)
    case Trampoline => Popped(d)
    case LeaveSud => Popped(d).(due := true)
    case _ => d
  }

  /** The history after the first `i` steps. */
  function DebtAt(steps: seq<Step>, i: nat): Debt
    requires i <= |steps|
  {
    if i == 0 then Debt(false, []) else DebtAfter(DebtAt(steps, i - 1), steps[i - 1])
  }

  /** What the open signals will restore: BLOCK for the application, unless it was waiting for its entry. */
  ghost predicate Restores(k: Stack, saved: seq<bool>) {
    if k.Empty? then saved == []
    else if k.act.Sig? || k.act.Sud? then
      && saved != [] && Restores(k.rest, saved[..|saved| - 1])
      && (k.act.Sig? && k.act.from == Application ==> saved[|saved| - 1] || k.act.selector == BLOCK)
    else Restores(k.rest, saved)
  }

  ghost predicate SelectorOk(s: State, d: Debt) {
    Restores(s.stack, d.saved) && (s.compartment == Application ==> d.due || s.selector == BLOCK)
  }

  lemma PushRestores(k: Stack, saved: seq<bool>, due: bool, a: Act)
    requires Restores(k, saved) && (a.Sig? || a.Sud?)
    requires a.Sig? && a.from == Application ==> due || a.selector == BLOCK
    ensures Restores(Frame(a, k), saved + [due])
  {
    assert (saved + [due])[..|saved|] == saved;
  }

  lemma ReturnKeepsSelector(cfg: Config, s: State, d: Debt)
    requires Inv(cfg, s) && Enabled(cfg, s, Trampoline) && SelectorOk(s, d)
    ensures SelectorOk(FinishReturn(s), Popped(d))
  {
    TrampolineFinds(cfg, s);
  }

  lemma StepKeepsSelector(cfg: Config, s: State, step: Step, d: Debt)
    requires Inv(cfg, s) && Enabled(cfg, s, step) && SelectorOk(s, d)
    ensures SelectorOk(Next(cfg, s, step), DebtAfter(d, step))
  {
    match step
    case Deliver(size, mem) => PushRestores(s.stack, d.saved, d.due, DeliverSignal(cfg, s, size, mem).stack.act);
    case EnterSud(size, mem) => PushRestores(s.stack, d.saved, d.due, DeliverSud(cfg, s, size, mem).stack.act);
    case Trampoline => ReturnKeepsSelector(cfg, s, d);
    case ReturnHandler => ReturnKeepsInv(cfg, s);
    case _ =>
  }

  lemma {:induction false} RunKeepsSelector(cfg: Config, run: seq<State>, steps: seq<Step>, i: nat)
    requires Execution(cfg, run, steps) && Init(cfg, run[0]) && i <= |steps|
    ensures SelectorOk(run[i], DebtAt(steps, i))
  {
    if i > 0 {
      RunKeepsSelector(cfg, run, steps, i - 1);
      RunKeepsInv(cfg, run, steps, i - 1);
      assert StepAt(cfg, run, steps, i - 1);
      StepKeepsSelector(cfg, run[i - 1], steps[i - 1], DebtAt(steps, i - 1));
    }
  }

  /** In every reachable state application code runs with system calls blocked, unless a dispatch exit has not been
      followed by its system call entry yet. */
  lemma ApplicationIsBlocked(cfg: Config, run: seq<State>, steps: seq<Step>, i: nat)
    requires Execution(cfg, run, steps) && Init(cfg, run[0]) && i <= |steps| && run[i].compartment == Application
    ensures run[i].selector == BLOCK || DebtAt(steps, i).due
  {
    RunKeepsSelector(cfg, run, steps, i);
  }

  /** An application handler starts on the application's stack, below `room` bytes of it, with system calls blocked and
      the trusted stack pointer put away under what the call pushed. */
  lemma HandlerStarts(cfg: Config, run: seq<State>, steps: seq<Step>, i: nat)
    requires Execution(cfg, run, steps) && Init(cfg, run[0]) && i < |steps| && steps[i].CallHandler?
    ensures run[i].compartment == Monitor && run[i + 1].compartment == Application && run[i + 1].selector == BLOCK
    ensures run[i + 1].rsp == run[i].savedSp - steps[i].room && run[i + 1].savedSp == run[i].rsp - 16
    ensures cfg.base + run[i + 1].altSize == run[i + 1].savedSp
    ensures var sp, mem := run[i + 1].savedSp, run[i + 1].mem;
            sp in mem && mem[sp] == run[i].altSize && sp + 8 in mem && mem[sp + 8] == steps[i].returnTo
  {
    RunKeepsInv(cfg, run, steps, i);
    assert StepAt(cfg, run, steps, i);
  }
}
