/** Runs that exist: from every state in the application with room on the trusted stack, a system call, a signal with
    an application handler and a dispatched system call can each be carried through. */
module SignalRuns {
  import opened SignalMachine
  import opened SignalInvariant
  import opened SignalSafety

  function Last(run: seq<State>): State
    requires run != []
  {
    run[|run| - 1]
  }

  /** A run of the machine from its start. */
  ghost predicate IsRun(cfg: Config, run: seq<State>, steps: seq<Step>) {
    Execution(cfg, run, steps) && Init(cfg, run[0])
  }

  lemma Extend(cfg: Config, run: seq<State>, steps: seq<Step>, step: Step)
    returns (run': seq<State>, steps': seq<Step>)
    requires IsRun(cfg, run, steps) && Enabled(cfg, Last(run), step)
    ensures IsRun(cfg, run', steps') && steps' == steps + [step] && run <= run'
    ensures Last(run') == Next(cfg, Last(run), step)
  {
    run', steps' := run + [Next(cfg, Last(run), step)], steps + [step];
    forall i | 0 <= i < |steps'| ensures StepAt(cfg, run', steps', i) {
      if i < |steps| { assert StepAt(cfg, run, steps, i); }
    }
  }

  /** A system call comes back. */
  lemma SyscallRuns(cfg: Config, run: seq<State>, steps: seq<Step>) returns (run': seq<State>, steps': seq<Step>)
    requires IsRun(cfg, run, steps) && Last(run).compartment == Application
    ensures IsRun(cfg, run', steps') && steps' == steps + [SyscallEntry, SyscallExit]
    ensures Last(run').compartment == Application && Last(run').rsp == Last(run).rsp
    ensures Last(run').stack == Last(run).stack
  {
    run', steps' := Extend(cfg, run, steps, SyscallEntry);
    run', steps' := Extend(cfg, run', steps', SyscallExit);
  }

  /** A signal is delivered to the application, whose handler runs and returns; the thread goes on as `final` says. */
  lemma SignalRuns(cfg: Config, run: seq<State>, steps: seq<Step>, size: int, room: nat, returnTo: int, final: Regs)
    returns (run': seq<State>, steps': seq<Step>)
    requires IsRun(cfg, run, steps) && Last(run).compartment == Application && size >= 16
    requires cfg.base < FrameTop(cfg, Last(run).rsp, Last(run).altSize) - size - 16
    ensures IsRun(cfg, run', steps')
    ensures steps' == steps + [Deliver(size, Last(run).mem), CallHandler(room, returnTo), ReturnHandler,
                               SetupReturn(final), Trampoline]
    ensures Last(run').compartment == Application && Last(run').stack == Last(run).stack
    ensures Last(run').regs.rip == final.rip && Last(run').rsp == FinalRsp(final)
  {
    run', steps' := HandlerReached(cfg, run, steps, size, room, returnTo);
    run', steps' := HandlerReturns(cfg, run', steps');
    run', steps' := SignalReturns(cfg, run', steps', final);
  }

  lemma HandlerReached(cfg: Config, run: seq<State>, steps: seq<Step>, size: int, room: nat, returnTo: int)
    returns (run': seq<State>, steps': seq<Step>)
    requires IsRun(cfg, run, steps) && Last(run).compartment == Application && size >= 16
    requires cfg.base < FrameTop(cfg, Last(run).rsp, Last(run).altSize) - size - 16
    ensures IsRun(cfg, run', steps')
    ensures steps' == steps + [Deliver(size, Last(run).mem), CallHandler(room, returnTo)]
    ensures Last(run').compartment == Application && HandlerOver(Last(run').stack, Last(run).stack)
  {
    run', steps' := Extend(cfg, run, steps, Deliver(size, Last(run).mem));
    run', steps' := Extend(cfg, run', steps', CallHandler(room, returnTo));
  }

  /** A handler call on top of a signal from the application, on top of `k`. */
  ghost predicate HandlerOver(k': Stack, k: Stack) {
    k'.Frame? && k'.act.Handler? && SignalOver(k'.rest, k)
  }

  ghost predicate SignalOver(k': Stack, k: Stack) {
    k'.Frame? && k'.act.Sig? && k'.act.pending == NotReturning && k'.act.from == Application && k'.rest == k
  }

  lemma HandlerReturns(cfg: Config, run: seq<State>, steps: seq<Step>)
    returns (run': seq<State>, steps': seq<Step>)
    requires IsRun(cfg, run, steps) && Last(run).compartment == Application
    requires Last(run).stack.Frame? && Last(run).stack.act.Handler?
    ensures IsRun(cfg, run', steps') && steps' == steps + [ReturnHandler]
    ensures Last(run').stack == Last(run).stack.rest
  {
    RunKeepsInv(cfg, run, steps, |steps|);
    run', steps' := Extend(cfg, run, steps, ReturnHandler);
  }

  lemma SignalReturns(cfg: Config, run: seq<State>, steps: seq<Step>, final: Regs)
    returns (run': seq<State>, steps': seq<Step>)
    requires IsRun(cfg, run, steps) && Last(run).stack.Frame? && SignalOver(Last(run).stack, Last(run).stack.rest)
    ensures IsRun(cfg, run', steps') && steps' == steps + [SetupReturn(final), Trampoline]
    ensures Last(run').compartment == Application && Last(run').stack == Last(run).stack.rest
    ensures Last(run').regs.rip == final.rip && Last(run').rsp == FinalRsp(final)
  {
    run', steps' := ReturnSetUp(cfg, run, steps, final);
    run', steps' := TrampolineRuns(cfg, run', steps', final);
  }

  /** A signal from the application on top of `k`, about to return as `final` says. */
  ghost predicate ReturningOver(k': Stack, k: Stack, final: Regs) {
    k'.Frame? && k'.act.Sig? && k'.act.pending == Returning(final) && k'.act.from == Application && k'.rest == k
  }

  lemma ReturnSetUp(cfg: Config, run: seq<State>, steps: seq<Step>, final: Regs)
    returns (run': seq<State>, steps': seq<Step>)
    requires IsRun(cfg, run, steps) && Last(run).stack.Frame? && SignalOver(Last(run).stack, Last(run).stack.rest)
    ensures IsRun(cfg, run', steps') && steps' == steps + [SetupReturn(final)]
    ensures ReturningOver(Last(run').stack, Last(run).stack.rest, final)
  {
    run', steps' := Extend(cfg, run, steps, SetupReturn(final));
  }

  lemma TrampolineRuns(cfg: Config, run: seq<State>, steps: seq<Step>, final: Regs)
    returns (run': seq<State>, steps': seq<Step>)
    requires IsRun(cfg, run, steps)
    requires Last(run).stack.Frame? && ReturningOver(Last(run).stack, Last(run).stack.rest, final)
    ensures IsRun(cfg, run', steps') && steps' == steps + [Trampoline]
    ensures Last(run').compartment == Application && Last(run').stack == Last(run).stack.rest
    ensures Last(run').regs.rip == final.rip && Last(run').rsp == FinalRsp(final)
  {
    RunKeepsInv(cfg, run, steps, |steps|);
    TrampolineFinds(cfg, Last(run));
    run', steps' := Extend(cfg, run, steps, Trampoline);
  }

  /** A system call caught by dispatch is brought to the hook, enters there and comes back. */
  lemma DispatchRuns(cfg: Config, run: seq<State>, steps: seq<Step>, size: int)
    returns (run': seq<State>, steps': seq<Step>)
    requires IsRun(cfg, run, steps) && Last(run).compartment == Application && size >= 16
    requires cfg.base < FrameTop(cfg, Last(run).rsp, Last(run).altSize) - size - 8
    ensures IsRun(cfg, run', steps')
    ensures steps' == steps + [EnterSud(size, Last(run).mem), LeaveSud, SyscallEntry, SyscallExit]
    ensures Last(run').compartment == Application && Last(run').rsp == Last(run).rsp - 16
    ensures Last(run').stack == Last(run).stack && Last(run').selector == BLOCK
  {
    run', steps' := Extend(cfg, run, steps, EnterSud(size, Last(run).mem));
    run', steps' := Extend(cfg, run', steps', LeaveSud);
    run', steps' := Extend(cfg, run', steps', SyscallEntry);
    run', steps' := Extend(cfg, run', steps', SyscallExit);
  }
}
