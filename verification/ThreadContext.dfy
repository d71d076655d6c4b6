/** The per-thread context the crossing sequences read and write, and the sequences themselves in the order of
    their instructions.  Each is proved to do one step of the signal machine. */
module ThreadContext {
  import opened SignalMachine

  /** The registers of the thread. */
  datatype Cpu = Cpu(rsp: int, fs: int, regs: Regs)

  /** The thread's trusted data: the other stack pointer and thread-local base, and the crossing's bookkeeping. */
  datatype Data = Data(sp: int, fsBase: int, compartment: Compartment, selector: int, altSize: int, level: nat)

  class Thread {
    const cfg: Config
    var cpu: Cpu
    var data: Data
    const slots: array<int>
    var current: nat
    var mem: map<int, int>
    // the suspended sequences with the locals their frames hold
    var stack: Stack
    ghost var appFs: int

    ghost predicate Valid()
      reads this, slots
    {
      slots.Length == SIGRETURN_SLOTS && current <= slots.Length
    }

    ghost function Model(): State
      requires Valid()
      reads this, slots
    {
      State(cpu.rsp, cpu.fs, data.sp, data.fsBase, data.compartment, data.selector, data.altSize, data.level,
            slots[..current], mem, cpu.regs, stack, appFs)
    }

    /** The context of a thread about to run application code, with its trusted stack empty below `sp`. */
    constructor (base: int, sp: int, monitorFs: int, hook: int, app: Cpu, mem: map<int, int>)
      requires base < sp
      ensures Valid() && fresh(slots) && cfg == Config(base, sp, monitorFs, hook) && Init(cfg, Model())
    {
      cfg := Config(base, sp, monitorFs, hook);
      cpu, data := app, Data(sp, monitorFs, Application, BLOCK, sp - base, 0);
      slots, current, this.mem := new int[SIGRETURN_SLOTS], 0, mem;
      stack, appFs := Empty, app.fs;
    }

    method SyscallHookEntry()
      requires Valid() && data.compartment == Application
      modifies this
      ensures Valid() && Model() == EnterSyscall(old(Model()))
      ensures data.compartment == Monitor && data.selector == BLOCK
      ensures cpu.rsp == old(data.sp) && data.sp == old(cpu.rsp)
    {
      var c, d := cpu, data.(selector := BLOCK);
      stack := Frame(Sys(d.sp, c.rsp), stack);
      c, d := c.(rsp := d.sp), d.(sp := c.rsp);
      c, d := c.(fs := d.fsBase), d.(fsBase := c.fs);
      cpu, data := c, d.(compartment := Monitor);
    }

    method SyscallHookExit()
      requires Valid() && CanExit(Model())
      modifies this
      ensures Valid() && Model() == ExitSyscall(old(Model()))
      ensures data.compartment == Application && data.selector == BLOCK && cpu.rsp == old(data.sp)
    {
      var c, d := cpu, data;
      c, d := c.(fs := d.fsBase), d.(fsBase := c.fs);
      c, d := c.(rsp := d.sp), d.(sp := c.rsp);
      cpu, data := c, d.(compartment := Application, selector := BLOCK);
      stack := stack.rest;
    }

    method Push(v: int)
      requires Valid() && current < slots.Length
      modifies `current, slots
      ensures Valid() && current == old(current) + 1 && slots[..current] == old(slots[..current]) + [v]
    {
      slots[current] := v;
      current := current + 1;
    }

    /** Signal entry: the kernel has put a frame of `size` bytes on the alternate stack. */
    method SignalEntry(size: int, frame: map<int, int>)
      requires Valid() && CanDeliver(cfg, Model(), size, frame) && current < slots.Length
      modifies this, slots
      ensures Valid() && Model() == DeliverSignal(cfg, old(Model()), size, frame)
      ensures data.compartment == Monitor && data.selector == ALLOW && stack.act.selector == old(data.selector)
    {
      var c, d := cpu, data;
      var top := FrameTop(cfg, c.rsp, d.altSize);
      if d.compartment == Application {
        Push(d.sp);
        d := d.(sp := c.rsp);
        c, d := c.(fs := d.fsBase), d.(fsBase := c.fs);
      }
      stack := Frame(Sig(top - size, d.sp, d.compartment, c.rsp, d.selector, NotReturning), stack);
      cpu, data, mem := c.(rsp := top - size), d.(compartment := Monitor, selector := ALLOW), frame;
    }

    /** Calls the application's handler with `room` bytes of its stack set aside. */
    method CallAppHandler(room: int, returnTo: int)
      requires Valid() && CanCall(cfg, Model(), room)
      modifies this
      ensures Valid() && Model() == EnterHandler(cfg, old(Model()), room, returnTo)
      ensures data.compartment == Application && data.selector == BLOCK && cpu.rsp == old(data.sp) - room
      ensures data.sp == old(cpu.rsp) - 16 == cfg.base + data.altSize
    {
      var c, d := cpu, data;
      var untrusted, size := d.sp, d.altSize;
      d := d.(sp := untrusted - room);
      var m := mem[c.rsp - 8 := returnTo];
      m, c := m[c.rsp - 16 := size], c.(rsp := c.rsp - 16);
      d := d.(altSize := c.rsp - cfg.base, selector := BLOCK);
      mem, stack := m, Frame(Handler(c.rsp, size, untrusted, returnTo), stack);
      c, d := c.(rsp := d.sp), d.(sp := c.rsp);
      c, d := c.(fs := d.fsBase), d.(fsBase := c.fs);
      cpu, data := c, d.(level := d.level + 1, compartment := Application);
    }

    /** Comes back from the application's handler; a return that no call matches traps. */
    method ReturnFromHandler() returns (trapped: bool)
      requires Valid() && data.compartment == Application
      requires data.level > 0 ==> CanReturn(Model()) && stack.Frame? && stack.act.Handler?
      modifies this
      ensures Valid() && (trapped <==> old(data.level) == 0)
      ensures !trapped ==> Model() == LeaveHandler(old(Model()))
      ensures !trapped ==> data.compartment == Monitor && data.selector == BLOCK && cpu.rsp == old(data.sp) + 16
    {
      var c, d := cpu, data.(compartment := Monitor);
      if d.level == 0 { return true; }
      d := d.(level := d.level - 1);
      c, d := c.(fs := d.fsBase), d.(fsBase := c.fs);
      c, d := c.(rsp := d.sp), d.(sp := c.rsp);
      d := d.(altSize := mem[c.rsp], selector := BLOCK);
      c := c.(rsp := c.rsp + 16, regs := c.regs.(rip := mem[c.rsp + 8]));
      cpu, data, stack := c, d.(sp := stack.act.oldSp), stack.rest;
      return false;
    }

    /** Four pushes in a row. */
    method PushFour(a: int, b: int, c: int, d: int)
      requires Valid() && current + 4 <= slots.Length
      modifies `current, slots
      ensures Valid() && current == old(current) + 4 && slots[..current] == old(slots[..current]) + [a, b, c, d]
    {
      slots[current] := a;
      slots[current + 1] := b;
      slots[current + 2] := c;
      slots[current + 3] := d;
      current := current + 4;
    }

    /** The signal is handled: saves what the trampoline needs and lets the kernel return to it. */
    method SetupTrampoline(final: Regs)
      requires Valid() && CanSetUp(Model(), final) && current + 8 <= slots.Length
      modifies this, slots
      ensures Valid() && Model() == BeginReturn(old(Model()), final)
      ensures current == old(current) + 8 && data.selector == ALLOW
    {
      var a := stack.act;
      var sp := if final.rsp == 0 then final.r9 else final.rsp;
      PushFour(if a.from == Monitor then 0 else 1, a.selector, final.rip, final.efl);
      PushFour(sp, final.rax, final.rdx, final.rcx);
      assert slots[..current] == old(slots[..current]) + ReturnSlots(a.from, a.selector, final);
      data, cpu := data.(selector := ALLOW), cpu.(rsp := a.entry + 8);
      stack := Frame(a.(pending := Returning(final)), stack.rest);
    }

    /** The trampoline: pops everything in reverse and goes back to the interrupted code. */
    method RestoreSelectorTrampoline()
      requires Valid() && CanTrampoline(Model())
      modifies this
      ensures Valid() && Model() == FinishReturn(old(Model()))
    {
      var c, d, n := cpu, data, current;
      var rcx, rdx, rax, rsp := slots[n - 1], slots[n - 2], slots[n - 3], slots[n - 4];
      var efl, rip := slots[n - 5], slots[n - 6];
      d, n := d.(selector := slots[n - 7]), n - 8;
      if slots[n] != 0 {
        d := d.(compartment := Application);
        c, d := c.(fs := d.fsBase), d.(fsBase := c.fs);
        n := n - 1;
        d := d.(sp := slots[n]);
      }
      cpu := Cpu(rsp, c.fs, Regs(rip, efl, rsp, rax, rdx, rcx, c.regs.r9));
      data, current, stack := d, n, stack.rest;
    }

    /** Entry for a system call that was caught by dispatch instead of a rewritten instruction. */
    method SudEntryPoint(size: int, frame: map<int, int>)
      requires Valid() && CanDeliver(cfg, Model(), size + 8, frame)
      modifies this
      ensures Valid() && Model() == DeliverSud(cfg, old(Model()), size, frame)
      ensures data.compartment == Monitor && data.selector == ALLOW
    {
      var c, d, m := cpu, data, frame;
      var at := c.rsp;
      c := c.(rsp := FrameTop(cfg, c.rsp, d.altSize) - size);
      if d.compartment == Application {
        c, m, d := c.(rsp := c.rsp - 8), m[c.rsp - 8 := d.sp], d.(sp := at);
        c, d := c.(fs := d.fsBase), d.(fsBase := c.fs);
      }
      stack := Frame(Sud(c.rsp, d.sp, d.compartment, at), stack);
      cpu, data, mem := c, d.(compartment := Monitor, selector := ALLOW), m;
    }

    /** Leaves it again, to continue at the system call hook. */
    method SudExitPoint()
      requires Valid() && CanLeaveSud(cfg, Model()) && data.compartment == Monitor
      modifies this
      ensures Valid() && Model() == FinishSud(cfg, old(Model()))
      ensures data.compartment == old(stack.act.from) && cpu.regs.rip == cfg.hook && cpu.rsp == old(stack.act.at) - 16
    {
      var c, d, a := cpu, data.(compartment := stack.act.from), stack.act;
      if d.compartment != Monitor {
        d := d.(sp := mem[c.rsp]);
        c, d := c.(fs := d.fsBase), d.(fsBase := c.fs);
      }
      cpu, data, stack := c.(rsp := a.at - 16, regs := c.regs.(rip := cfg.hook)), d, stack.rest;
    }
  }
}
