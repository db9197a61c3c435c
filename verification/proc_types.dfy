/**
  The data of xv6's process table (kernel/proc.c with the lottery-scheduler
  extension): one process control block per slot of `ptable.proc[NPROC]`.
 */
module ProcTypes {

  /** Number of slots in the process table (param.h). */
  const NPROC: nat := 64

  /** Size of one page; `userinit` gives the first process one page. */
  const PGSIZE: int := 4096

  /** Modulus and multiplier of `rand1`'s linear congruential generator. */
  const RAND_MOD: int := 2796203
  const RAND_MUL: int := 125
  /** Initial value of `rand1`'s static state. */
  const RAND_SEED: int := 100001

  /** Largest value of a 32-bit C `int`/`long`. */
  const INT_MAX: int := 0x7fff_ffff

  datatype Option<T> = None | Some(value: T)

  /** `enum procstate`. */
  datatype ProcState = Unused | Embryo | Sleeping | Runnable | Running | Zombie

  /**
    What a sleeping process waits on: a kernel address. `NoChan` is the null
    pointer, `ProcChan(i)` the address of table slot i (what `wait` sleeps on
    and what `exit` wakes), `OtherChan(a)` any address outside the table.
   */
  datatype Chan = NoChan | ProcChan(slot: nat) | OtherChan(addr: nat)

  /** The saved user registers: `eax` carries a system call's return value. */
  datatype TrapFrame = TrapFrame(eax: int, others: seq<int>)

  /**
    One slot of the table (`struct proc`). `parent` is a slot index (None for
    the null pointer); `kstack` says whether the slot owns a kernel stack;
    `whichqueue` is 1 for the HIGH tier and 0 for the LOW tier; `current` is 1
    while the process is on a CPU. Open files, the working directory, the page
    directory and the saved context are not part of this model.
   */
  datatype Proc = Proc(
    state: ProcState,
    pid: int,
    parent: Option<nat>,
    killed: bool,
    chan: Chan,
    numTickets: int,
    whichqueue: int,
    highticks: int,
    lowticks: int,
    current: int,
    kstack: bool,
    sz: int,
    tf: TrapFrame,
    name: string)

  /** A slot as the zero-initialised global table holds it at boot. */
  const ZeroProc: Proc :=
    Proc(Unused, 0, None, false, NoChan, 0, 0, 0, 0, 0, false, 0, TrapFrame(0, []), "")

  /** A slot pointer used as a sleep channel (`wakeup1(proc->parent)`). */
  function ChanOf(p: Option<nat>): Chan {
    match p
    case None => NoChan
    case Some(i) => ProcChan(i)
  }

  /** Outcome of one pass of `wait`'s scan. */
  datatype WaitResult = Reaped(pid: int) | NoChildren | MustSleep

  /** The `struct pstat` that `getpinfo` fills, one entry per slot. */
  datatype PStat = PStat(inuse: seq<int>, pid: seq<int>, hticks: seq<int>, lticks: seq<int>)
}
