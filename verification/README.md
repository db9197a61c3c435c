# xv6 process table with a two-tier lottery scheduler

A Dafny model of the process table of an xv6 kernel extended with a lottery
scheduler (`kernel/proc.c`). The table is a fixed array of `NPROC` = 64 slots.
One lock guards it, and each operation changes it in a single pass while
holding that lock. The model therefore treats every lock-protected operation
as one atomic method of the class `PTable.ProcTable`.

- `ProcTypes`: the slot record (`struct proc`), its states, sleep channels
  and constants. The constants are `NPROC`, `PGSIZE` and the `rand1`
  generator constants 100001, 125 and 2796203.
- `ProcSpec`: what each operation does to the table, stated on the table's
  contents (a `seq<Proc>`), and the properties of those effects:
  - first-fit scans;
  - slot updates;
  - `wakeup1`, `exit` and the reparenting loop;
  - the invariants the table keeps.
- `Lottery`: the pure side of a scheduler round:
  - which RUNNABLE slots the snapshot queues, and where in `high[]`/`low[]`;
  - the ticket sums and the `rand1` generator;
  - the prefix-sum walk and the slot a round picks.
- `PTable`: the class `ProcTable`.
  - State: `proc` (`ptable.proc`), `high`/`low`, `nextpid`, `initproc`,
    `rand1`'s static state and the two ticket sums.
  - Methods: `allocproc`, `userinit`, `fork`, `exit`, `wait`, `kill`,
    `wakeup1`, `sleep`, `yield`, `rand1`, `getpinfo`, and one scheduler round.
  - Each method is proved against the specification functions of `ProcSpec`
    and `Lottery`.
  - Every state-changing method keeps `Valid()`: live pids are distinct and
    below `nextpid`, every live slot holds one ticket, and parent links stay
    inside the table.

How the C code maps to the model:

- **Current process.** The per-CPU `proc` becomes a slot index `cur`, passed
  as a parameter.
- **Panics.** A panic, which halts the kernel, becomes an `ok == false`
  result. The state is left as the halt finds it:
  - `exit` by init panics before touching the table, so nothing changes;
  - `userinit` halts when `setupkvm` fails (a panic) or when `allocproc`
    fails (a null dereference). By then the allocation is done: the slot is
    written and `nextpid` advanced, as `allocproc` leaves them. `initproc`
    holds what `allocproc` returned.
- **Outside calls.** The outcomes of `kalloc`, `setupkvm` and `copyuvm` are
  boolean parameters.
- **Scheduler round.** One round is split in two:
  - `RoundStart`: snapshot, tier choice, `rand1` draw, walk and dispatch
    bookkeeping, up to the context switch.
  - `RoundEnd`: what happens after the process gives the CPU back.

Where the source's own comments and its code disagree, the model follows the
code:

- **`settickets`.** The comment above it (kernel/proc.c:261-265) says it
  sets the caller's ticket count. The store is commented out (line 271), so
  `SetTickets` only validates. Every live slot keeps one ticket
  (`UnitTickets` is part of `Valid()`).
- **Demotion.** The comment at kernel/proc.c:399 says a process that did
  not finish running is put in the low queue. The code writes
  `p->whichqueue = 0` through the refill cursor `p`, which points one past
  the table at that moment. `RoundEnd` changes no tier. The intended
  behaviour is the separate `RoundEndDemoting` (see Findings).
- **The lottery walk.** The comment at kernel/proc.c:253 promises a number
  between 0 and the limit. The walk treats the draw as if it started at 1:
  the commented-out `return ((a % lim) + 1)` at line 258 is that variant. As
  written the walk is biased (see Findings), and `RoundStart` models it as
  written.

Other behaviour of the code that the model keeps:

- **`kill`.** It matches the pid of any slot, in any state, including UNUSED
  slots.
- **`exit`.** It wakes the channel of the exiting process's parent, which is
  what a parent blocked in `wait` sleeps on.
- **`kalloc` failure.** When it fails in `allocproc`, the slot returns to
  UNUSED. It keeps the freshly written pid and fields, and `nextpid` stays
  advanced.
- **Snapshot arrays.** Each round starts from cleared `high[]`/`low[]`. The
  source does not always: the pre-loop fill (kernel/proc.c:316-334) and idle
  rounds (line 376 skips the clear) can leave entries. The refill overwrites
  every entry below the queued count, and the walk reads only those, so a
  round's pick is the same either way.

Because only `RoundEndDemoting` demotes, every live slot stays in HIGH under
the operations that model the code.

- `HighTierOnly` is preserved by every method except `RoundEndDemoting`
  (`old(HighTierOnly(..)) ==> HighTierOnly(..)`).
- By `HighTierOnlyLeavesLowEmpty`, it implies that the LOW tier is empty.
  `RoundStartAllowed` states what that gives a table: `RoundStart`'s tier
  requirement holds.
- The HIGH walk reads `high[]` as if it had no gaps. `RoundStart` requires
  exactly that: the two tiers are not populated at once.

## Model

| member | source | states |
|---|---|---|
| PTable.ProcTable.constructor | kernel/proc.c:10-27 | The boot table: all 64 slots zero (UNUSED), `nextpid` = 1, no init process, `rand1` state 100001, both snapshot arrays empty, table invariant holds |
| PTable.ProcTable.AllocProc | kernel/proc.c:38-65 | Takes the lowest-index UNUSED slot. It becomes EMBRYO with pid = old `nextpid`, one ticket, zero run counts, `current` 0 and tier HIGH, and `nextpid` grows by one. On `kalloc` failure the slot is back to UNUSED with those fields written, and the result is none. With no UNUSED slot nothing changes. Pids stay fresh and distinct |
| ProcSpec.AllocKeepsPidsUnique | kernel/proc.c:44-59 | The pid handed out is held by no live slot; after allocation live pids stay pairwise distinct and below the incremented counter, and every live slot still holds one ticket |
| PTable.ProcTable.UserInit | kernel/proc.c:86-112 | Allocates the first process and records it as `initproc`; it gets one page, the name "initcode" and becomes RUNNABLE; fails exactly when no slot is free, `kalloc` fails or `setupkvm` fails, and then leaves the allocation done (slot written, `nextpid` advanced) with `initproc` set to what `allocproc` returned |
| PTable.ProcTable.Fork | kernel/proc.c:137-166 | -1 and no change when no slot is free; -1 with the new slot back to UNUSED when either allocation fails; otherwise the new pid (at least 1), and the child is the only live slot with that pid: RUNNABLE, parent = caller, caller's size, name and trap frame with `eax` = 0 |
| PTable.ProcTable.CopyIntoChild | kernel/proc.c:146-165 | After `allocproc` claimed slot k: when `copyuvm` fails, -1 and the slot back to UNUSED without its kernel stack; otherwise the slot keeps its pid and becomes the caller's RUNNABLE child with the caller's size, name and trap frame (`eax` = 0), and its pid is returned; no other slot changes |
| ProcSpec.ForkPidNamesChild | kernel/proc.c:152-165 | After a successful fork, the only live slot holding the returned pid is the new child, which is RUNNABLE, names the caller as parent and has `eax` = 0 |
| ProcSpec.SlotUpdateKeepsInv | kernel/proc.c:52-59 | Rewriting one slot so that it is freed, or stays live with its pid and ticket count, keeps pids fresh and distinct, parents inside the table and one ticket per live slot |
| PTable.ProcTable.Exit | kernel/proc.c:172-206 | Fails and changes nothing exactly when the caller is init; otherwise the table becomes `ExitTable`, and no slot names the caller as parent any more |
| PTable.ProcTable.ReparentChildren | kernel/proc.c:196-203 | After the loop, every child of the caller names `initproc`, and `initproc`'s channel has been woken exactly when one of those children was a ZOMBIE |
| ProcSpec.ExitStageDone | kernel/proc.c:191-206 | The parent wake-up, the reparenting loop run over all slots and the ZOMBIE store together give `ExitTable` |
| ProcSpec.ExitLeavesNoOrphans | kernel/proc.c:196-203 | After `exit`, no slot has the caller as parent; each former child names init and every other parent link is unchanged |
| ProcSpec.ExitStates | kernel/proc.c:194-206 | The caller ends ZOMBIE; every other slot sleeping on the parent's channel becomes RUNNABLE; every other state either stays or goes from SLEEPING to RUNNABLE |
| ProcSpec.ExitFrame | kernel/proc.c:191-206 | `exit` changes only the state and parent of any slot |
| ProcSpec.ExitWakesInit | kernel/proc.c:199-201 | When a ZOMBIE child is handed over and init sleeps on its own slot (as it does in `wait`), init becomes RUNNABLE |
| ProcSpec.ExitKeepsInvariants | kernel/proc.c:191-206 | `exit` by a live slot keeps pids fresh and distinct, parents inside the table (new links name init), one ticket per live slot, and all tiers |
| PTable.ProcTable.Wait | kernel/proc.c:219-249 | Reaps the first ZOMBIE child in table order (UNUSED, pid 0, no parent, empty name, not killed) and returns its old pid, a pid no live slot holds afterwards; with no children or when killed, NoChildren and no change; otherwise the caller sleeps on its own slot |
| PTable.ProcTable.Kill | kernel/proc.c:538-555 | Sets `killed` on the first slot, in any state, whose pid matches and makes it RUNNABLE if SLEEPING, returning 0; -1 and no change when no slot matches |
| ProcSpec.FirstMatch | kernel/proc.c:45-47 | The first-fit scan: the index found satisfies the test and every earlier one fails it; none exactly when no slot passes |
| PTable.ProcTable.Wakeup1 | kernel/proc.c:516-532 | The table becomes `Wake(old, c)` and the table invariant and tier invariant are kept |
| ProcSpec.WakeExactlySleepers | kernel/proc.c:520-522 | Exactly the SLEEPING slots waiting on `c` change, each only in its state, to RUNNABLE; afterwards nothing sleeps on `c` |
| ProcSpec.WakeIdempotent | kernel/proc.c:516-523 | Waking the same channel twice equals waking it once |
| ProcSpec.WakeKeepsInv | kernel/proc.c:516-523 | `wakeup1` keeps the table invariant and the tier invariant |
| PTable.ProcTable.Sleep | kernel/proc.c:499-500 | The caller records the channel and becomes SLEEPING; nothing else changes |
| PTable.ProcTable.SleepReturn | kernel/proc.c:504 | On resumption the caller's channel is cleared; nothing else changes |
| PTable.ProcTable.Yield | kernel/proc.c:459-460 | The caller becomes RUNNABLE; nothing else changes |
| ProcSpec.SetTickets | kernel/proc.c:266-273 | Returns -1 exactly when `num` < 1 and 0 otherwise; it takes no table, so no slot changes |
| PTable.ProcTable.Rand1 | kernel/proc.c:254-260 | Advances the state to `(a * 125) % 2796203`, keeps it in [0, 2796203), and returns it modulo `bound`, a value in [0, bound) for a positive bound |
| Lottery.LcgStaysInRange | kernel/proc.c:256-257 | The generator state stays in [0, 2796203) and `a * 125` fits a 32-bit integer, so the C arithmetic is exact |
| PTable.ProcTable.GetPinfo | kernel/proc.c:279-301 | For every slot: in-use flag (0 exactly for UNUSED), pid, HIGH and LOW run counts; returns 0 and changes nothing |
| PTable.ProcTable.Snapshot | kernel/proc.c:345-370 | `hightickets`/`lowtickets` are the ticket sums of the RUNNABLE HIGH/LOW slots; the two flags say whether each tier has one; `high[n]`/`low[n]` hold the n-th queued RUNNABLE slot when it is of that tier, else NULL (one shared index) |
| Lottery.MembersComplete | kernel/proc.c:350-369 | The queued slots are every RUNNABLE slot of the tier, each once, in increasing table order |
| Lottery.MembersNonEmpty | kernel/proc.c:356-369 | A tier with a RUNNABLE slot has a non-empty snapshot |
| Lottery.TierTicketsIsSum | kernel/proc.c:360-367 | The running ticket sum equals the sum of the queued slots' ticket counts |
| Lottery.TierTicketsPositive | kernel/proc.c:373-380 | A non-empty tier's ticket sum is at least its number of slots, so `rand1` is never called with bound 0 |
| Lottery.SnapshotContiguous | kernel/proc.c:356-369 | When the other tier is empty, the shared index queues exactly tier t's slots |
| Lottery.SnapEntryContiguous | kernel/proc.c:382-388 | When the other tier is empty, `high[0..count)` (or `low[0..count)`) has no gaps, so the walk reads only filled entries |
| PTable.HighTierOnlyLeavesLowEmpty | kernel/proc.c:363-369 | While every live slot is HIGH, the LOW tier is empty, so the HIGH walk sees no gaps |
| PTable.ProcTable.RoundStartAllowed | kernel/proc.c:378-388 | While every live slot is HIGH, the two tiers are not both populated, which is what the HIGH walk needs to read `high[]` without gaps |
| Lottery.IdleQueuesNothing | kernel/proc.c:350-377 | With no RUNNABLE slot in either tier the snapshot queues nothing, so an idle round leaves both arrays NULL |
| Lottery.ChooseTier | kernel/proc.c:373-408 | Nothing when both tiers are empty, HIGH whenever HIGH has a member, LOW only when HIGH is empty |
| PTable.ProcTable.Walk | kernel/proc.c:382-388 | The walk stops inside the filled entries at `LotteryIndex`, the first entry whose running ticket sum reaches the draw |
| Lottery.LotteryIndexFirstReach | kernel/proc.c:382-388 | For a draw at most the total, the walk stops at an index below the entry count, at the first inclusive prefix sum reaching the draw |
| Lottery.LotteryIndexUnique | kernel/proc.c:382-388 | Any index whose prefix sum reaches the draw while all earlier ones fall short is where the walk stops |
| Lottery.LotteryIndexShare | kernel/proc.c:382-388 | For draws in [0, total): entry 0 wins the draws up to its weight, entry k > 0 those in (Sum(w[..k]), Sum(w[..k+1])], both directions |
| Lottery.LotteryIndexUnitWeights | kernel/proc.c:382-388 | With one ticket per entry the walk returns r - 1 for r >= 1 (0 for r = 0), so with two or more entries the last one is never chosen |
| PTable.ProcTable.RunLottery | kernel/proc.c:380-393 | In the chosen tier: the generator advances one step, the winner is the slot at `LotteryIndex` of the tier's ticket counts for the draw `a % bound`, and only that slot changes, as `Dispatched` |
| PTable.ProcTable.Dispatch | kernel/proc.c:389-393 | The chosen slot becomes RUNNING with `current` 1 and its tier's run count plus one; no other slot changes |
| Lottery.DispatchedCounts | kernel/proc.c:391-393 | Dispatch marks the slot RUNNING and on a CPU and adds exactly one run to the counter of the tier it came from, leaving tier and pid alone |
| Lottery.RoundPick | kernel/proc.c:373-416 | None exactly when no slot is RUNNABLE in either tier; otherwise a RUNNABLE slot of HIGH when HIGH has one, else of LOW |
| PTable.ProcTable.RoundStart | kernel/proc.c:343-420 | The dispatched slot is `RoundPick` of the table and the old generator state; the ticket sums and `high[]`/`low[]` are the snapshot of the table; idle rounds leave the table and the generator unchanged; otherwise the generator advances one step and only the chosen slot changes, as `Dispatched` |
| Lottery.RoundSkipsLastMember | kernel/proc.c:380-389 | With one ticket per slot and two or more RUNNABLE slots in the tier used, a round never dispatches the tier's last slot |
| Lottery.FairIndexShare | kernel/proc.c:382-388 | The corrected walk gives entry k exactly the draws in [Sum(w[..k]), Sum(w[..k+1])), both directions |
| Lottery.FairRoundPick | kernel/proc.c:373-416 | The corrected round picks like `RoundPick`: none exactly when both tiers are empty, else a RUNNABLE slot of the preferred tier |
| Lottery.FairRoundShare | kernel/proc.c:380-389 | In the corrected round, the j-th RUNNABLE slot of the tier is dispatched exactly when the draw falls in its own block of tickets, the last slot included |
| PTable.ProcTable.RoundEnd | kernel/proc.c:396-401 | After the run: `current` cleared on the dispatched slot, no tier changed, both snapshot arrays NULL again |
| Lottery.ReturnedNeverDemotes | kernel/proc.c:396-400 | A RUNNABLE HIGH slot stays HIGH after its run as written, whereas the intended demotion would move it to LOW |
| PTable.ProcTable.RoundEndDemoting | kernel/proc.c:396-400 | The intended end of a HIGH run: `current` cleared and a still-RUNNABLE process moved to LOW; snapshot arrays cleared |
| PTable.ProcTable.ClearQueues | kernel/proc.c:428-432 | Every entry of `high[]` and `low[]` is NULL afterwards |

## Left out

- **Locking and interrupts.** Spinlocks, `sti` and the panic checks in
  `sched` are left out. Each operation is one atomic method, which is what
  the single table lock provides.
- **Context switching.** `swtch`, `forkret`, `trapret` and the resumption
  halves of `sleep`, `yield` and `exit` are opaque control transfer. The
  model stops each operation at the switch. `SleepReturn` and `RoundEnd`
  are the parts after it that touch the table.
- **Virtual memory.** `setupkvm`, `inituvm`, `copyuvm`, `freevm`,
  `switchuvm` and `switchkvm` are left out, and so is `growproc`. Only the
  success or failure of the allocations is modelled. The LOW branch's
  `switchuvm(p)`, which passes the cursor rather than the chosen process,
  is not modelled for the same reason.
- **Kernel stacks.** `kalloc`/`kfree` and the stack layout that builds the
  trap frame and context are left out. A slot records only whether it owns a
  stack.
- **Files and names.** Open files, the working directory, `filedup`,
  `fileclose`, `idup`, `iput` and `namei` are left out. `safestrcpy` is
  modelled as copying the whole name value.
- **`userinit` registers.** Its trap-frame register setup is hardware
  encoding. Only size, name, state and `initproc` are modelled.
- **`procdump`.** It is lock-free console output.
- **Pre-loop fill.** The one-off fill in `scheduler` before its loop
  (kernel/proc.c:316-334) is left out. It writes `high[0..count)` for the
  processes RUNNABLE at boot.
- **Statistical fairness.** Only the deterministic walk is modelled.
- **Integer widths.** `nextpid` and the run counters are unbounded integers.
  The 32-bit overflow they would reach after 2^31 allocations or runs is not
  modelled.
- **`sleep`'s lock.** The lock argument is left out: acquiring and releasing
  it, and the panics on a null process or lock.
- PTable.ProcTable.Wait: models one pass of the loop. Sleeping and retrying
  after a wake-up is a sequence of calls, not one method.
- PTable.ProcTable.GetPinfo: returns the `struct pstat` as a value instead of
  writing through the caller's pointer.
- PTable.ProcTable.RoundStart: requires that the two tiers are not both
  populated. With both populated, the source's HIGH walk would read NULL
  entries of `high[]`. Every operation keeps all live slots in HIGH, so this
  holds from boot.
- PTable.ProcTable.RoundStart: starts each round from cleared `high[]` and
  `low[]` (`QueuesCleared`). In the source, the pre-loop fill and idle
  rounds, which skip the clear at kernel/proc.c:428-432, can leave entries
  above the count the refill writes. This is harmless: the refill
  overwrites every entry below the count, and the walk reads only those.
- PTable.ProcTable.RoundEnd: does not model the write one past the table.
  Through the cursor, the source stores into memory just after
  `ptable.proc`. The model only states that no slot changes tier.

## Findings

| source | as written | input that shows it | evidently intended | confidence | as-written member | corrected member |
|---|---|---|---|---|---|---|
| kernel/proc.c:382-388 | the walk advances `while (pick < rannum)` with `rannum = rand1(total)` in [0, total) | two RUNNABLE HIGH processes with one ticket each: `rand1(2)` is 0 or 1, and both stop at entry 0, so the second process is never dispatched | each entry wins as many draws as it holds tickets (advance while `pick <= rannum`) | high; not executed | Lottery.RoundSkipsLastMember | Lottery.FairRoundShare |
| kernel/proc.c:396-400 | `p->whichqueue = 0` assigns through the refill cursor `p`, which equals `&ptable.proc[NPROC]` after the loop at kernel/proc.c:350 | any round that dispatches a HIGH process which then yields: it stays in HIGH, and the store lands one past the table | `proc->whichqueue = 0`, demoting the process that just ran | high; not executed | Lottery.ReturnedNeverDemotes | PTable.ProcTable.RoundEndDemoting |
