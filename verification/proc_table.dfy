/**
  The process table of kernel/proc.c as the kernel keeps it: the slot array
  `ptable.proc`, the globals `nextpid` and `initproc`, `rand1`'s static state
  and the scheduler's `high[]`/`low[]` arrays and ticket sums. Every method is
  one critical section under `ptable.lock`, so each runs atomically here. The
  process a CPU is running (`proc` in the source) is passed in as its slot
  index `cur`.
 */
module PTable {
  import opened ProcTypes
  import opened ProcSpec
  import opened Lottery

  /**
    While every live slot is in HIGH (which every operation but
    `RoundEndDemoting` preserves), the LOW tier is empty, so a round's HIGH
    walk sees no gaps.
   */
  lemma HighTierOnlyLeavesLowEmpty(s: seq<Proc>)
    requires HighTierOnly(s)
    ensures !HasTier(s, 0)
  {
  }

  class ProcTable {
    /** `ptable.proc`. */
    const proc: array<Proc>
    /** The scheduler's snapshot arrays `high[]` and `low[]`. */
    const high: array<Option<nat>>
    const low: array<Option<nat>>
    var nextpid: int
    var initproc: Option<nat>
    /** `rand1`'s static `a`. */
    var randSeed: int
    var hightickets: int
    var lowtickets: int

    /**
      The table invariant: live slots hold distinct pids below `nextpid` and
      exactly one ticket, parent links and `initproc` stay inside the table,
      and `rand1`'s state stays in its range.
     */
    ghost predicate Valid()
      reads this, proc
    {
      && proc.Length == NPROC && high.Length == NPROC && low.Length == NPROC
      && high != low
      && nextpid >= 1
      && 0 <= randSeed < RAND_MOD
      && (initproc.Some? ==> initproc.value < NPROC)
      && TableInv(proc[..], nextpid)
    }

    /** The snapshot arrays as the end of every round leaves them. */
    ghost predicate QueuesCleared()
      reads this, high, low
    {
      && (forall n :: 0 <= n < high.Length ==> high[n] == None)
      && (forall n :: 0 <= n < low.Length ==> low[n] == None)
    }

    /**
      While no process has left HIGH (which holds from boot, as every
      operation but `RoundEndDemoting` keeps it), the table meets
      `RoundStart`'s requirement that the two tiers are not both populated.
     */
    lemma RoundStartAllowed()
      requires HighTierOnly(proc[..])
      ensures !(HasTier(proc[..], 1) && HasTier(proc[..], 0))
    {
      HighTierOnlyLeavesLowEmpty(proc[..]);
    }

    /** The table at boot: zero-initialised globals and `nextpid = 1`. */
    constructor ()
      ensures Valid() && QueuesCleared() && HighTierOnly(proc[..])
      ensures fresh(proc) && fresh(high) && fresh(low)
      ensures forall i :: 0 <= i < NPROC ==> proc[i] == ZeroProc
      ensures nextpid == 1 && initproc == None && randSeed == RAND_SEED
    {
      proc := new Proc[NPROC](_ => ZeroProc);
      high := new Option<nat>[NPROC](_ => None);
      low := new Option<nat>[NPROC](_ => None);
      nextpid := 1;
      initproc := None;
      randSeed := RAND_SEED;
      hightickets := 0;
      lowtickets := 0;
    }

    // -------------------------------------------------------------------
    // Allocation and lifecycle

    /**
      `allocproc`: claim the lowest-index UNUSED slot, give it pid `nextpid`
      and the default scheduling fields. `kallocOk` is whether the kernel
      stack could be allocated; when it could not, the slot goes back to
      UNUSED but keeps the written fields and `nextpid` stays advanced.
     */
    method AllocProc(kallocOk: bool) returns (p: Option<nat>)
      requires Valid()
      modifies this`nextpid, proc
      ensures Valid()
      ensures old(HighTierOnly(proc[..])) ==> HighTierOnly(proc[..])
      ensures FirstUnused(old(proc[..])).None? ==>
        p == None && nextpid == old(nextpid) && proc[..] == old(proc[..])
      ensures FirstUnused(old(proc[..])).Some? ==>
        var k := FirstUnused(old(proc[..])).value;
        && p == (if kallocOk then Some(k) else None)
        && nextpid == old(nextpid) + 1
        && proc[..] == old(proc[..])[k := Allocated(old(proc[k]), old(nextpid), kallocOk)]
      ensures p.Some? ==> proc[p.value].state == Embryo && proc[p.value].pid == old(nextpid)
    {
      for k := 0 to NPROC
        invariant forall i :: 0 <= i < k ==> !IsUnused(proc[i])
      {
        if proc[k].state == Unused {
          AllocKeepsPidsUnique(proc[..], nextpid, k, kallocOk);
          proc[k] := Allocated(proc[k], nextpid, kallocOk);
          nextpid := nextpid + 1;
          p := if kallocOk then Some(k) else None;
          return;
        }
      }
      p := None;
    }

    /**
      `userinit`: allocate the first process, record it as `initproc`, give it
      one page and the name "initcode", and make it RUNNABLE. `ok` is false
      when the kernel halts instead: the source panics when `setupkvm` fails
      and dereferences a null pointer when `allocproc` fails. The table is
      then left as the halt finds it: the allocation done, and `initproc`
      set to what `allocproc` returned.
     */
    method UserInit(kallocOk: bool, setupkvmOk: bool) returns (ok: bool)
      requires Valid()
      modifies this`nextpid, this`initproc, proc
      ensures Valid()
      ensures old(HighTierOnly(proc[..])) ==> HighTierOnly(proc[..])
      ensures ok <==> FirstUnused(old(proc[..])).Some? && kallocOk && setupkvmOk
      ensures ok ==>
        var k := FirstUnused(old(proc[..])).value;
        && initproc == Some(k)
        && nextpid == old(nextpid) + 1
        && proc[..] == old(proc[..])[k := Allocated(old(proc[k]), old(nextpid), true).(
             sz := PGSIZE, name := "initcode", state := Runnable)]
      ensures !ok && FirstUnused(old(proc[..])).None? ==>
        initproc == None && nextpid == old(nextpid) && proc[..] == old(proc[..])
      ensures !ok && FirstUnused(old(proc[..])).Some? ==>
        var k := FirstUnused(old(proc[..])).value;
        && initproc == (if kallocOk then Some(k) else None)
        && nextpid == old(nextpid) + 1
        && proc[..] == old(proc[..])[k := Allocated(old(proc[k]), old(nextpid), kallocOk)]
    {
      var p := AllocProc(kallocOk);
      initproc := p;
      if p.None? {
        return false;
      }
      if !setupkvmOk {
        return false;
      }
      var k := p.value;
      var first := proc[k].(sz := PGSIZE, name := "initcode", state := Runnable);
      SlotUpdateKeepsInv(proc[..], nextpid, k, first);
      proc[k] := first;
      ok := true;
    }

    /**
      The table effect of `fork` by the process in slot `cur`. `kallocOk` and
      `copyuvmOk` are the outcomes of the kernel-stack and address-space
      allocations. Returns -1 when no slot is free or an allocation fails (the
      new slot then goes back to UNUSED), otherwise the child's pid; the child
      is RUNNABLE, names `cur` as parent, and has the parent's size, name and
      trap frame with `eax` = 0.
     */
    method Fork(cur: nat, kallocOk: bool, copyuvmOk: bool) returns (pid: int)
      requires Valid() && cur < NPROC && proc[cur].state == Running
      modifies this`nextpid, proc
      ensures Valid()
      ensures old(HighTierOnly(proc[..])) ==> HighTierOnly(proc[..])
      ensures FirstUnused(old(proc[..])).None? ==>
        pid == -1 && nextpid == old(nextpid) && proc[..] == old(proc[..])
      ensures FirstUnused(old(proc[..])).Some? ==>
        var k := FirstUnused(old(proc[..])).value;
        && nextpid == old(nextpid) + 1
        && (if kallocOk && copyuvmOk then
              && pid == old(nextpid)
              && proc[..] == old(proc[..])[k := Forked(Allocated(old(proc[k]), old(nextpid), true), old(proc[cur]), cur)]
            else
              && pid == -1
              && proc[..] == old(proc[..])[k := Allocated(old(proc[k]), old(nextpid), false)])
      ensures pid != -1 ==> pid >= 1
      ensures pid != -1 ==> forall i :: 0 <= i < NPROC && proc[i].state != Unused && proc[i].pid == pid ==>
        proc[i].parent == Some(cur) && proc[i].state == Runnable && proc[i].tf.eax == 0
    {
      ghost var s0 := proc[..];
      ghost var n0 := nextpid;
      ghost var k0 := FirstUnused(s0);
      if k0.Some? {
        ForkPidNamesChild(s0, nextpid, k0.value, cur);
      }
      var np := AllocProc(kallocOk);
      if np.None? {
        return -1;
      }
      var k := np.value;
      assert k == k0.value && k != cur;
      assert Allocated(s0[k], n0, true).(kstack := false, state := Unused) == Allocated(s0[k], n0, false);
      pid := CopyIntoChild(cur, k, copyuvmOk);
    }

    /**
      The rest of `fork` once `allocproc` has claimed the EMBRYO slot k: when
      the address space cannot be copied the slot loses its kernel stack and
      goes back to UNUSED and the result is -1; otherwise the slot becomes the
      caller's RUNNABLE child and the result is its pid.
     */
    method CopyIntoChild(cur: nat, k: nat, copyuvmOk: bool) returns (pid: int)
      requires Valid() && cur < NPROC && k < NPROC && k != cur
      requires proc[cur].state != Unused && proc[k].state == Embryo
      modifies proc
      ensures Valid()
      ensures old(HighTierOnly(proc[..])) ==> HighTierOnly(proc[..])
      ensures !copyuvmOk ==>
        pid == -1 && proc[..] == old(proc[..])[k := old(proc[k]).(kstack := false, state := Unused)]
      ensures copyuvmOk ==>
        pid == old(proc[k].pid) && proc[..] == old(proc[..])[k := Forked(old(proc[k]), old(proc[cur]), cur)]
    {
      if !copyuvmOk {
        var freed := proc[k].(kstack := false, state := Unused);
        SlotUpdateKeepsInv(proc[..], nextpid, k, freed);
        proc[k] := freed;
        return -1;
      }
      var parent := proc[cur];
      var child := proc[k].(sz := parent.sz, parent := Some(cur), tf := parent.tf.(eax := 0));
      pid := child.pid;
      child := child.(state := Runnable, name := parent.name);
      SlotUpdateKeepsInv(proc[..], nextpid, k, child);
      proc[k] := child;
    }

    /**
      `wakeup1(c)` (and `wakeup(c)`, which only adds the lock): every SLEEPING
      slot waiting on c becomes RUNNABLE.
     */
    method Wakeup1(c: Chan)
      requires proc.Length == NPROC
      modifies proc
      ensures proc[..] == Wake(old(proc[..]), c)
      ensures old(Valid()) ==> Valid()
      ensures old(HighTierOnly(proc[..])) ==> HighTierOnly(proc[..])
    {
      for k := 0 to NPROC
        invariant forall i :: 0 <= i < NPROC ==> proc[i] == if i < k then Woken(old(proc[i]), c) else old(proc[i])
      {
        if proc[k].state == Sleeping && proc[k].chan == c {
          proc[k] := proc[k].(state := Runnable);
        }
      }
      WakeKeepsInv(old(proc[..]), c, nextpid);
    }

    /**
      The locked part of `exit` by the process in slot `cur`: `ok` is false when
      `cur` is the init process (the source panics and nothing changes);
      otherwise the table becomes `ExitTable`: the parent's channel is woken,
      the children are handed to `initproc`, and `cur` is a ZOMBIE.
     */
    method Exit(cur: nat) returns (ok: bool)
      requires Valid() && cur < NPROC && proc[cur].state == Running
      modifies proc
      ensures Valid()
      ensures old(HighTierOnly(proc[..])) ==> HighTierOnly(proc[..])
      ensures ok <==> initproc != Some(cur)
      ensures !ok ==> proc[..] == old(proc[..])
      ensures ok ==> proc[..] == ExitTable(old(proc[..]), cur, initproc)
      ensures ok ==> forall i :: 0 <= i < NPROC ==> proc[i].parent != Some(cur)
    {
      if initproc == Some(cur) {
        return false;
      }
      ghost var s0 := proc[..];
      Wakeup1(ChanOf(proc[cur].parent));
      ReparentChildren(cur);
      ExitStageDone(s0, cur, initproc, HasZombieChild(Wake(s0, ChanOf(s0[cur].parent)), cur));
      proc[cur] := proc[cur].(state := Zombie);
      ok := true;
      ExitKeepsInvariants(s0, cur, initproc, nextpid);
      ExitLeavesNoOrphans(s0, cur, initproc);
    }

    /**
      The reparenting loop of `exit`: every child of `cur` is handed to
      `initproc`, and `initproc`'s channel is woken as soon as one of them is
      a ZOMBIE (and again for each later one, which changes nothing more).
     */
    method ReparentChildren(cur: nat)
      requires proc.Length == NPROC
      modifies proc
      ensures proc[..] == ExitStage(old(proc[..]), cur, initproc, NPROC, HasZombieChild(old(proc[..]), cur))
    {
      ghost var s1 := proc[..];
      ghost var woke := false;
      ExitStageWake(s1, cur, initproc, 0, false);
      for k := 0 to NPROC
        invariant proc[..] == ExitStage(s1, cur, initproc, k, woke)
        invariant woke <==> exists i :: 0 <= i < k && s1[i].parent == Some(cur) && s1[i].state == Zombie
      {
        ExitStageAdopt(s1, cur, initproc, k, woke);
        if proc[k].parent == Some(cur) {
          proc[k] := proc[k].(parent := initproc);
          if proc[k].state == Zombie {
            ExitStageWake(s1, cur, initproc, k + 1, woke);
            Wakeup1(ChanOf(initproc));
            woke := true;
          }
        }
      }
    }

    /**
      One pass of `wait`'s loop for the process in slot `cur`: reap the first
      ZOMBIE child in table order and return its pid; return NoChildren when
      `cur` has no children or has been killed; otherwise go to sleep on
      `cur`'s own slot, the channel `exit` wakes.
     */
    method Wait(cur: nat) returns (res: WaitResult)
      requires Valid() && cur < NPROC && proc[cur].state == Running
      modifies proc
      ensures Valid()
      ensures old(HighTierOnly(proc[..])) ==> HighTierOnly(proc[..])
      ensures FirstZombieChild(old(proc[..]), cur).Some? ==>
        var k := FirstZombieChild(old(proc[..]), cur).value;
        res == Reaped(old(proc[k].pid)) && proc[..] == old(proc[..])[k := Reclaimed(old(proc[k]))]
      ensures FirstZombieChild(old(proc[..]), cur).None? ==>
        if !HasChild(old(proc[..]), cur) || old(proc[cur].killed) then
          res == NoChildren && proc[..] == old(proc[..])
        else
          res == MustSleep && proc[..] == old(proc[..])[cur := Asleep(old(proc[cur]), ProcChan(cur))]
      ensures res.Reaped? ==> res.pid >= 1
      ensures res.Reaped? ==> forall i :: 0 <= i < NPROC && proc[i].state != Unused ==> proc[i].pid != res.pid
    {
      var havekids := false;
      for k := 0 to NPROC
        invariant proc[..] == old(proc[..])
        invariant havekids <==> exists i :: 0 <= i < k && proc[i].parent == Some(cur)
        invariant forall i :: 0 <= i < k ==> !(proc[i].parent == Some(cur) && proc[i].state == Zombie)
      {
        if proc[k].parent != Some(cur) {
          continue;
        }
        havekids := true;
        if proc[k].state == Zombie {
          res := Reaped(proc[k].pid);
          SlotUpdateKeepsInv(proc[..], nextpid, k, Reclaimed(proc[k]));
          proc[k] := Reclaimed(proc[k]);
          return;
        }
      }
      if !havekids || proc[cur].killed {
        return NoChildren;
      }
      Sleep(cur, ProcChan(cur));
      res := MustSleep;
    }

    /**
      `kill(pid)`: mark the first slot whose pid matches, in whatever state,
      as killed and wake it if it sleeps; -1 and no change when none matches.
     */
    method Kill(pid: int) returns (r: int)
      requires Valid()
      modifies proc
      ensures Valid()
      ensures old(HighTierOnly(proc[..])) ==> HighTierOnly(proc[..])
      ensures FindPid(old(proc[..]), pid).None? ==> r == -1 && proc[..] == old(proc[..])
      ensures FindPid(old(proc[..]), pid).Some? ==>
        var k := FindPid(old(proc[..]), pid).value;
        r == 0 && proc[..] == old(proc[..])[k := Killed(old(proc[k]))]
    {
      for k := 0 to NPROC
        invariant forall i :: 0 <= i < k ==> proc[i].pid != pid
      {
        if proc[k].pid == pid {
          var p := proc[k].(killed := true);
          if p.state == Sleeping {
            p := p.(state := Runnable);
          }
          SlotUpdateKeepsInv(proc[..], nextpid, k, p);
          proc[k] := p;
          return 0;
        }
      }
      r := -1;
    }

    // -------------------------------------------------------------------
    // Blocking

    /** The state effect of `sleep(c, lk)` before the caller gives up the CPU. */
    method Sleep(cur: nat, c: Chan)
      requires Valid() && cur < NPROC && proc[cur].state == Running
      modifies proc
      ensures Valid()
      ensures old(HighTierOnly(proc[..])) ==> HighTierOnly(proc[..])
      ensures proc[..] == old(proc[..])[cur := Asleep(old(proc[cur]), c)]
    {
      var p := proc[cur].(chan := c, state := Sleeping);
      SlotUpdateKeepsInv(proc[..], nextpid, cur, p);
      proc[cur] := p;
    }

    /** The state effect of `sleep` once the caller runs again: its channel is cleared. */
    method SleepReturn(cur: nat)
      requires Valid() && cur < NPROC && proc[cur].state == Running
      modifies proc
      ensures Valid()
      ensures old(HighTierOnly(proc[..])) ==> HighTierOnly(proc[..])
      ensures proc[..] == old(proc[..])[cur := old(proc[cur]).(chan := NoChan)]
    {
      var p := proc[cur].(chan := NoChan);
      SlotUpdateKeepsInv(proc[..], nextpid, cur, p);
      proc[cur] := p;
    }

    /** The state effect of `yield`: the caller becomes RUNNABLE again. */
    method Yield(cur: nat)
      requires Valid() && cur < NPROC && proc[cur].state == Running
      modifies proc
      ensures Valid()
      ensures old(HighTierOnly(proc[..])) ==> HighTierOnly(proc[..])
      ensures proc[..] == old(proc[..])[cur := old(proc[cur]).(state := Runnable)]
    {
      var p := proc[cur].(state := Runnable);
      SlotUpdateKeepsInv(proc[..], nextpid, cur, p);
      proc[cur] := p;
    }

    // -------------------------------------------------------------------
    // Small helpers

    /**
      `rand1(bound)`: advance the generator and return its new state modulo
      `bound`. The state is never negative, so C's remainder, which takes the
      sign of the dividend, equals Dafny's here, and the result lies in
      [0, |bound|). A bound of 0 would divide by zero.
     */
    method Rand1(bound: int) returns (r: int)
      requires Valid() && bound != 0
      modifies this`randSeed
      ensures Valid()
      ensures randSeed == LcgNext(old(randSeed))
      ensures r == randSeed % bound
      ensures bound > 0 ==> 0 <= r < bound
      ensures bound < 0 ==> 0 <= r < -bound
    {
      LcgStaysInRange(randSeed);
      randSeed := (randSeed * RAND_MUL) % RAND_MOD;
      r := randSeed % bound;
    }

    /**
      `getpinfo`: per slot, whether it is in use, its pid and its HIGH and LOW
      run counts; always returns 0.
     */
    method GetPinfo() returns (info: PStat, r: int)
      requires Valid()
      ensures r == 0
      ensures |info.inuse| == NPROC && |info.pid| == NPROC && |info.hticks| == NPROC && |info.lticks| == NPROC
      ensures forall i :: 0 <= i < NPROC ==>
        && (info.inuse[i] == if proc[i].state == Unused then 0 else 1)
        && info.pid[i] == proc[i].pid
        && info.hticks[i] == proc[i].highticks
        && info.lticks[i] == proc[i].lowticks
    {
      var inuse, pids, hticks, lticks := [], [], [], [];
      for i := 0 to NPROC
        invariant |inuse| == i && |pids| == i && |hticks| == i && |lticks| == i
        invariant forall j :: 0 <= j < i ==>
          && (inuse[j] == if proc[j].state == Unused then 0 else 1)
          && pids[j] == proc[j].pid
          && hticks[j] == proc[j].highticks
          && lticks[j] == proc[j].lowticks
      {
        if proc[i].state == Unused {
          inuse := inuse + [0];
        } else {
          inuse := inuse + [1];
        }
        pids := pids + [proc[i].pid];
        hticks := hticks + [proc[i].highticks];
        lticks := lticks + [proc[i].lowticks];
      }
      info := PStat(inuse, pids, hticks, lticks);
      r := 0;
    }

    // -------------------------------------------------------------------
    // One scheduler round

    /**
      The refill at the top of a round: one index runs over the RUNNABLE
      slots of either tier and fills `high[]` or `low[]` at that index, while
      `hightickets`/`lowtickets` sum the tickets of each tier. Returns whether
      each tier has a member.
     */
    method Snapshot() returns (highNonEmpty: bool, lowNonEmpty: bool)
      requires proc.Length == NPROC && high.Length == NPROC && low.Length == NPROC && high != low
      requires QueuesCleared()
      modifies this`hightickets, this`lowtickets, high, low
      ensures hightickets == TierTickets(proc[..], 1) && lowtickets == TierTickets(proc[..], 0)
      ensures highNonEmpty == HasTier(proc[..], 1) && lowNonEmpty == HasTier(proc[..], 0)
      ensures forall n :: 0 <= n < NPROC ==> high[n] == SnapEntry(proc[..], 1, n) && low[n] == SnapEntry(proc[..], 0, n)
    {
      ghost var s := proc[..];
      ghost var q: seq<nat> := [];
      assert high[..] == QueueArray(s, q, 1) && low[..] == QueueArray(s, q, 0);
      var i := 0;
      hightickets, lowtickets := 0, 0;
      highNonEmpty, lowNonEmpty := false, false;
      for k := 0 to NPROC
        invariant q == MembersUpTo(s, k, {0, 1}) && i == |q|
        invariant hightickets == TierTicketsUpTo(s, k, 1) && lowtickets == TierTicketsUpTo(s, k, 0)
        invariant highNonEmpty == HasTierUpTo(s, k, 1) && lowNonEmpty == HasTierUpTo(s, k, 0)
        invariant high[..] == QueueArray(s, q, 1) && low[..] == QueueArray(s, q, 0)
      {
        HasTierStep(s, k, 1);
        HasTierStep(s, k, 0);
        if proc[k].state != Runnable {
          continue;
        }
        if proc[k].whichqueue == 1 {
          highNonEmpty := true;
          QueuePush(s, q, k, 1);
          QueuePush(s, q, k, 0);
          high[i] := Some(k);
          hightickets := hightickets + proc[k].numTickets;
          i := i + 1;
          q := q + [k];
        } else if proc[k].whichqueue == 0 {
          lowNonEmpty := true;
          QueuePush(s, q, k, 1);
          QueuePush(s, q, k, 0);
          low[i] := Some(k);
          lowtickets := lowtickets + proc[k].numTickets;
          i := i + 1;
          q := q + [k];
        }
      }
    }

    /**
      The lottery walk over `q[0..|m|)`, whose entries are the slots `m`:
      accumulate tickets from the first entry on and stop at the first entry
      whose running sum reaches the draw `r`. A draw no larger than the total
      keeps the walk inside the filled entries.
     */
    method Walk(q: array<Option<nat>>, ghost m: seq<nat>, r: int) returns (j: nat)
      requires 1 <= |m| <= q.Length
      requires forall n :: 0 <= n < |m| ==> m[n] < proc.Length && q[n] == Some(m[n])
      requires r <= Sum(Weights(proc[..], m))
      ensures j < |m| && j == LotteryIndex(Weights(proc[..], m), r)
      ensures q[j] == Some(m[j])
    {
      ghost var w := Weights(proc[..], m);
      PrefixFirst(w);
      PrefixLast(w);
      var pick := proc[q[0].value].numTickets;
      j := 0;
      while pick < r
        invariant j < |m|
        invariant pick == PrefixSum(w, j)
        invariant forall k :: 0 <= k < j ==> PrefixSum(w, k) < r
        decreases |m| - j
      {
        PrefixStep(w, j);
        j := j + 1;
        pick := pick + proc[q[j].value].numTickets;
      }
      LotteryIndexUnique(w, r, j);
    }

    /**
      The dispatch bookkeeping for slot k taken from tier t: RUNNING, on a
      CPU, and one more run counted in that tier.
     */
    method Dispatch(k: nat, t: int)
      requires Valid() && k < NPROC && InTiers(proc[k], {t})
      modifies proc
      ensures Valid()
      ensures old(HighTierOnly(proc[..])) ==> HighTierOnly(proc[..])
      ensures proc[..] == old(proc[..])[k := Dispatched(old(proc[k]), t)]
    {
      var p := proc[k].(state := Running);
      if t == 1 {
        p := p.(highticks := p.highticks + 1);
      } else {
        p := p.(lowticks := p.lowticks + 1);
      }
      p := p.(current := 1);
      SlotUpdateKeepsInv(proc[..], nextpid, k, p);
      proc[k] := p;
    }

    /**
      A scheduler round up to the context switch: snapshot, tier choice,
      draw, walk and dispatch. The result is the slot `RoundPick` names, or
      None when no slot is RUNNABLE in either tier (the idle path, which
      changes nothing). Only the chosen slot changes. The HIGH walk reads
      `high[]` as if it had no gaps, which holds only while the LOW tier is
      empty; the requirement that both tiers are not populated at once says so.
     */
    method RoundStart() returns (chosen: Option<nat>)
      requires Valid() && QueuesCleared()
      requires !(HasTier(proc[..], 1) && HasTier(proc[..], 0))
      modifies this`hightickets, this`lowtickets, this`randSeed, high, low, proc
      ensures Valid()
      ensures old(HighTierOnly(proc[..])) ==> HighTierOnly(proc[..])
      ensures chosen == RoundPick(old(proc[..]), old(randSeed))
      ensures hightickets == TierTickets(old(proc[..]), 1) && lowtickets == TierTickets(old(proc[..]), 0)
      ensures forall n :: 0 <= n < NPROC ==>
        high[n] == SnapEntry(old(proc[..]), 1, n) && low[n] == SnapEntry(old(proc[..]), 0, n)
      ensures chosen.None? ==> proc[..] == old(proc[..]) && randSeed == old(randSeed) && QueuesCleared()
      ensures chosen.Some? ==>
        var k := chosen.value;
        && randSeed == LcgNext(old(randSeed))
        && proc[..] == old(proc[..])[k := Dispatched(old(proc[k]), old(proc[k]).whichqueue)]
    {
      ghost var s := proc[..];
      var highNonEmpty, lowNonEmpty := Snapshot();
      match ChooseTier(highNonEmpty, lowNonEmpty)
      case None =>
        IdleQueuesNothing(s, NPROC);
        chosen := None;
      case Some(t) =>
        assert ChooseTier(HasTier(s, 1), HasTier(s, 0)) == Some(t);
        ghost var m := Members(s, {t});
        TierTicketsPositive(s, t);
        SnapEntryContiguous(s, t);
        TierTicketsIsSum(s, NPROC, t);
        var q := if t == 1 then high else low;
        var bound := if t == 1 then hightickets else lowtickets;
        var k := RunLottery(q, m, t, bound);
        chosen := Some(k);
    }

    /**
      The lottery in the chosen tier t, whose RUNNABLE slots `m` fill
      `q[0..|m|)` and hold `bound` tickets in all: draw with `rand1`, walk to
      the winner, and dispatch it.
     */
    method RunLottery(q: array<Option<nat>>, ghost m: seq<nat>, t: int, bound: int) returns (k: nat)
      requires Valid() && 1 <= |m| <= q.Length
      requires forall n :: 0 <= n < |m| ==> m[n] < NPROC && q[n] == Some(m[n]) && InTiers(proc[m[n]], {t})
      requires bound == Sum(Weights(proc[..], m)) && bound >= 1
      modifies this`randSeed, proc
      ensures Valid()
      ensures old(HighTierOnly(proc[..])) ==> HighTierOnly(proc[..])
      ensures randSeed == LcgNext(old(randSeed))
      ensures k == m[LotteryIndex(Weights(old(proc[..]), m), randSeed % bound)]
      ensures proc[..] == old(proc[..])[k := Dispatched(old(proc[k]), t)]
    {
      var r := Rand1(bound);
      var j := Walk(q, m, r);
      k := q[j].value;
      Dispatch(k, t);
    }

    /**
      The rest of the round once the dispatched process in slot k gives the
      CPU back: clear its `current` flag and empty both snapshot arrays. The
      demotion written here assigns through the scan cursor, which points one
      past the last slot at this moment, so no slot's tier changes.
     */
    method RoundEnd(k: nat)
      requires Valid() && k < NPROC
      modifies proc, high, low
      ensures Valid() && QueuesCleared()
      ensures old(HighTierOnly(proc[..])) ==> HighTierOnly(proc[..])
      ensures proc[..] == old(proc[..])[k := Returned(old(proc[k]))]
    {
      var p := proc[k].(current := 0);
      SlotUpdateKeepsInv(proc[..], nextpid, k, p);
      proc[k] := p;
      ClearQueues();
    }

    /**
      The end of a round as the scheduler's comment describes it: a process
      that ran from HIGH and is still RUNNABLE moves to LOW.
     */
    method RoundEndDemoting(k: nat, fromHigh: bool)
      requires Valid() && k < NPROC
      modifies proc, high, low
      ensures Valid() && QueuesCleared()
      ensures proc[..] == old(proc[..])[k := Demoted(old(proc[k]), fromHigh)]
      ensures fromHigh && proc[k].state == Runnable ==> proc[k].whichqueue == 0
    {
      var p := proc[k].(current := 0);
      if fromHigh && p.state == Runnable {
        p := p.(whichqueue := 0);
      }
      SlotUpdateKeepsInv(proc[..], nextpid, k, p);
      proc[k] := p;
      ClearQueues();
    }

    /** The loop at the end of a round that resets `high[]` and `low[]` to NULL. */
    method ClearQueues()
      requires Valid()
      modifies high, low
      ensures QueuesCleared()
    {
      for n := 0 to NPROC
        invariant forall i :: 0 <= i < n ==> high[i] == None && low[i] == None
      {
        high[n] := None;
        low[n] := None;
      }
    }
  }
}
