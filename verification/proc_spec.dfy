/**
  What the lock-protected operations of kernel/proc.c do to the process
  table, stated on the table's contents (a sequence of slots), and the
  properties of those effects.
 */
module ProcSpec {
  import opened ProcTypes

  // ---------------------------------------------------------------------
  // First-match scans

  /** The lowest index whose slot satisfies P, as the table's for-loops find it. */
  function FirstMatch(s: seq<Proc>, P: Proc -> bool): (r: Option<nat>)
    ensures r.Some? ==> r.value < |s| && P(s[r.value])
    ensures r.Some? ==> forall i :: 0 <= i < r.value ==> !P(s[i])
    ensures r.None? <==> forall i :: 0 <= i < |s| ==> !P(s[i])
  {
    if s == [] then None
    else if P(s[0]) then Some(0)
    else
      var rest := FirstMatch(s[1..], P);
      assert forall i :: 1 <= i < |s| ==> s[i] == s[1..][i - 1];
      match rest
      case None => None
      case Some(k) => Some(k + 1)
  }

  predicate IsUnused(p: Proc) { p.state == Unused }

  /** The slot `allocproc` takes: the lowest-index UNUSED one. */
  function FirstUnused(s: seq<Proc>): Option<nat> {
    FirstMatch(s, IsUnused)
  }

  /** The slot `kill(pid)` acts on: the first whose pid matches, in any state. */
  function FindPid(s: seq<Proc>, pid: int): Option<nat> {
    FirstMatch(s, (p: Proc) => p.pid == pid)
  }

  /** The child `wait` reaps: the first ZOMBIE slot whose parent is `cur`. */
  function FirstZombieChild(s: seq<Proc>, cur: nat): Option<nat> {
    FirstMatch(s, (p: Proc) => p.parent == Some(cur) && p.state == Zombie)
  }

  predicate HasChild(s: seq<Proc>, cur: nat) {
    exists i :: 0 <= i < |s| && s[i].parent == Some(cur)
  }

  // ---------------------------------------------------------------------
  // Slot updates

  /**
    The slot after `allocproc` claims it: EMBRYO with the given pid and the
    default scheduling fields, or, when the kernel stack could not be
    allocated, back to UNUSED with those fields already written.
   */
  function Allocated(p: Proc, pid: int, kallocOk: bool): Proc {
    p.(state := if kallocOk then Embryo else Unused, pid := pid, numTickets := 1,
       highticks := 0, lowticks := 0, current := 0, whichqueue := 1, kstack := kallocOk)
  }

  /** The new slot after a successful `fork` by the process in slot `cur`. */
  function Forked(child: Proc, parent: Proc, cur: nat): Proc {
    child.(sz := parent.sz, parent := Some(cur), tf := parent.tf.(eax := 0),
           state := Runnable, name := parent.name)
  }

  /** A ZOMBIE slot after `wait` reclaims it. */
  function Reclaimed(p: Proc): Proc {
    p.(state := Unused, pid := 0, parent := None, name := "", killed := false, kstack := false)
  }

  /** A slot after `kill` finds it. */
  function Killed(p: Proc): Proc {
    p.(killed := true, state := if p.state == Sleeping then Runnable else p.state)
  }

  /** The caller's slot after `sleep(c, lk)` has given up the CPU. */
  function Asleep(p: Proc, c: Chan): Proc {
    p.(chan := c, state := Sleeping)
  }

  /**
    `settickets(num)`: rejects a count below one with -1 and accepts any other
    with 0. It reads and writes no process state: the store into the caller's
    slot is commented out in the source, so every live slot keeps the single
    ticket `allocproc` gave it.
   */
  function SetTickets(num: int): (r: int)
    ensures r == 0 || r == -1
    ensures r == -1 <==> num < 1
  {
    if num < 1 then -1 else 0
  }

  /** A slot after `wakeup1(c)` visits it. */
  function Woken(p: Proc, c: Chan): Proc {
    if p.state == Sleeping && p.chan == c then p.(state := Runnable) else p
  }

  /** The table after `wakeup1(c)`. */
  function Wake(s: seq<Proc>, c: Chan): seq<Proc> {
    seq(|s|, i requires 0 <= i < |s| => Woken(s[i], c))
  }

  /** A slot after `exit`'s reparenting loop visits it. */
  function Adopted(p: Proc, cur: nat, init: Option<nat>): Proc {
    if p.parent == Some(cur) then p.(parent := init) else p
  }

  predicate HasZombieChild(s: seq<Proc>, cur: nat) {
    exists i :: 0 <= i < |s| && s[i].parent == Some(cur) && s[i].state == Zombie
  }

  /**
    The table after the locked part of `exit` by the process in slot `cur`,
    with `init` the init process: wake the parent's channel, hand every child
    to `init` (waking `init`'s channel if one of them is a ZOMBIE), become a
    ZOMBIE.
   */
  function ExitTable(s: seq<Proc>, cur: nat, init: Option<nat>): seq<Proc>
    requires cur < |s|
  {
    var woken := Wake(s, ChanOf(s[cur].parent));
    var adopted := seq(|s|, i requires 0 <= i < |s| => Adopted(woken[i], cur, init));
    var initWoken := if HasZombieChild(woken, cur) then Wake(adopted, ChanOf(init)) else adopted;
    initWoken[cur := initWoken[cur].(state := Zombie)]
  }

  /**
    The table part-way through `exit`'s reparenting loop: the slots before k
    handed to `init`, and `init`'s channel woken once a ZOMBIE child was seen.
   */
  function ExitStage(s: seq<Proc>, cur: nat, init: Option<nat>, k: nat, woke: bool): (r: seq<Proc>)
    ensures |r| == |s|
  {
    seq(|s|, i requires 0 <= i < |s| =>
      var a := if i < k then Adopted(s[i], cur, init) else s[i];
      if woke then Woken(a, ChanOf(init)) else a)
  }

  // ---------------------------------------------------------------------
  // Table invariants

  /** Live slots hold pids in [1, nextpid). */
  predicate PidsFresh(s: seq<Proc>, nextpid: int) {
    forall i :: 0 <= i < |s| && s[i].state != Unused ==> 1 <= s[i].pid < nextpid
  }

  /** No two live slots share a pid. */
  predicate PidsDistinct(s: seq<Proc>) {
    forall i, j :: 0 <= i < |s| && 0 <= j < |s| && i != j && s[i].state != Unused && s[j].state != Unused
      ==> s[i].pid != s[j].pid
  }

  predicate ParentsInTable(s: seq<Proc>) {
    forall i :: 0 <= i < |s| && s[i].parent.Some? ==> s[i].parent.value < |s|
  }

  /** Every live slot holds exactly the one ticket `allocproc` gave it. */
  predicate UnitTickets(s: seq<Proc>) {
    forall i :: 0 <= i < |s| && s[i].state != Unused ==> s[i].numTickets == 1
  }

  /** The invariants the table keeps under every operation. */
  predicate TableInv(s: seq<Proc>, nextpid: int) {
    PidsFresh(s, nextpid) && PidsDistinct(s) && ParentsInTable(s) && UnitTickets(s)
  }

  /** Every live slot is in the HIGH tier. */
  predicate HighTierOnly(s: seq<Proc>) {
    forall i :: 0 <= i < |s| && s[i].state != Unused ==> s[i].whichqueue == 1
  }

  // ---------------------------------------------------------------------
  // Properties

  /**
    Rewriting one slot keeps the table invariants when the slot is freed, or
    stays live with its pid and tickets, and its parent link stays in the
    table; the tier invariant also holds when the tier is kept.
   */
  lemma SlotUpdateKeepsInv(s: seq<Proc>, nextpid: int, k: nat, p: Proc)
    requires k < |s| && TableInv(s, nextpid)
    requires p.state != Unused ==> s[k].state != Unused && p.pid == s[k].pid && p.numTickets == s[k].numTickets
    requires p.parent.Some? ==> p.parent.value < |s|
    ensures TableInv(s[k := p], nextpid)
    ensures HighTierOnly(s) && (p.state == Unused || p.whichqueue == s[k].whichqueue) ==> HighTierOnly(s[k := p])
  {
  }

  /**
    After a successful `fork`, the pid it returns names exactly one live slot:
    the new child, RUNNABLE, whose parent is the caller and whose saved `eax`
    is 0.
   */
  lemma ForkPidNamesChild(s: seq<Proc>, nextpid: int, k: nat, cur: nat)
    requires TableInv(s, nextpid) && nextpid >= 1
    requires k < |s| && s[k].state == Unused && cur < |s|
    ensures var s' := s[k := Forked(Allocated(s[k], nextpid, true), s[cur], cur)];
      forall i :: 0 <= i < |s'| && s'[i].state != Unused && s'[i].pid == nextpid ==>
        i == k && s'[i].parent == Some(cur) && s'[i].state == Runnable && s'[i].tf.eax == 0
  {
  }

  /** `wakeup1` keeps the table invariants: it only turns SLEEPING slots RUNNABLE. */
  lemma WakeKeepsInv(s: seq<Proc>, c: Chan, nextpid: int)
    ensures TableInv(s, nextpid) ==> TableInv(Wake(s, c), nextpid)
    ensures HighTierOnly(s) ==> HighTierOnly(Wake(s, c))
  {
    WakeExactlySleepers(s, c);
  }

  /**
    Allocation gives the claimed slot the pid `nextpid`, which no live slot
    holds, and keeps the live pids distinct and below the incremented counter.
   */
  lemma AllocKeepsPidsUnique(s: seq<Proc>, nextpid: int, k: nat, kallocOk: bool)
    requires TableInv(s, nextpid) && nextpid >= 1
    requires k < |s| && s[k].state == Unused
    ensures forall i :: 0 <= i < |s| && s[i].state != Unused ==> s[i].pid != nextpid
    ensures TableInv(s[k := Allocated(s[k], nextpid, kallocOk)], nextpid + 1)
    ensures HighTierOnly(s) ==> HighTierOnly(s[k := Allocated(s[k], nextpid, kallocOk)])
  {
  }

  /**
    `wakeup1(c)` makes exactly the SLEEPING slots waiting on c RUNNABLE and
    changes nothing else.
   */
  lemma WakeExactlySleepers(s: seq<Proc>, c: Chan)
    ensures |Wake(s, c)| == |s|
    ensures forall i :: 0 <= i < |s| ==>
      (Wake(s, c)[i] != s[i] <==> s[i].state == Sleeping && s[i].chan == c)
    ensures forall i :: 0 <= i < |s| ==>
      Wake(s, c)[i] == s[i].(state := Wake(s, c)[i].state)
    ensures forall i :: 0 <= i < |s| && s[i].state == Sleeping && s[i].chan == c ==>
      Wake(s, c)[i].state == Runnable
    ensures forall i :: 0 <= i < |s| ==> (Wake(s, c)[i].state == Sleeping ==> Wake(s, c)[i].chan != c)
  {
  }

  /** Waking a channel twice is the same as waking it once. */
  lemma WakeIdempotent(s: seq<Proc>, c: Chan)
    ensures Wake(Wake(s, c), c) == Wake(s, c)
  {
  }

  /**
    After `exit` by `cur` (not the init process), no slot names `cur` as its
    parent: each former child now names `init`, and every other parent link is
    unchanged.
   */
  lemma ExitLeavesNoOrphans(s: seq<Proc>, cur: nat, init: Option<nat>)
    requires cur < |s| && init != Some(cur)
    ensures |ExitTable(s, cur, init)| == |s|
    ensures !HasChild(ExitTable(s, cur, init), cur)
    ensures forall i :: 0 <= i < |s| ==>
      ExitTable(s, cur, init)[i].parent == if s[i].parent == Some(cur) then init else s[i].parent
  {
    forall i | 0 <= i < |s|
      ensures ExitTable(s, cur, init)[i].parent == if s[i].parent == Some(cur) then init else s[i].parent
    {
      ExitTableAt(s, cur, init, i);
    }
  }

  /** Slot i of the table after `exit`, one slot at a time. */
  lemma ExitTableAt(s: seq<Proc>, cur: nat, init: Option<nat>, i: nat)
    requires cur < |s| && i < |s|
    ensures |ExitTable(s, cur, init)| == |s|
    ensures var a := Adopted(Woken(s[i], ChanOf(s[cur].parent)), cur, init);
      var b := if HasZombieChild(s, cur) then Woken(a, ChanOf(init)) else a;
      ExitTable(s, cur, init)[i] == if i == cur then b.(state := Zombie) else b
  {
    var woken := Wake(s, ChanOf(s[cur].parent));
    if HasZombieChild(s, cur) {
      var k :| 0 <= k < |s| && s[k].parent == Some(cur) && s[k].state == Zombie;
      assert woken[k].parent == Some(cur) && woken[k].state == Zombie;
    }
    if HasZombieChild(woken, cur) {
      var k :| 0 <= k < |s| && woken[k].parent == Some(cur) && woken[k].state == Zombie;
      assert s[k].parent == Some(cur) && s[k].state == Zombie;
    }
  }

  /**
    The state effects of `exit` by `cur`: `cur` becomes a ZOMBIE, every other
    slot sleeping on the parent's channel becomes RUNNABLE, and apart from that
    states only move from SLEEPING to RUNNABLE.
   */
  lemma ExitStates(s: seq<Proc>, cur: nat, init: Option<nat>)
    requires cur < |s|
    ensures |ExitTable(s, cur, init)| == |s|
    ensures ExitTable(s, cur, init)[cur].state == Zombie
    ensures forall i :: 0 <= i < |s| && i != cur && s[i].state == Sleeping && s[i].chan == ChanOf(s[cur].parent) ==>
      ExitTable(s, cur, init)[i].state == Runnable
    ensures forall i :: 0 <= i < |s| && i != cur ==>
      (ExitTable(s, cur, init)[i].state == s[i].state ||
       (s[i].state == Sleeping && ExitTable(s, cur, init)[i].state == Runnable))
  {
    var r := ExitTable(s, cur, init);
    forall i | 0 <= i < |s| && i != cur
      ensures s[i].state == Sleeping && s[i].chan == ChanOf(s[cur].parent) ==> r[i].state == Runnable
      ensures r[i].state == s[i].state || (s[i].state == Sleeping && r[i].state == Runnable)
    {
      ExitTableAt(s, cur, init, i);
    }
    ExitTableAt(s, cur, init, cur);
  }

  /** `exit` changes only the state and parent fields of any slot. */
  lemma ExitFrame(s: seq<Proc>, cur: nat, init: Option<nat>)
    requires cur < |s|
    ensures |ExitTable(s, cur, init)| == |s|
    ensures forall i :: 0 <= i < |s| ==>
      ExitTable(s, cur, init)[i] ==
        s[i].(state := ExitTable(s, cur, init)[i].state, parent := ExitTable(s, cur, init)[i].parent)
  {
    var r := ExitTable(s, cur, init);
    forall i | 0 <= i < |s|
      ensures r[i] == s[i].(state := r[i].state, parent := r[i].parent)
    {
      ExitSlotAt(s, cur, init, i);
    }
  }

  /** What `exit` may change in slot i. */
  lemma ExitSlotAt(s: seq<Proc>, cur: nat, init: Option<nat>, i: nat)
    requires cur < |s| && i < |s|
    ensures |ExitTable(s, cur, init)| == |s|
    ensures var r := ExitTable(s, cur, init)[i];
      && r == s[i].(state := r.state, parent := r.parent)
      && (r.state != Unused <==> s[i].state != Unused || i == cur)
      && (r.parent == s[i].parent || r.parent == init)
  {
    ExitTableAt(s, cur, init, i);
    var w := Woken(s[i], ChanOf(s[cur].parent));
    assert w == s[i].(state := w.state) && (w.state != Unused <==> s[i].state != Unused);
    var a := Adopted(w, cur, init);
    assert a == w.(parent := a.parent) && (a.parent == s[i].parent || a.parent == init);
    var b := if HasZombieChild(s, cur) then Woken(a, ChanOf(init)) else a;
    assert b == a.(state := b.state) && (b.state != Unused <==> s[i].state != Unused);
  }

  /**
    When `exit` hands a ZOMBIE child to the init process and init sleeps on its
    own channel (as it does inside `wait`), init is woken.
   */
  lemma ExitWakesInit(s: seq<Proc>, cur: nat, k: nat)
    requires cur < |s| && k < |s| && k != cur
    requires HasZombieChild(s, cur)
    requires s[k].state == Sleeping && s[k].chan == ProcChan(k)
    ensures ExitTable(s, cur, Some(k))[k].state == Runnable
  {
    ExitTableAt(s, cur, Some(k), k);
  }

  /** One iteration of the reparenting loop hands slot k to `init`. */
  lemma ExitStageAdopt(s: seq<Proc>, cur: nat, init: Option<nat>, k: nat, woke: bool)
    requires k < |s|
    ensures var st := ExitStage(s, cur, init, k, woke);
      st[k := Adopted(st[k], cur, init)] == ExitStage(s, cur, init, k + 1, woke)
  {
  }

  /** Waking `init`'s channel during the loop, once or again. */
  lemma ExitStageWake(s: seq<Proc>, cur: nat, init: Option<nat>, k: nat, woke: bool)
    ensures Wake(ExitStage(s, cur, init, k, woke), ChanOf(init)) == ExitStage(s, cur, init, k, true)
  {
  }

  /** The loop run to the end, followed by the ZOMBIE store, is `ExitTable`. */
  lemma ExitStageDone(s: seq<Proc>, cur: nat, init: Option<nat>, woke: bool)
    requires cur < |s|
    requires woke <==> HasZombieChild(Wake(s, ChanOf(s[cur].parent)), cur)
    ensures var st := ExitStage(Wake(s, ChanOf(s[cur].parent)), cur, init, |s|, woke);
      st[cur := st[cur].(state := Zombie)] == ExitTable(s, cur, init)
  {
  }

  /**
    `exit` by a live slot `cur` keeps the table invariants: pids, tickets and
    tiers are untouched, no slot becomes or stops being live, and every new
    parent link names `init`, which lies in the table.
   */
  lemma ExitKeepsInvariants(s: seq<Proc>, cur: nat, init: Option<nat>, nextpid: int)
    requires cur < |s| && s[cur].state != Unused
    requires init.Some? ==> init.value < |s|
    requires TableInv(s, nextpid)
    ensures TableInv(ExitTable(s, cur, init), nextpid)
    ensures HighTierOnly(s) ==> HighTierOnly(ExitTable(s, cur, init))
  {
    var r := ExitTable(s, cur, init);
    forall i | 0 <= i < |s|
      ensures (r[i].state != Unused <==> s[i].state != Unused)
      ensures r[i].pid == s[i].pid && r[i].numTickets == s[i].numTickets && r[i].whichqueue == s[i].whichqueue
      ensures r[i].parent == s[i].parent || r[i].parent == init
    {
      ExitSlotAt(s, cur, init, i);
    }
  }
}
