/**
  The pure side of the two-tier lottery scheduler in kernel/proc.c: which
  slots a round's snapshot sees, the ticket sums, the `rand1` generator, the
  prefix-sum walk that turns a draw into a slot, and the pick of a whole
  round.
 */
module Lottery {
  import opened ProcTypes

  /** A slot the snapshot places in one of the tiers `ts` (1 = HIGH, 0 = LOW). */
  predicate InTiers(p: Proc, ts: set<int>) {
    p.state == Runnable && p.whichqueue in ts
  }

  /** Some slot among the first k of `s` is RUNNABLE in tier t. */
  predicate HasTierUpTo(s: seq<Proc>, k: int, t: int) {
    exists i :: 0 <= i < k && i < |s| && InTiers(s[i], {t})
  }

  /** Some slot of `s` is RUNNABLE in tier t. */
  predicate HasTier(s: seq<Proc>, t: int) {
    HasTierUpTo(s, |s|, t)
  }

  /**
    The slots among the first k of `s`, in table order, that are RUNNABLE in
    one of the tiers `ts`: what the snapshot loop has queued after k slots.
   */
  function MembersUpTo(s: seq<Proc>, k: nat, ts: set<int>): (m: seq<nat>)
    requires k <= |s|
    ensures |m| <= k
    ensures forall n :: 0 <= n < |m| ==> m[n] < k && InTiers(s[m[n]], ts)
  {
    if k == 0 then []
    else MembersUpTo(s, k - 1, ts) + (if InTiers(s[k - 1], ts) then [k - 1] else [])
  }

  /** The slots of `s`, in table order, that are RUNNABLE in one of the tiers `ts`. */
  function Members(s: seq<Proc>, ts: set<int>): (m: seq<nat>)
    ensures |m| <= |s|
    ensures forall n :: 0 <= n < |m| ==> m[n] < |s| && InTiers(s[m[n]], ts)
  {
    MembersUpTo(s, |s|, ts)
  }

  /**
    The snapshot lists every RUNNABLE slot of the tiers `ts`, each once and in
    increasing table order.
   */
  lemma {:induction false} MembersComplete(s: seq<Proc>, k: nat, ts: set<int>)
    requires k <= |s|
    ensures forall n, n' :: 0 <= n < n' < |MembersUpTo(s, k, ts)| ==>
      MembersUpTo(s, k, ts)[n] < MembersUpTo(s, k, ts)[n']
    ensures forall i :: 0 <= i < k && InTiers(s[i], ts) ==> i in MembersUpTo(s, k, ts)
  {
    if k > 0 {
      var m' := MembersUpTo(s, k - 1, ts);
      MembersComplete(s, k - 1, ts);
      var m := MembersUpTo(s, k, ts);
      if InTiers(s[k - 1], ts) {
        assert m == m' + [k - 1];
        forall n, n' | 0 <= n < n' < |m| ensures m[n] < m[n'] {
          assert m[n] == m'[n];
          if n' == |m'| {
            assert m[n'] == k - 1;
          } else {
            assert m[n'] == m'[n'];
          }
        }
        assert m[|m| - 1] == k - 1;
      } else {
        assert m == m';
      }
    }
  }

  lemma MembersNonEmpty(s: seq<Proc>, t: int)
    ensures |Members(s, {t})| > 0 <==> HasTier(s, t)
  {
    var m := Members(s, {t});
    MembersComplete(s, |s|, {t});
    if |m| > 0 {
      assert InTiers(s[m[0]], {t});
    }
  }

  /** With no RUNNABLE slot in either tier, the snapshot queues nothing. */
  lemma {:induction false} IdleQueuesNothing(s: seq<Proc>, k: nat)
    requires k <= |s| && !HasTier(s, 1) && !HasTier(s, 0)
    ensures MembersUpTo(s, k, {0, 1}) == []
  {
    if k > 0 {
      IdleQueuesNothing(s, k - 1);
      assert !InTiers(s[k - 1], {1}) && !InTiers(s[k - 1], {0});
    }
  }

  /** Ticket counts of the slots `m`, in the order of `m`. */
  function Weights(s: seq<Proc>, m: seq<nat>): (w: seq<int>)
    requires forall n :: 0 <= n < |m| ==> m[n] < |s|
    ensures |w| == |m|
  {
    seq(|m|, n requires 0 <= n < |m| => s[m[n]].numTickets)
  }

  function Sum(w: seq<int>): int {
    if w == [] then 0 else w[0] + Sum(w[1..])
  }

  lemma {:induction false} SumAppend(a: seq<int>, b: seq<int>)
    ensures Sum(a + b) == Sum(a) + Sum(b)
  {
    if a == [] {
      assert a + b == b;
    } else {
      assert (a + b)[1..] == a[1..] + b;
      SumAppend(a[1..], b);
    }
  }

  /** With weights of at least one ticket, the sum is at least the count. */
  lemma {:induction false} SumAtLeastCount(w: seq<int>)
    requires forall n :: 0 <= n < |w| ==> w[n] >= 1
    ensures Sum(w) >= |w|
  {
    if w != [] {
      SumAtLeastCount(w[1..]);
    }
  }

  /**
    The tickets of tier t among the first k slots: `hightickets` (t = 1) or
    `lowtickets` (t = 0) once the snapshot loop has visited k slots.
   */
  function TierTicketsUpTo(s: seq<Proc>, k: nat, t: int): int
    requires k <= |s|
  {
    if k == 0 then 0
    else TierTicketsUpTo(s, k - 1, t) + (if InTiers(s[k - 1], {t}) then s[k - 1].numTickets else 0)
  }

  /** The running ticket sum is the sum of the weights of the tier's members. */
  lemma {:induction false} TierTicketsIsSum(s: seq<Proc>, k: nat, t: int)
    requires k <= |s|
    ensures TierTicketsUpTo(s, k, t) == Sum(Weights(s, MembersUpTo(s, k, {t})))
  {
    if k > 0 {
      TierTicketsIsSum(s, k - 1, t);
      var m := MembersUpTo(s, k - 1, {t});
      if InTiers(s[k - 1], {t}) {
        assert MembersUpTo(s, k, {t}) == m + [k - 1];
        assert Weights(s, m + [k - 1]) == Weights(s, m) + [s[k - 1].numTickets];
        SumAppend(Weights(s, m), [s[k - 1].numTickets]);
        assert Sum([s[k - 1].numTickets]) == s[k - 1].numTickets;
      } else {
        assert MembersUpTo(s, k, {t}) == m;
      }
    }
  }

  /** `hightickets` (t = 1) or `lowtickets` (t = 0) after a snapshot. */
  function TierTickets(s: seq<Proc>, t: int): int {
    TierTicketsUpTo(s, |s|, t)
  }

  /**
    Every slot the snapshot can see holds at least one ticket (`allocproc`
    gives each process one, and nothing lowers it).
   */
  predicate Weighted(s: seq<Proc>) {
    forall i :: 0 <= i < |s| && InTiers(s[i], {0, 1}) ==> s[i].numTickets >= 1
  }

  lemma TierTicketsPositive(s: seq<Proc>, t: int)
    requires t == 0 || t == 1
    requires Weighted(s) && HasTier(s, t)
    ensures TierTickets(s, t) >= |Members(s, {t})| >= 1
  {
    var m := Members(s, {t});
    MembersNonEmpty(s, t);
    TierTicketsIsSum(s, |s|, t);
    var w := Weights(s, m);
    forall n | 0 <= n < |w| ensures w[n] >= 1 {
      assert InTiers(s[m[n]], {0, 1});
    }
    SumAtLeastCount(w);
  }

  // ---------------------------------------------------------------------
  // The snapshot arrays high[] and low[]

  /**
    The entry `high[n]` (t = 1) or `low[n]` (t = 0) when the slots `q` have
    been queued: one shared index runs over all queued slots, so a slot of
    the other tier leaves a gap (None) at its position.
   */
  function QueueEntry(s: seq<Proc>, q: seq<nat>, t: int, n: int): Option<nat> {
    if 0 <= n < |q| && q[n] < |s| && s[q[n]].whichqueue == t then Some(q[n]) else None
  }

  /** The whole of `high[]` (t = 1) or `low[]` (t = 0) when the slots `q` have been queued. */
  function QueueArray(s: seq<Proc>, q: seq<nat>, t: int): (a: seq<Option<nat>>)
    ensures |a| == NPROC
  {
    seq(NPROC, n requires 0 <= n < NPROC => QueueEntry(s, q, t, n))
  }

  /**
    Queuing slot k writes `Some(k)` at the shared index into the array of its
    own tier and leaves the other tier's array as it was.
   */
  lemma QueuePush(s: seq<Proc>, q: seq<nat>, k: nat, t: int)
    requires k < |s| && |q| < NPROC
    ensures s[k].whichqueue == t ==> QueueArray(s, q + [k], t) == QueueArray(s, q, t)[|q| := Some(k)]
    ensures s[k].whichqueue != t ==> QueueArray(s, q + [k], t) == QueueArray(s, q, t)
  {
    var q' := q + [k];
    assert forall n :: 0 <= n < |q| ==> q'[n] == q[n];
  }

  /** The entry `high[n]` (t = 1) or `low[n]` (t = 0) after the snapshot. */
  function SnapEntry(s: seq<Proc>, t: int, n: int): Option<nat> {
    QueueEntry(s, Members(s, {0, 1}), t, n)
  }

  /**
    When the other tier is empty, the queued slots are exactly tier t's, so
    `high[0..count)` (or `low[0..count)`) has no gaps.
   */
  lemma {:induction false} SnapshotContiguous(s: seq<Proc>, k: nat, t: int)
    requires t == 0 || t == 1
    requires k <= |s| && !HasTier(s, 1 - t)
    ensures MembersUpTo(s, k, {0, 1}) == MembersUpTo(s, k, {t})
  {
    if k > 0 {
      SnapshotContiguous(s, k - 1, t);
      assert !InTiers(s[k - 1], {1 - t});
    }
  }

  lemma SnapEntryContiguous(s: seq<Proc>, t: int)
    requires t == 0 || t == 1
    requires !HasTier(s, 1 - t)
    ensures forall n :: 0 <= n < |Members(s, {t})| ==> SnapEntry(s, t, n) == Some(Members(s, {t})[n])
  {
    SnapshotContiguous(s, |s|, t);
  }

  lemma HasTierStep(s: seq<Proc>, k: nat, t: int)
    requires k < |s|
    ensures HasTierUpTo(s, k + 1, t) <==> HasTierUpTo(s, k, t) || InTiers(s[k], {t})
  {
    if HasTierUpTo(s, k + 1, t) && !InTiers(s[k], {t}) {
      var i :| 0 <= i < k + 1 && i < |s| && InTiers(s[i], {t});
      assert i < k;
    }
  }

  /** A slot when the scheduler dispatches it from tier t. */
  function Dispatched(p: Proc, t: int): Proc {
    p.(state := Running,
       highticks := if t == 1 then p.highticks + 1 else p.highticks,
       lowticks := if t == 1 then p.lowticks else p.lowticks + 1,
       current := 1)
  }

  /**
    A slot when its run ends, as the scheduler writes it: `current` is
    cleared, and the demotion store goes through the scan cursor, which points
    past the table, so the slot keeps its tier.
   */
  function Returned(p: Proc): Proc {
    p.(current := 0)
  }

  /**
    A slot when its run ends, with the demotion the scheduler's comment asks
    for: a process that ran from HIGH and is still RUNNABLE moves to LOW.
   */
  function Demoted(p: Proc, fromHigh: bool): Proc {
    p.(current := 0, whichqueue := if fromHigh && p.state == Runnable then 0 else p.whichqueue)
  }

  /**
    The end of a run as written never changes a tier, so a RUNNABLE HIGH
    process that used its turn stays in HIGH, unlike the intended demotion.
   */
  lemma ReturnedNeverDemotes(p: Proc)
    requires p.state == Runnable && p.whichqueue == 1
    ensures Returned(p).whichqueue == 1 && Returned(p).current == 0
    ensures Demoted(p, true).whichqueue == 0 && Demoted(p, true).current == 0
    ensures Returned(p) != Demoted(p, true)
  {
  }

  /**
    Dispatching marks the slot RUNNING and on a CPU and adds exactly one run
    to the counter of the tier it was taken from.
   */
  lemma DispatchedCounts(p: Proc, t: int)
    requires InTiers(p, {t}) && (t == 0 || t == 1)
    ensures Dispatched(p, t).state == Running && Dispatched(p, t).current == 1
    ensures Dispatched(p, t).highticks + Dispatched(p, t).lowticks == p.highticks + p.lowticks + 1
    ensures t == 1 ==> Dispatched(p, t).highticks == p.highticks + 1
    ensures t == 0 ==> Dispatched(p, t).lowticks == p.lowticks + 1
    ensures Dispatched(p, t).whichqueue == p.whichqueue && Dispatched(p, t).pid == p.pid
  {
  }

  // ---------------------------------------------------------------------
  // rand1

  /** One step of `rand1`'s generator: `a = (a * 125) % 2796203`. */
  function LcgNext(a: int): int {
    (a * RAND_MUL) % RAND_MOD
  }

  /**
    The generator's state stays in [0, 2796203), and the product `a * 125`
    never exceeds a 32-bit `long`, so C's arithmetic agrees with this one.
   */
  lemma LcgStaysInRange(a: int)
    requires 0 <= a < RAND_MOD
    ensures 0 <= a * RAND_MUL <= INT_MAX
    ensures 0 <= LcgNext(a) < RAND_MOD
  {
  }

  // ---------------------------------------------------------------------
  // The prefix-sum walk

  /**
    Where the walk `pick = w[0]; j = 0; while (pick < r) { j++; pick += w[j]; }`
    stops.
   */
  function LotteryIndex(w: seq<int>, r: int): (j: nat)
    ensures |w| > 0 ==> j < |w|
  {
    if |w| <= 1 || w[0] >= r then 0 else 1 + LotteryIndex(w[1..], r - w[0])
  }

  /** The inclusive prefix sum w[0] + ... + w[k]. */
  function PrefixSum(w: seq<int>, k: int): int
    requires 0 <= k < |w|
  {
    Sum(w[..k + 1])
  }

  lemma PrefixTail(w: seq<int>, k: nat)
    requires k + 1 < |w|
    ensures PrefixSum(w, k + 1) == w[0] + PrefixSum(w[1..], k)
  {
    assert w[..k + 2][1..] == w[1..][..k + 1];
  }

  lemma PrefixFirst(w: seq<int>)
    requires |w| >= 1
    ensures PrefixSum(w, 0) == w[0]
  {
    assert w[..1][1..] == [];
    assert Sum(w[..1]) == w[..1][0] + Sum(w[..1][1..]);
  }

  /** Each step of the walk adds the next entry to the running sum. */
  lemma PrefixStep(w: seq<int>, k: nat)
    requires k + 1 < |w|
    ensures PrefixSum(w, k + 1) == PrefixSum(w, k) + w[k + 1]
  {
    assert w[..k + 2] == w[..k + 1] + [w[k + 1]];
    SumAppend(w[..k + 1], [w[k + 1]]);
    assert Sum([w[k + 1]]) == w[k + 1];
  }

  /** The running sum at the last entry is the total. */
  lemma PrefixLast(w: seq<int>)
    requires |w| >= 1
    ensures PrefixSum(w, |w| - 1) == Sum(w)
  {
    assert w[..|w|] == w;
  }

  /**
    When the draw is at most the total, the walk stops inside the list, at the
    first entry whose inclusive prefix sum reaches the draw.
   */
  lemma {:induction false} LotteryIndexFirstReach(w: seq<int>, r: int)
    requires |w| >= 1 && r <= Sum(w)
    ensures var j := LotteryIndex(w, r);
      j < |w| && PrefixSum(w, j) >= r && forall k :: 0 <= k < j ==> PrefixSum(w, k) < r
  {
    PrefixFirst(w);
    if |w| == 1 {
      assert w[..1] == w;
    } else if w[0] < r {
      assert Sum(w) == w[0] + Sum(w[1..]);
      LotteryIndexFirstReach(w[1..], r - w[0]);
      var j := LotteryIndex(w, r);
      PrefixTail(w, j - 1);
      forall k | 0 <= k < j ensures PrefixSum(w, k) < r {
        if k > 0 { PrefixTail(w, k - 1); }
      }
    }
  }

  /** The first entry whose inclusive prefix sum reaches r is where the walk stops. */
  lemma {:induction false} LotteryIndexUnique(w: seq<int>, r: int, j: nat)
    requires j < |w| && PrefixSum(w, j) >= r
    requires forall k :: 0 <= k < j ==> PrefixSum(w, k) < r
    ensures LotteryIndex(w, r) == j
  {
    PrefixFirst(w);
    if j > 0 {
      assert PrefixSum(w, 0) < r;
      PrefixTail(w, j - 1);
      forall k | 0 <= k < j - 1 ensures PrefixSum(w[1..], k) < r - w[0] {
        PrefixTail(w, k);
      }
      LotteryIndexUnique(w[1..], r - w[0], j - 1);
    }
  }

  lemma {:induction false} PrefixMonotone(w: seq<int>, a: nat, b: nat)
    requires forall n :: 0 <= n < |w| ==> w[n] >= 1
    requires a <= b <= |w|
    ensures Sum(w[..a]) <= Sum(w[..b])
    ensures a < b ==> Sum(w[..a]) < Sum(w[..b])
  {
    if a < b {
      PrefixMonotone(w, a, b - 1);
      assert w[..b] == w[..b - 1] + [w[b - 1]];
      SumAppend(w[..b - 1], [w[b - 1]]);
      assert Sum([w[b - 1]]) == w[b - 1];
    }
  }

  /**
    The share each entry gets of the draws 0 <= r < Sum(w): entry 0 wins
    r in [0, w[0]], entry k > 0 wins r in (Sum(w[..k]), Sum(w[..k+1])]. So the
    first entry wins one draw more than its weight and the last one fewer.
   */
  lemma LotteryIndexShare(w: seq<int>, r: int, k: nat)
    requires forall n :: 0 <= n < |w| ==> w[n] >= 1
    requires 0 <= r < Sum(w) && k < |w|
    ensures LotteryIndex(w, r) == k <==>
      if k == 0 then r <= w[0] else Sum(w[..k]) < r <= Sum(w[..k + 1])
  {
    PrefixFirst(w);
    LotteryIndexFirstReach(w, r);
    var j := LotteryIndex(w, r);
    if k > 0 && Sum(w[..k]) < r <= Sum(w[..k + 1]) {
      forall i | 0 <= i < k ensures PrefixSum(w, i) < r {
        PrefixMonotone(w, i + 1, k);
      }
      LotteryIndexUnique(w, r, k);
    }
    if j > 0 {
      assert PrefixSum(w, j - 1) < r;
    }
    if k == 0 && r <= w[0] {
      LotteryIndexUnique(w, r, 0);
    }
  }

  /**
    With every weight 1 (what `allocproc` gives and `settickets` never
    changes), the walk returns r - 1 for r >= 1, so with two or more entries
    the last one is never chosen.
   */
  lemma {:induction false} LotteryIndexUnitWeights(w: seq<int>, r: int)
    requires forall n :: 0 <= n < |w| ==> w[n] == 1
    requires 0 <= r < |w|
    ensures LotteryIndex(w, r) == if r == 0 then 0 else r - 1
    ensures |w| >= 2 ==> LotteryIndex(w, r) != |w| - 1
  {
    if r > 1 {
      LotteryIndexUnitWeights(w[1..], r - 1);
    }
  }

  /**
    The walk as a fair lottery would run it (`while (pick <= r)`): the first
    entry whose inclusive prefix sum exceeds the draw.
   */
  function FairIndex(w: seq<int>, r: int): (j: nat)
    ensures |w| > 0 ==> j < |w|
  {
    if |w| <= 1 || w[0] > r then 0 else 1 + FairIndex(w[1..], r - w[0])
  }

  /** Entry k of the fair walk wins exactly the w[k] draws in [Sum(w[..k]), Sum(w[..k+1])). */
  lemma {:induction false} FairIndexShare(w: seq<int>, r: int, k: nat)
    requires forall n :: 0 <= n < |w| ==> w[n] >= 1
    requires 0 <= r < Sum(w) && k < |w|
    ensures FairIndex(w, r) == k <==> Sum(w[..k]) <= r < Sum(w[..k + 1])
  {
    assert Sum(w[..0]) == 0;
    assert Sum(w[..1]) == w[0];
    if |w| == 1 {
      assert w[..1] == w;
    } else if w[0] <= r {
      assert Sum(w) == w[0] + Sum(w[1..]);
      if k > 0 {
        FairIndexShare(w[1..], r - w[0], k - 1);
        PrefixTail(w, k - 1);
        if k > 1 {
          PrefixTail(w, k - 2);
        } else {
          assert Sum(w[1..][..0]) == 0;
        }
      }
    } else {
      if k > 0 {
        PrefixMonotone(w, 1, k);
      }
    }
  }

  // ---------------------------------------------------------------------
  // One round

  /** The tier choice: HIGH whenever it has a member, LOW only when HIGH is empty. */
  function ChooseTier(highNonEmpty: bool, lowNonEmpty: bool): (r: Option<int>)
    ensures r.None? <==> !highNonEmpty && !lowNonEmpty
    ensures r == Some(1) <==> highNonEmpty
    ensures r == Some(0) <==> !highNonEmpty && lowNonEmpty
  {
    if !highNonEmpty && !lowNonEmpty then None
    else if highNonEmpty then Some(1)
    else Some(0)
  }

  /**
    The slot a scheduler round dispatches from table `s` when `rand1`'s state
    is `seed`: None when neither tier has a RUNNABLE slot; otherwise a
    RUNNABLE slot of HIGH whenever HIGH has one, else of LOW.
   */
  function RoundPick(s: seq<Proc>, seed: int): (r: Option<nat>)
    requires Weighted(s)
    ensures r.None? <==> !HasTier(s, 1) && !HasTier(s, 0)
    ensures r.Some? ==> r.value < |s| && s[r.value].state == Runnable
    ensures r.Some? && HasTier(s, 1) ==> InTiers(s[r.value], {1})
    ensures r.Some? && !HasTier(s, 1) ==> InTiers(s[r.value], {0})
  {
    match ChooseTier(HasTier(s, 1), HasTier(s, 0))
    case None => None
    case Some(t) =>
      var m := Members(s, {t});
      TierTicketsPositive(s, t);
      Some(m[LotteryIndex(Weights(s, m), LcgNext(seed) % TierTickets(s, t))])
  }

  /**
    With one ticket per slot, a round never dispatches the last RUNNABLE slot
    of the tier it uses while that tier has two or more.
   */
  lemma RoundSkipsLastMember(s: seq<Proc>, seed: int, t: int)
    requires forall i :: 0 <= i < |s| && s[i].state != Unused ==> s[i].numTickets == 1
    requires t == 0 || t == 1
    requires t == 1 || !HasTier(s, 1)
    requires |Members(s, {t})| >= 2
    ensures RoundPick(s, seed) != Some(Members(s, {t})[|Members(s, {t})| - 1])
  {
    var m := Members(s, {t});
    var w := Weights(s, m);
    MembersNonEmpty(s, t);
    forall n | 0 <= n < |w| ensures w[n] == 1 {
      assert InTiers(s[m[n]], {t});
    }
    assert TierTickets(s, t) == |w| by {
      TierTicketsIsSum(s, |s|, t);
      SumOfOnes(w);
    }
    assert ChooseTier(HasTier(s, 1), HasTier(s, 0)) == Some(t);
    var r := LcgNext(seed) % |w|;
    LotteryIndexUnitWeights(w, r);
    var j := LotteryIndex(w, r);
    assert RoundPick(s, seed) == Some(m[j]);
    MembersComplete(s, |s|, {t});
    assert m[j] < m[|m| - 1];
  }

  /**
    The round as a fair lottery would run it: the same tier choice and the
    same draw, turned into a slot by the fair walk.
   */
  function FairRoundPick(s: seq<Proc>, seed: int): (r: Option<nat>)
    requires Weighted(s)
    ensures r.None? <==> !HasTier(s, 1) && !HasTier(s, 0)
    ensures r.Some? ==> r.value < |s| && s[r.value].state == Runnable
    ensures r.Some? && HasTier(s, 1) ==> InTiers(s[r.value], {1})
    ensures r.Some? && !HasTier(s, 1) ==> InTiers(s[r.value], {0})
  {
    match ChooseTier(HasTier(s, 1), HasTier(s, 0))
    case None => None
    case Some(t) =>
      var m := Members(s, {t});
      TierTicketsPositive(s, t);
      Some(m[FairIndex(Weights(s, m), LcgNext(seed) % TierTickets(s, t))])
  }

  /**
    In the fair round, the j-th RUNNABLE slot of the chosen tier is dispatched
    exactly when the draw falls among the tickets of that slot: each slot wins
    as many of the TierTickets draws as it holds tickets, the last one included.
   */
  lemma FairRoundShare(s: seq<Proc>, seed: int, t: int, j: nat)
    requires Weighted(s)
    requires t == 0 || t == 1
    requires t == 1 || !HasTier(s, 1)
    requires j < |Members(s, {t})|
    ensures TierTickets(s, t) >= 1
    ensures TierTickets(s, t) >= 1 && var w := Weights(s, Members(s, {t}));
      var r := LcgNext(seed) % TierTickets(s, t);
      FairRoundPick(s, seed) == Some(Members(s, {t})[j]) <==> Sum(w[..j]) <= r < Sum(w[..j + 1])
  {
    var m := Members(s, {t});
    var w := Weights(s, m);
    MembersNonEmpty(s, t);
    TierTicketsPositive(s, t);
    TierTicketsIsSum(s, |s|, t);
    assert ChooseTier(HasTier(s, 1), HasTier(s, 0)) == Some(t);
    forall n | 0 <= n < |w| ensures w[n] >= 1 {
      assert InTiers(s[m[n]], {0, 1});
    }
    var r := LcgNext(seed) % TierTickets(s, t);
    FairIndexShare(w, r, j);
    var f := FairIndex(w, r);
    assert FairRoundPick(s, seed) == Some(m[f]);
    MembersComplete(s, |s|, {t});
  }

  lemma {:induction false} SumOfOnes(w: seq<int>)
    requires forall n :: 0 <= n < |w| ==> w[n] == 1
    ensures Sum(w) == |w|
  {
    if w != [] {
      SumOfOnes(w[1..]);
    }
  }
}
