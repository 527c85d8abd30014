/**
 What an optimal look-ahead plan is, independently of how the planner computes it.

 A plan for blocks `bs` fixes the squared entry speed of every block. The first one, `t`, is given by the
 motion under way. Every other one is limited by its junction, by braking to a full stop at the end of
 the queue, and by the acceleration available before it.
 */
module PlanTheory {
  import opened Blocks

  /** Greatest squared entry speed of block `i` from which the queue can still come to a full stop. */
  function Braking(bs: seq<Block>, i: nat): real
    requires i <= |bs|
    decreases |bs| - i
  {
    if i == |bs| then 0.0 else Min(bs[i].maxEntrySqr, Braking(bs, i + 1) + Reach(bs[i]))
  }

  /** The plan: the braking limit, dialled down where it cannot be reached by accelerating. */
  function Plan(bs: seq<Block>, t: real, i: nat): real
    requires i < |bs|
  {
    if i == 0 then t else Min(Braking(bs, i), Plan(bs, t, i - 1) + Reach(bs[i - 1]))
  }

  /** Entry speed after block `i`; the queue ends in a stop. */
  function After(e: seq<real>, i: nat): real {
    if i + 1 < |e| then e[i + 1] else 0.0
  }

  /** A sequence of squared entry speeds the machine can follow from `t`. */
  ghost predicate Feasible(bs: seq<Block>, t: real, e: seq<real>) {
    && 0 < |bs| == |e|
    && e[0] == t
    && (forall i :: 0 <= i < |e| ==> 0.0 <= e[i])
    && (forall i :: 1 <= i < |e| ==> e[i] <= bs[i].maxEntrySqr)
    && (forall i :: 0 <= i < |e| ==> e[i] <= After(e, i) + Reach(bs[i]))
    && (forall i :: 0 <= i < |e| - 1 ==> e[i + 1] <= e[i] + Reach(bs[i]))
  }

  /** The plan as a sequence. */
  function PlanSeq(bs: seq<Block>, t: real): (e: seq<real>)
    ensures |e| == |bs|
  {
    seq(|bs|, i requires 0 <= i < |bs| => Plan(bs, t, i))
  }

  /** The first block can brake in time: without this no plan exists at all. */
  predicate CanStop(bs: seq<Block>, t: real) {
    0 < |bs| && 0.0 <= t <= Braking(bs, 1) + Reach(bs[0])
  }

  lemma {:induction false} BrakingNonNegative(bs: seq<Block>, i: nat)
    requires AllPlannable(bs) && i <= |bs|
    ensures 0.0 <= Braking(bs, i)
    decreases |bs| - i
  {
    if i < |bs| {
      BrakingNonNegative(bs, i + 1);
    }
  }

  lemma {:induction false} PlanNonNegative(bs: seq<Block>, t: real, i: nat)
    requires AllPlannable(bs) && 0.0 <= t && i < |bs|
    ensures 0.0 <= Plan(bs, t, i)
  {
    BrakingNonNegative(bs, i);
    if 0 < i {
      PlanNonNegative(bs, t, i - 1);
    }
  }

  /** Every feasible plan stays below the braking limit. */
  lemma {:induction false} FeasibleBrakes(bs: seq<Block>, t: real, e: seq<real>, i: nat)
    requires Feasible(bs, t, e) && 1 <= i < |bs|
    ensures e[i] <= Braking(bs, i)
    decreases |bs| - i
  {
    if i + 1 < |bs| {
      FeasibleBrakes(bs, t, e, i + 1);
    }
    assert e[i] <= After(e, i) + Reach(bs[i]);
  }

  lemma {:induction false} FeasibleBelowPlan(bs: seq<Block>, t: real, e: seq<real>, i: nat)
    requires Feasible(bs, t, e) && i < |bs|
    ensures e[i] <= Plan(bs, t, i)
  {
    if 0 < i {
      FeasibleBelowPlan(bs, t, e, i - 1);
      FeasibleBrakes(bs, t, e, i);
      assert e[i - 1 + 1] <= e[i - 1] + Reach(bs[i - 1]);
    }
  }

  lemma PlanBrakes(bs: seq<Block>, t: real, i: nat)
    requires AllPlannable(bs) && CanStop(bs, t) && i < |bs|
    ensures Plan(bs, t, i) <= (if i + 1 < |bs| then Plan(bs, t, i + 1) else 0.0) + Reach(bs[i])
  {
    assert Plan(bs, t, i) <= Braking(bs, i + 1) + Reach(bs[i]);
  }

  lemma PlanIsFeasible(bs: seq<Block>, t: real)
    requires AllPlannable(bs) && CanStop(bs, t)
    ensures Feasible(bs, t, PlanSeq(bs, t))
  {
    hide Plan, Braking, After;
    var e := PlanSeq(bs, t);
    PlanStarts(bs, t);
    forall i | 0 <= i < |e|
      ensures 0.0 <= e[i]
      ensures e[i] <= After(e, i) + Reach(bs[i])
    {
      PlanNonNegative(bs, t, i);
      PlanBrakes(bs, t, i);
      AfterPlan(bs, t, i);
    }
    forall i | 1 <= i < |e|
      ensures e[i] <= bs[i].maxEntrySqr
    {
      PlanWithin(bs, t, i);
    }
    forall i | 0 <= i < |e| - 1
      ensures e[i + 1] <= e[i] + Reach(bs[i])
    {
      PlanWithin(bs, t, i + 1);
    }
  }

  lemma AfterPlan(bs: seq<Block>, t: real, i: nat)
    requires i < |bs|
    ensures After(PlanSeq(bs, t), i) == if i + 1 < |bs| then Plan(bs, t, i + 1) else 0.0
  {
  }

  lemma PlanStarts(bs: seq<Block>, t: real)
    requires CanStop(bs, t)
    ensures 0 < |bs| && Plan(bs, t, 0) == t && 0.0 <= t
  {
  }

  lemma PlanWithin(bs: seq<Block>, t: real, i: nat)
    requires 1 <= i < |bs|
    ensures Plan(bs, t, i) <= bs[i].maxEntrySqr && Plan(bs, t, i) <= Plan(bs, t, i - 1) + Reach(bs[i - 1])
  {
  }

  /**
   The plan is feasible and pointwise greatest among the feasible ones; and a feasible plan exists
   exactly when the first block can brake in time.
   */
  lemma PlanIsGreatest(bs: seq<Block>, t: real)
    requires AllPlannable(bs) && 0 < |bs|
    ensures CanStop(bs, t) <==> exists e: seq<real> :: Feasible(bs, t, e)
    ensures CanStop(bs, t) ==> Feasible(bs, t, PlanSeq(bs, t))
    ensures forall e: seq<real>, i :: Feasible(bs, t, e) && 0 <= i < |bs| ==> e[i] <= PlanSeq(bs, t)[i]
  {
    if CanStop(bs, t) {
      PlanIsFeasible(bs, t);
    }
    forall e: seq<real> | Feasible(bs, t, e)
      ensures CanStop(bs, t)
      ensures forall i :: 0 <= i < |bs| ==> e[i] <= PlanSeq(bs, t)[i]
    {
      assert e[0] <= After(e, 0) + Reach(bs[0]);
      if 1 < |bs| {
        FeasibleBrakes(bs, t, e, 1);
      }
      forall i | 0 <= i < |bs|
        ensures e[i] <= PlanSeq(bs, t)[i]
      {
        FeasibleBelowPlan(bs, t, e, i);
      }
    }
  }

  // ---------------------------------------------------------------------------------------------
  // Appending blocks

  lemma {:induction false} AppendingRaisesBraking(bs: seq<Block>, more: seq<Block>, i: nat)
    requires AllPlannable(bs) && AllPlannable(more) && i <= |bs|
    ensures Braking(bs, i) <= Braking(bs + more, i)
    decreases |bs| - i
  {
    if i == |bs| {
      BrakingNonNegative(bs + more, i);
    } else {
      AppendingRaisesBraking(bs, more, i + 1);
    }
  }

  /** Appending never lowers a planned entry speed. */
  lemma {:induction false} AppendingRaisesPlan(bs: seq<Block>, more: seq<Block>, t: real, i: nat)
    requires AllPlannable(bs) && AllPlannable(more) && i < |bs|
    ensures Plan(bs, t, i) <= Plan(bs + more, t, i)
  {
    if 0 < i {
      AppendingRaisesPlan(bs, more, t, i - 1);
      AppendingRaisesBraking(bs, more, i);
    }
  }

  /**
   Block `i` is pinned: its speed is at the junction limit, or it is reached at full acceleration from a
   pinned block. This is the invariant behind the planner's cached pointer.
   */
  predicate Pinned(bs: seq<Block>, t: real, i: nat)
    requires i < |bs|
  {
    || i == 0
    || Plan(bs, t, i) == bs[i].maxEntrySqr
    || (Plan(bs, t, i) == Plan(bs, t, i - 1) + Reach(bs[i - 1]) && Pinned(bs, t, i - 1))
  }

  lemma {:induction false} BrakingAtMax(bs: seq<Block>, t: real, i: nat)
    requires 1 <= i < |bs| && Plan(bs, t, i) == bs[i].maxEntrySqr
    ensures Braking(bs, i) == bs[i].maxEntrySqr
  {
  }

  /** Below a block whose braking limit is at its maximum, later blocks do not matter. */
  lemma {:induction false} BrakingSettled(bs: seq<Block>, more: seq<Block>, j: nat, i: nat)
    requires AllPlannable(bs) && AllPlannable(more) && j <= i < |bs|
    requires Braking(bs, i) == bs[i].maxEntrySqr
    ensures Braking(bs + more, j) == Braking(bs, j)
    decreases i - j
  {
    if j == i {
      AppendingRaisesBraking(bs, more, i);
    } else {
      BrakingSettled(bs, more, j + 1, i);
    }
  }

  lemma {:induction false} PlanSettled(bs: seq<Block>, more: seq<Block>, t: real, j: nat, i: nat)
    requires AllPlannable(bs) && AllPlannable(more) && j <= i < |bs|
    requires Braking(bs, i) == bs[i].maxEntrySqr
    ensures Plan(bs + more, t, j) == Plan(bs, t, j)
  {
    if 0 < j {
      PlanSettled(bs, more, t, j - 1, i);
      BrakingSettled(bs, more, j, i);
    }
  }

  /** Nothing appended later changes a speed at or before a pinned block, and the block stays pinned. */
  lemma {:induction false} PinnedIsFinal(bs: seq<Block>, t: real, i: nat, more: seq<Block>)
    requires AllPlannable(bs) && AllPlannable(more) && i < |bs|
    requires Pinned(bs, t, i)
    ensures forall j :: 0 <= j <= i ==> Plan(bs + more, t, j) == Plan(bs, t, j)
    ensures Pinned(bs + more, t, i)
  {
    if i == 0 {
    } else if Plan(bs, t, i) == bs[i].maxEntrySqr {
      BrakingAtMax(bs, t, i);
      forall j | 0 <= j <= i
        ensures Plan(bs + more, t, j) == Plan(bs, t, j)
      {
        PlanSettled(bs, more, t, j, i);
      }
    } else {
      PinnedIsFinal(bs, t, i - 1, more);
      AppendingRaisesBraking(bs, more, i);
    }
  }

  /** A speed below the braking limit can only come from full acceleration out of a pinned block. */
  lemma {:induction false} AcceleratingIsPinned(bs: seq<Block>, t: real, i: nat)
    requires AllPlannable(bs) && i < |bs|
    requires 0 < i ==> Plan(bs, t, i) < Braking(bs, i)
    ensures Pinned(bs, t, i)
  {
    if 0 < i {
      if i == 1 || Plan(bs, t, i - 1) < Braking(bs, i - 1) {
        AcceleratingIsPinned(bs, t, i - 1);
      } else {
        assert Plan(bs, t, i - 1) == Braking(bs, i - 1);
        assert Plan(bs, t, i - 1) + Reach(bs[i - 1]) < Braking(bs, i);
      }
    }
  }

  lemma {:induction false} UnpinnedBraking(bs: seq<Block>, t: real, i: nat, more: Block, j: nat)
    requires AllPlannable(bs) && Plannable(more) && 0.0 < more.maxEntrySqr && i <= j < |bs|
    requires forall j :: i <= j < |bs| ==> !Pinned(bs, t, j)
    ensures Plan(bs, t, j) == Braking(bs, j) < Braking(bs + [more], j)
    decreases |bs| - j
  {
    assert !Pinned(bs, t, j);
    if Plan(bs, t, j) < Braking(bs, j) {
      AcceleratingIsPinned(bs, t, j);
    }
    if j + 1 < |bs| {
      UnpinnedBraking(bs, t, i, more, j + 1);
    } else {
      assert Braking(bs + [more], j + 1) == Min(more.maxEntrySqr, 0.0 + Reach(more));
    }
  }

  /**
   The converse of PinnedIsFinal: where no block from `i` on is pinned, appending any block that need not
   be entered at rest raises the speed of block `i`.
   */
  lemma {:induction false} UnpinnedCanGain(bs: seq<Block>, t: real, i: nat, more: Block)
    requires AllPlannable(bs) && Plannable(more) && 0.0 < more.maxEntrySqr && i < |bs|
    requires forall j :: i <= j < |bs| ==> !Pinned(bs, t, j)
    ensures Plan(bs, t, i) < Plan(bs + [more], t, i)
  {
    assert !Pinned(bs, t, i);
    UnpinnedBraking(bs, t, i, more, i);
    AppendingRaisesPlan(bs, [more], t, i - 1);
    if Plan(bs, t, i) == Plan(bs, t, i - 1) + Reach(bs[i - 1]) {
      assert !Pinned(bs, t, i - 1);
      UnpinnedCanGain(bs, t, i - 1, more);
    }
  }

  // ---------------------------------------------------------------------------------------------
  // Dropping the first block

  lemma {:induction false} BrakingShift(bs: seq<Block>, m: nat, i: nat)
    requires m + i <= |bs|
    ensures Braking(bs[m..], i) == Braking(bs, m + i)
    decreases |bs| - i
  {
    if m + i < |bs| {
      BrakingShift(bs, m, i + 1);
    }
  }

  /** Restarting the plan at block `m` from its own planned speed changes nothing after it. */
  lemma {:induction false} PlanShift(bs: seq<Block>, t: real, m: nat, i: nat)
    requires m + i < |bs|
    ensures Plan(bs[m..], Plan(bs, t, m), i) == Plan(bs, t, m + i)
  {
    if 0 < i {
      PlanShift(bs, t, m, i - 1);
      BrakingShift(bs, m, i);
    }
  }

  lemma {:induction false} PinnedShift(bs: seq<Block>, t: real, m: nat, i: nat)
    requires m + i < |bs| && Pinned(bs, t, m + i)
    ensures Pinned(bs[m..], Plan(bs, t, m), i)
  {
    hide Plan;
    if 0 < i {
      PlanShift(bs, t, m, i);
      PlanShift(bs, t, m, i - 1);
      if Plan(bs, t, m + i) != bs[m + i].maxEntrySqr {
        PinnedShift(bs, t, m, i - 1);
      }
    }
  }

  /** The other way round: pinned from a pinned block on is pinned from the start. */
  lemma {:induction false} PinnedUnshift(bs: seq<Block>, t: real, m: nat, i: nat)
    requires m + i < |bs| && Pinned(bs, t, m) && Pinned(bs[m..], Plan(bs, t, m), i)
    ensures Pinned(bs, t, m + i)
  {
    hide Plan;
    if 0 < i {
      PlanShift(bs, t, m, i);
      PlanShift(bs, t, m, i - 1);
      if Plan(bs, t, m + i) != bs[m + i].maxEntrySqr {
        PinnedUnshift(bs, t, m, i - 1);
      }
    }
  }

  // ---------------------------------------------------------------------------------------------
  // Executing the first block

  /**
   The first block has been executed in part: it is now entered at `t'` with less distance left. It can
   still reach the speed planned after it and has not gained more than its acceleration allows.
   */
  predicate Advanced(bs: seq<Block>, t: real, bs': seq<Block>, t': real) {
    && 0 < |bs| == |bs'|
    && bs'[1..] == bs[1..]
    && t' + Reach(bs'[0]) <= t + Reach(bs[0])
    && (1 < |bs| ==> Plan(bs, t, 1) <= t' + Reach(bs'[0]))
  }

  lemma {:induction false} AdvancedBraking(bs: seq<Block>, bs': seq<Block>, i: nat)
    requires 0 < |bs| == |bs'| && bs'[1..] == bs[1..] && 1 <= i <= |bs|
    ensures Braking(bs', i) == Braking(bs, i)
    decreases |bs| - i
  {
    if i < |bs| {
      assert bs'[1..][i - 1] == bs[1..][i - 1];
      AdvancedBraking(bs, bs', i + 1);
    }
  }

  /** Executing the first block leaves every later speed of the plan as it was. */
  lemma {:induction false} AdvancingKeepsPlan(bs: seq<Block>, t: real, bs': seq<Block>, t': real, i: nat)
    requires Advanced(bs, t, bs', t') && 1 <= i < |bs|
    ensures Plan(bs', t', i) == Plan(bs, t, i)
  {
    AdvancedBraking(bs, bs', i);
    if 1 < i {
      assert bs'[1..][i - 2] == bs[1..][i - 2];
      AdvancingKeepsPlan(bs, t, bs', t', i - 1);
    }
  }

  lemma {:induction false} AdvancingKeepsPinned(bs: seq<Block>, t: real, bs': seq<Block>, t': real, i: nat)
    requires Advanced(bs, t, bs', t') && i < |bs| && Pinned(bs, t, i)
    ensures Pinned(bs', t', i)
  {
    if 0 < i {
      AdvancingKeepsPlan(bs, t, bs', t', i);
      assert bs'[1..][i - 1] == bs[1..][i - 1];
      if Plan(bs, t, i) != bs[i].maxEntrySqr {
        if 1 < i {
          assert bs'[1..][i - 2] == bs[1..][i - 2];
          AdvancingKeepsPlan(bs, t, bs', t', i - 1);
          AdvancingKeepsPinned(bs, t, bs', t', i - 1);
        }
      }
    }
  }
}
