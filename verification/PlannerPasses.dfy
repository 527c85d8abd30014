/** The two passes of a replan as functions of the window they walk, and what they compute. */
module PlannerPasses {
  import opened Blocks
  import opened PlanTheory

  /**
   What the reverse pass leaves in block `i` of the window it walks. A block already at its maximum is
   left alone; the others are recomputed.
   */
  function ReversePass(w: seq<Block>, i: nat): real
    requires i < |w|
    decreases |w| - i
  {
    if i == |w| - 1 then Min(w[i].maxEntrySqr, Reach(w[i]))
    else if w[i].entrySqr == w[i].maxEntrySqr then w[i].maxEntrySqr
    else Min(w[i].maxEntrySqr, ReversePass(w, i + 1) + Reach(w[i]))
  }

  /** What the forward pass then leaves; the first block of the window is entered as it stands. */
  function ForwardPass(w: seq<Block>, i: nat): real
    requires i < |w|
  {
    if i == 0 then w[0].entrySqr else Min(ReversePass(w, i), ForwardPass(w, i - 1) + Reach(w[i - 1]))
  }

  /** The window after the reverse pass. */
  function Reversed(w: seq<Block>): (s: seq<Block>)
    ensures |s| == |w|
  {
    seq(|w|, j requires 0 <= j < |w| => w[j].(entrySqr := if j == 0 then w[0].entrySqr else ReversePass(w, j)))
  }

  /** The window after both passes. */
  function Replanned(w: seq<Block>): (s: seq<Block>)
    ensures |s| == |w|
  {
    seq(|w|, j requires 0 <= j < |w| => w[j].(entrySqr := ForwardPass(w, j)))
  }

  /** The reverse pass on one block. A block already at its maximum is left alone. */
  function Braked(b: Block, next: Block): Block {
    b.(entrySqr := if b.entrySqr == b.maxEntrySqr then b.maxEntrySqr
                   else Min(b.maxEntrySqr, next.entrySqr + Reach(b)))
  }

  /** The forward pass on one block. */
  function Dialled(previous: Block, b: Block): Block {
    b.(entrySqr := Min(b.entrySqr, previous.entrySqr + Reach(previous)))
  }

  /** The forward pass moves the cached index to a block it dials down or finds at its maximum. */
  predicate Settles(before: Block, after: Block) {
    after.entrySqr < before.entrySqr || after.entrySqr == after.maxEntrySqr
  }

  /** `after` is `before` with its blocks n-1 down to 1 back-planned from a stop; block 0 is free. */
  ghost predicate ReverseOf(before: seq<Block>, after: seq<Block>, n: nat) {
    && 1 < n <= |before| == |after|
    && after[n - 1] == before[n - 1].(entrySqr := Min(before[n - 1].maxEntrySqr, Reach(before[n - 1])))
    && (forall j {:trigger before[j]} :: 0 < j < n - 1 ==> after[j] == Braked(before[j], after[j + 1]))
    && (forall j :: n <= j < |after| ==> after[j] == before[j])
  }

  /** `after` is `before` with its blocks 1 to n-1 dialled down to what acceleration allows. */
  ghost predicate ForwardOf(before: seq<Block>, after: seq<Block>, n: nat) {
    && 0 < n <= |before| == |after|
    && (forall j :: 0 <= j < n ==> 0.0 <= Reach(after[j]))
    && after[0] == before[0]
    && (forall j {:trigger before[j]} :: 0 < j < n ==> after[j] == Dialled(after[j - 1], before[j]))
    && (forall j :: n <= j < |after| ==> after[j] == before[j])
  }

  /** The index the cached pointer ends at: the last block the forward pass settles, or the first. */
  function LastSettled(before: seq<Block>, after: seq<Block>, n: nat): (q: nat)
    requires n < |before| == |after|
    ensures q <= n
    ensures q == 0 || Settles(before[q], after[q])
    ensures forall j :: q < j <= n ==> !Settles(before[j], after[j])
  {
    if n == 0 || Settles(before[n], after[n]) then n else LastSettled(before, after, n - 1)
  }

  /** Where replanning window `w` leaves the cached index, counted from the start of the window. */
  function Pointer(w: seq<Block>): (q: nat)
    requires 0 < |w|
    ensures q < |w|
  {
    LastSettled(Reversed(w), Replanned(w), |w| - 1)
  }

  lemma ReversedIsReverse(w: seq<Block>, rest: seq<Block>)
    requires 1 < |w|
    ensures ReverseOf(w + rest, Reversed(w) + rest, |w|)
  {
  }

  lemma ReplannedIsForward(w: seq<Block>, rest: seq<Block>)
    requires 1 < |w| && forall j :: 0 <= j < |w| ==> 0.0 <= Reach(w[j])
    ensures ForwardOf(Reversed(w) + rest, Replanned(w) + rest, |w|)
  {
  }

  lemma {:induction false} LastSettledPrefix(before: seq<Block>, after: seq<Block>, rest: seq<Block>, n: nat)
    requires n < |before| == |after|
    ensures LastSettled(before + rest, after + rest, n) == LastSettled(before, after, n)
  {
    if 0 < n {
      LastSettledPrefix(before, after, rest, n - 1);
    }
  }

  /** No entry speed in the window exceeds its braking limit. */
  predicate BelowBraking(w: seq<Block>) {
    forall i :: 1 <= i < |w| ==> w[i].entrySqr <= Braking(w, i)
  }

  /** Skipping the blocks that are at their maximum loses nothing. */
  lemma {:induction false} ReversePassIsBraking(w: seq<Block>, i: nat)
    requires BelowBraking(w) && 1 <= i < |w|
    ensures ReversePass(w, i) == Braking(w, i)
    decreases |w| - i
  {
    if i < |w| - 1 {
      ReversePassIsBraking(w, i + 1);
    } else {
      assert Braking(w, i + 1) == 0.0;
    }
  }

  /** The two passes compute the optimal plan. */
  lemma {:induction false} ForwardPassIsPlan(w: seq<Block>, i: nat)
    requires BelowBraking(w) && i < |w|
    ensures ForwardPass(w, i) == Plan(w, w[0].entrySqr, i)
  {
    if 0 < i {
      ForwardPassIsPlan(w, i - 1);
      ReversePassIsBraking(w, i);
    }
  }

  /** The cached index stops at a pinned block. */
  lemma PointerIsPinned(w: seq<Block>)
    requires AllPlannable(w) && BelowBraking(w) && 0 < |w|
    ensures Pinned(w, w[0].entrySqr, Pointer(w))
  {
    var q := Pointer(w);
    if 0 < q {
      ForwardPassIsPlan(w, q);
      ReversePassIsBraking(w, q);
      if Plan(w, w[0].entrySqr, q) < Braking(w, q) {
        AcceleratingIsPinned(w, w[0].entrySqr, q);
      }
    }
  }

  predicate NonNegative(b: Block) {
    0.0 <= b.entrySqr && 0.0 <= b.maxEntrySqr && 0.0 <= Reach(b)
  }

  predicate AllNonNegative(bs: seq<Block>) {
    forall i :: 0 <= i < |bs| ==> NonNegative(bs[i])
  }

  lemma {:induction false} ReverseNonNegative(w: seq<Block>, i: nat)
    requires i < |w| && AllNonNegative(w)
    ensures 0.0 <= ReversePass(w, i)
    decreases |w| - i
  {
    if i < |w| - 1 {
      ReverseNonNegative(w, i + 1);
    }
  }

  lemma {:induction false} ForwardNonNegative(w: seq<Block>, i: nat)
    requires i < |w| && AllNonNegative(w)
    ensures 0.0 <= ForwardPass(w, i)
  {
    if 0 < i {
      ForwardNonNegative(w, i - 1);
      ReverseNonNegative(w, i);
    }
  }
}
