/** Index arithmetic of the 16-slot planner ring. */
module Ring {
  type Index = i: nat | i < 16

  function NextIndex(i: Index): Index {
    if i + 1 == 16 then 0 else i + 1
  }

  function PrevIndex(i: Index): Index {
    if i == 0 then 15 else i - 1
  }

  /** The slot `n` places after `base`. */
  function At(base: Index, n: nat): Index
    requires n < 16
  {
    if base + n < 16 then base + n else base + n - 16
  }

  /** How many places `to` is after `from`. */
  function Dist(from: Index, to: Index): nat {
    if from <= to then to - from else to + 16 - from
  }

  lemma AtDist(base: Index, to: Index)
    ensures Dist(base, to) < 16 && At(base, Dist(base, to)) == to
  {
  }

  lemma DistFurther(base: Index, p: Index, n: nat)
    requires Dist(base, p) + n < 16
    ensures Dist(base, At(p, n)) == Dist(base, p) + n
  {
  }

  /** Number of slots from `p` up to `head`; a full turn when they coincide. */
  function Span(p: Index, head: Index): (n: nat)
    ensures 0 < n <= 16
  {
    if p == head then 16 else Dist(p, head)
  }

  /** Walking forward: the slot after the `i`-th one is the head exactly at the end of the span. */
  lemma WalkUp(p: Index, head: Index, i: nat)
    requires i < Span(p, head)
    ensures NextIndex(At(p, i)) == head <==> i == Span(p, head) - 1
    ensures i + 1 < 16 ==> NextIndex(At(p, i)) == At(p, i + 1)
  {
  }

  /** Walking backward: the slot before the `i`-th one is where the span starts exactly at the first step. */
  lemma WalkDown(p: Index, i: nat)
    requires 0 < i < 16
    ensures PrevIndex(At(p, i)) == At(p, i - 1) && (At(p, i - 1) == p <==> i == 1)
  {
  }
}
