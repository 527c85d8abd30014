/** What the cached index is worth: it saves replanning without losing speed, and it never has to be taken back. */
module Lookahead {
  import opened Blocks
  import opened PlanTheory
  import opened PlannerPasses
  import opened PlannerQueue
  import opened RingQueue
  import opened Ring

  /** Replanning only from the cached index gives the same speeds as replanning the whole queue. */
  lemma CachedReplanIsFullReplan(q: Queue, target: Steps, g: Geometry)
    requires Sound(q) && Optimal(q) && Physical(g)
    ensures var p := Pushed(q, target, g);
            var cached, full := Recalculated(p), Recalculated(p.(planned := 0));
            && |cached.blocks| == |full.blocks| == |q.blocks| + 1
            && TailSqr(cached) == TailSqr(full)
            && forall i :: 1 <= i < |cached.blocks| ==> cached.blocks[i].entrySqr == full.blocks[i].entrySqr
  {
    var p := Pushed(q, target, g);
    PushedSettled(q, target, g);
    SettledFromTheTail(p);
    RecalculatedShape(p);
    RecalculatedShape(p.(planned := 0));
    forall i | 1 <= i < |p.blocks|
      ensures Recalculated(p).blocks[i].entrySqr == Recalculated(p.(planned := 0)).blocks[i].entrySqr
    {
      SettledEntry(p, i);
      SettledEntry(p.(planned := 0), i);
    }
  }

  lemma SettledFromTheTail(p: Queue)
    requires Sound(p) && SettledSoFar(p)
    ensures Sound(p.(planned := 0)) && SettledSoFar(p.(planned := 0))
  {
  }

  /** What a replan leaves in block `i`, told by the blocks as they were. */
  lemma SettledEntry(p: Queue, i: nat)
    requires Sound(p) && SettledSoFar(p) && 1 <= i < |p.blocks|
    ensures |Recalculated(p).blocks| == |p.blocks|
    ensures Recalculated(p).blocks[i].entrySqr == Plan(p.blocks, TailSqr(p), i)
  {
    if p.planned + 1 < |p.blocks| {
      RecalculatedEntry(p, TailSqr(p), i);
    }
  }

  /** One more move: no speed is lowered, and none at or before the cached index changes. */
  lemma AppendedNeverLowers(q: Queue, target: Steps, g: Geometry, i: nat)
    requires Sound(q) && Optimal(q) && Physical(g) && target != q.position && 1 <= i < |q.blocks|
    ensures var r := Appended(q, target, g);
            && |r.blocks| == |q.blocks| + 1 && Sound(r) && Optimal(r)
            && q.blocks[i].entrySqr <= r.blocks[i].entrySqr
            && (i <= q.planned ==> r.blocks[i].entrySqr == q.blocks[i].entrySqr)
            && q.planned <= r.planned
  {
    AppendedKeeps(q, target, g);
    PushedRaises(q, target, g, i);
    RecalculatedShape(Pushed(q, target, g));
    ShapePlan(Pushed(q, target, g).blocks, Appended(q, target, g).blocks, TailSqr(q), i);
  }

  /** The same, a move of no steps included. */
  lemma AppendedEntry(q: Queue, target: Steps, g: Geometry, i: nat)
    requires Sound(q) && Optimal(q) && Physical(g) && 1 <= i < |q.blocks|
    ensures var r := Appended(q, target, g);
            && |q.blocks| <= |r.blocks| && Sound(r) && Optimal(r)
            && q.blocks[i].entrySqr <= r.blocks[i].entrySqr
            && (i <= q.planned ==> r.blocks[i].entrySqr == q.blocks[i].entrySqr)
            && q.planned <= r.planned
  {
    if target != q.position {
      AppendedNeverLowers(q, target, g, i);
    }
  }

  lemma PushedRaises(q: Queue, target: Steps, g: Geometry, i: nat)
    requires Sound(q) && Optimal(q) && Physical(g) && target != q.position && 1 <= i < |q.blocks|
    ensures var p := Pushed(q, target, g);
            && Sound(p) && TailSqr(p) == TailSqr(q)
            && q.blocks[i].entrySqr <= Plan(p.blocks, TailSqr(q), i)
            && (i <= q.planned ==> q.blocks[i].entrySqr == Plan(p.blocks, TailSqr(q), i))
  {
    var b := Pushed(q, target, g).blocks[|q.blocks|];
    PushedSound(q, target, g);
    assert AllPlannable([b]) by {
      assert SoundBlock(Pushed(q, target, g).blocks[|q.blocks|]);
    }
    AppendingRaisesPlan(q.blocks, [b], TailSqr(q), i);
    PinnedIsFinal(q.blocks, TailSqr(q), q.planned, [b]);
  }

  predicate AllPhysical(moves: seq<(Steps, Geometry)>) {
    forall j :: 0 <= j < |moves| ==> Physical(moves[j].1)
  }

  /** Several more moves. */
  ghost function AppendedAll(q: Queue, moves: seq<(Steps, Geometry)>): Queue
    requires Sound(q) && AllPhysical(moves)
    decreases |moves|
  {
    if moves == [] then q
    else AppendedKeeps(q, moves[0].0, moves[0].1); AppendedAll(Appended(q, moves[0].0, moves[0].1), moves[1..])
  }

  /** Once a block is at or before the cached index, no number of later moves changes the speed it is entered at. */
  lemma {:induction false} PlannedIsFinal(q: Queue, moves: seq<(Steps, Geometry)>, i: nat)
    requires Sound(q) && Optimal(q) && 1 <= i < |q.blocks|
    requires AllPhysical(moves)
    ensures var r := AppendedAll(q, moves);
            && |q.blocks| <= |r.blocks| && Sound(r) && Optimal(r)
            && q.blocks[i].entrySqr <= r.blocks[i].entrySqr
            && (i <= q.planned ==> r.blocks[i].entrySqr == q.blocks[i].entrySqr)
            && q.planned <= r.planned
    decreases |moves|
  {
    hide Optimal, Appended, Physical, SoundBlocks, CanStop;
    if moves != [] {
      AppendedEntry(q, moves[0].0, moves[0].1, i);
      PlannedIsFinal(Appended(q, moves[0].0, moves[0].1), moves[1..], i);
    }
  }

  // ---------------------------------------------------------------------------------------------
  // The cached index of an empty ring

  /** The ring as it is at start-up. */
  const POWERED_UP := RingState(
    seq(16, (i: int) => Block(Move(0, 0, 0, 0, false, false), 0.0, 0.0, 0.0, 0.0, 0.0)),
    0, 0, 0, false, false, 0.0, 0.0, Steps(0, 0, 0))

  /**
   A replan of an empty ring, as after a change of override while idle, walks all sixteen slots: at
   start-up it leaves the cached index at slot 15, not between the tail and the head. The index is in range
   whenever the ring is not empty, and the first move brings it back.
   */
  lemma EmptyReplanStrays(s: RingState, w: seq<Block>, rest: seq<Block>)
    requires w == Walk(POWERED_UP)[..WindowLength(POWERED_UP)] && rest == Walk(POWERED_UP)[WindowLength(POWERED_UP)..]
    requires Replans(POWERED_UP, s, w, rest)
    ensures s.planned == 15 && s.tail == s.head == 0
    ensures Consistent(s)
  {
    BlankWalk(w);
    FirstMoveSettles(w);
    ReplansQueue(POWERED_UP, s, w, rest);
    StraysTo(s, w, rest);
  }

  /**
   In general such a replan, begun at the tail, leaves the index there exactly when it settles no later slot: none is
   dialled down by the forward pass or found at its maximum.
   */
  lemma EmptyReplanStays(s: RingState, s': RingState, w: seq<Block>, rest: seq<Block>)
    requires Intact(s) && s.head == s.tail == s.planned
    requires w == Walk(s)[..WindowLength(s)] && rest == Walk(s)[WindowLength(s)..] && Replans(s, s', w, rest)
    ensures |w| == 16
    ensures s'.planned == s'.tail <==> forall j :: 1 <= j < 16 ==> !Settles(Reversed(w)[j], Replanned(w)[j])
  {
    assert s'.planned == At(s.planned, Pointer(w));
  }

  lemma BlankWalk(w: seq<Block>)
    requires w == Walk(POWERED_UP)[..WindowLength(POWERED_UP)]
    ensures |w| == 16 && w[15].maxEntrySqr == 0.0 && AllNonNegative(w) && Replannable(POWERED_UP)
  {
    assert w == Walk(POWERED_UP) && w[15] == POWERED_UP.slots[At(0, 15)];
  }

  lemma StraysTo(s: RingState, w: seq<Block>, rest: seq<Block>)
    requires |w| == 16 && Pointer(w) == 15 && Replans(POWERED_UP, s, w, rest)
    ensures s.planned == 15 && s.tail == s.head == 0
  {
    hide Pointer, Replanned;
  }
}
