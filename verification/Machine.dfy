/**
 The whole motion pipeline: the planner's queue and the preparation of segments in the main program, the
 two rings, and the interrupt that empties them, in any interleaving. A run starts from rest, with the
 planner and the machine at the same position.
 */
module Machine {
  import opened Blocks
  import opened PlanTheory
  import opened PlannerPasses
  import opened PlannerQueue
  import opened Profile
  import Execution
  import opened Bresenham
  import opened Tracer
  import opened SegmentRings

  datatype Machine = Machine(main: Execution.State, rings: Rings)

  datatype Event =
    | Line(target: Point, geometry: Geometry)
    | Load
    | CutSegment(level: Level)
    | FeedHold
    | CycleStop
    | Resume
    | WakeUp
    | Interrupt

  /** What does not change in a run: the steps per millimetre, and the square root. */
  datatype Setup = Setup(scale: Point, root: real -> real)

  /** Whether an event is one of planner and preparation; the others are of the stepper alone. */
  predicate OfMain(e: Event) {
    e != WakeUp && e != Interrupt
  }

  function MainEvent(e: Event, u: Setup): Execution.Event
    requires OfMain(e)
  {
    match e
    case Line(target, g) => Execution.Append(StepsOf(target, u.scale), g)
    case Load => Execution.Load
    case CutSegment(level) => Execution.CutSegment
    case FeedHold => Execution.FeedHold
    case CycleStop => Execution.CycleStop
    case Resume => Execution.Resume
  }

  /**
   Segments are prepared only while their ring has room. Counts fit their words. The timer is switched on only while
   it is off, as at the start of a cycle or a jog, and the interrupt comes only while it is on.
   */
  predicate Enabled(m: Machine, e: Event, u: Setup) {
    && (OfMain(e) ==> Execution.Enabled(m.main, MainEvent(e, u)))
    && match e
       case Line(target, g) => MoveBetween(m.main.queue.position, StepsOf(target, u.scale)).events < 0x1000_0000
       case Load => SegmentCount(m.rings) <= 4
       case CutSegment(level) =>
         && SegmentCount(m.rings) <= 4
         && (Execution.Cuttable(m.main) ==> Execution.NextSteps(m.main) * Ticks(level) < 0x1_0000)
       case WakeUp => !m.rings.running
       case Interrupt => m.rings.running
       case _ => true
  }

  /** What an event does is defined. */
  predicate Can(m: Machine, e: Event, u: Setup) {
    && Sized(m.rings)
    && (OfMain(e) ==> Execution.Can(m.main, MainEvent(e, u)))
    && (e.CutSegment? ==> 0 <= Execution.NextSteps(m.main))
  }

  /** What an event does to the rings. */
  function NextRings(m: Machine, e: Event, u: Setup): Rings
    requires Can(m, e, u)
  {
    match e
    case Load => if m.main.queue.recalculate then m.rings else BlockLoaded(m.rings, m.main.queue.blocks[0].move)
    case CutSegment(level) =>
      var n := Execution.NextSteps(m.main);
      if n == 0 && m.main.holding then m.rings else SegmentPushed(m.rings, n, level)
    case WakeUp => WokenUp(m.rings)
    case Interrupt => SegmentRings.Interrupt(m.rings)
    case _ => m.rings
  }

  function Next(m: Machine, e: Event, u: Setup): Machine
    requires Can(m, e, u)
  {
    Machine(if OfMain(e) then Execution.Next(m.main, MainEvent(e, u), u.root) else m.main, NextRings(m, e, u))
  }

  /** The planner, the preparation and the rings at rest at one position. */
  predicate Starts(m: Machine) {
    && m.main == Execution.AT_REST.(queue := Execution.AT_REST.queue.(position := m.main.queue.position))
    && Blank(m.rings)
    && m.rings.x == m.main.queue.position.x
    && m.rings.y == m.main.queue.position.y
  }

  // ---------------------------------------------------------------------------------------------
  // What every run keeps

  function MovesOf(bs: seq<Block>): (ms: seq<Move>)
    ensures |ms| == |bs|
  {
    seq(|bs|, i requires 0 <= i < |bs| => bs[i].move)
  }

  /**
   What of the main program matters to the rings: the move begun and the steps of it not yet cut, the
   moves waiting, and where all moves lead.
   */
  datatype Work = Work(current: seq<Move>, remaining: int, waiting: seq<Move>, position: Steps)

  function WorkOf(s: Execution.State): Work
    requires Execution.Begun(s) ==> 0 < |s.queue.blocks|
  {
    if Execution.Begun(s)
    then Work([s.queue.blocks[0].move], s.stepsRemaining, MovesOf(s.queue.blocks[1..]), s.queue.position)
    else Work([], 0, MovesOf(s.queue.blocks), s.queue.position)
  }

  /** All moves of the run, in order: those the rings were told of, then those waiting. */
  function AllMoves(w: Work, t: Ideal): seq<Move> {
    t.moves + w.waiting
  }

  /**
   The rings carry out the tracing `t` of the moves they were told of, begun at (x0, y0), and the planner is
   where all moves of the run lead.
   */
  ghost predicate InStep(w: Work, rings: Rings, t: Ideal, x0: int, y0: int) {
    && 0 <= w.remaining
    && |w.current| <= 1
    && (w.current == [] ==> w.remaining == 0)
    && Linked(rings, t, w.remaining, x0, y0)
    && (w.current != [] ==> t.moves != [] && t.moves[|t.moves| - 1] == w.current[0])
    && (forall i :: 0 <= i < |w.waiting| ==> WellFormed(w.waiting[i]) && w.waiting[i].events < 0x1000_0000)
    && w.position.x == x0 + Travel(AllMoves(w, t), X, |AllMoves(w, t)|)
    && w.position.y == y0 + Travel(AllMoves(w, t), Y, |AllMoves(w, t)|)
  }

  /** One more move leads from the last end to the new one. */
  lemma TravelAppend(moves: seq<Move>, m: Move, axis: Axis)
    ensures Travel(moves + [m], axis, |moves| + 1)
            == Travel(moves, axis, |moves|) + Signed(Negative(m, axis), StepsOn(m, axis))
  {
    TravelPrefix(moves, [m], axis, |moves|);
  }

  lemma LineInStep(w: Work, rings: Rings, t: Ideal, x0: int, y0: int, target: Steps)
    requires InStep(w, rings, t, x0, y0) && target != w.position
    requires MoveBetween(w.position, target).events < 0x1000_0000
    ensures var b := MoveBetween(w.position, target);
            var r := w.(waiting := w.waiting + [b], position := target);
            InStep(r, rings, t, x0, y0) && AllMoves(r, t) == AllMoves(w, t) + [b]
  {
    hide Tracing, Fits, SegmentsLinked, BlocksLinked, CountersLinked, Position;
    var b := MoveBetween(w.position, target);
    assert t.moves + (w.waiting + [b]) == AllMoves(w, t) + [b];
    TravelAppend(AllMoves(w, t), b, X);
    TravelAppend(AllMoves(w, t), b, Y);
  }

  /** The first waiting move is told to the rings. */
  function WorkLoaded(w: Work): Work
    requires w.waiting != []
  {
    Work([w.waiting[0]], w.waiting[0].events, w.waiting[1..], w.position)
  }

  lemma LoadInStep(w: Work, rings: Rings, t: Ideal, x0: int, y0: int)
    requires InStep(w, rings, t, x0, y0) && w.current == [] && w.waiting != [] && SegmentCount(rings) <= 4
    ensures InStep(WorkLoaded(w), BlockLoaded(rings, w.waiting[0]), WithMove(t, w.waiting[0]), x0, y0)
    ensures AllMoves(WorkLoaded(w), WithMove(t, w.waiting[0])) == AllMoves(w, t)
  {
    hide Tracing, Fits, SegmentsLinked, BlocksLinked, CountersLinked, Position;
    LoadLinked(rings, t, w.waiting[0], x0, y0);
    assert t.moves + [w.waiting[0]] + w.waiting[1..] == AllMoves(w, t);
  }

  /** Steps of the move begun are cut; with the last of them it is finished. */
  function WorkCut(w: Work, n: int, finished: bool): Work {
    if finished then w.(current := [], remaining := 0) else w.(remaining := w.remaining - n)
  }

  lemma CutInStep(w: Work, rings: Rings, t: Ideal, x0: int, y0: int, n: nat, level: Level, finished: bool)
    requires InStep(w, rings, t, x0, y0) && w.current != [] && SegmentCount(rings) <= 4
    requires 0 < n <= w.remaining && n * Ticks(level) < 0x1_0000 && (finished ==> n == w.remaining)
    ensures InStep(WorkCut(w, n, finished), SegmentPushed(rings, n, level), WithPiece(t, n, level), x0, y0)
    ensures AllMoves(WorkCut(w, n, finished), WithPiece(t, n, level)) == AllMoves(w, t)
  {
    hide Tracing, Fits, SegmentsLinked, BlocksLinked, CountersLinked, Position;
    PushLinked(rings, t, w.remaining, n, level, x0, y0);
    Retraced(w, WorkCut(w, n, finished), rings, t, SegmentPushed(rings, n, level), WithPiece(t, n, level), x0, y0);
  }

  /** The rings have been worked on, the moves are the same. */
  lemma Retraced(w: Work, w': Work, rings: Rings, t: Ideal, rings': Rings, t': Ideal, x0: int, y0: int)
    requires InStep(w, rings, t, x0, y0) && t'.moves == t.moves
    requires 0 <= w'.remaining && w'.waiting == w.waiting && w'.position == w.position
    requires w'.current == w.current || (w'.current == [] && w'.remaining == 0)
    requires w'.current == [] ==> w'.remaining == 0
    requires Linked(rings', t', w'.remaining, x0, y0)
    ensures InStep(w', rings', t', x0, y0) && AllMoves(w', t') == AllMoves(w, t)
  {
    hide Tracing, Fits, SegmentsLinked, BlocksLinked, CountersLinked, Position;
    assert AllMoves(w', t') == AllMoves(w, t);
  }

  lemma TickMoves(t: Ideal)
    ensures Tick(t).moves == t.moves
  {
  }

  lemma InterruptInStep(w: Work, rings: Rings, t: Ideal, x0: int, y0: int)
    requires InStep(w, rings, t, x0, y0)
    ensures InStep(w, SegmentRings.Interrupt(rings), Tick(t), x0, y0)
    ensures AllMoves(w, Tick(t)) == AllMoves(w, t)
  {
    hide Tracing, Fits, SegmentsLinked, BlocksLinked, CountersLinked, Position;
    InterruptLinked(rings, t, w.remaining, x0, y0);
    TickMoves(t);
    Retraced(w, w, rings, t, SegmentRings.Interrupt(rings), Tick(t), x0, y0);
  }

  lemma WakeUpInStep(w: Work, rings: Rings, t: Ideal, x0: int, y0: int)
    requires InStep(w, rings, t, x0, y0)
    ensures InStep(w, WokenUp(rings), t, x0, y0)
  {
    hide Tracing, Fits, SegmentsLinked, BlocksLinked, CountersLinked, Position;
    PinsLinked(rings, WokenUp(rings), t, w.remaining, x0, y0);
    Retraced(w, w, rings, t, WokenUp(rings), t, x0, y0);
  }

  // ---------------------------------------------------------------------------------------------
  // What the main program's events do to the work

  lemma SameMoves(a: seq<Block>, b: seq<Block>)
    requires SameShape(a, b) && 0 < |a|
    ensures MovesOf(a) == MovesOf(b) && MovesOf(a[1..]) == MovesOf(b[1..]) && a[0].move == b[0].move
  {
    forall i | 0 <= i < |a|
      ensures a[i].move == b[i].move
    {
      assert SameButEntry(a[i], b[i]);
    }
  }

  lemma SameWork(s: Execution.State, r: Execution.State)
    requires SameShape(s.queue.blocks, r.queue.blocks) && r.queue.position == s.queue.position
    requires Execution.Begun(r) <==> Execution.Begun(s)
    requires Execution.Begun(s) ==> 0 < |s.queue.blocks| && r.stepsRemaining == s.stepsRemaining
    ensures WorkOf(r) == WorkOf(s)
  {
    if 0 < |s.queue.blocks| {
      SameMoves(s.queue.blocks, r.queue.blocks);
    }
  }

  lemma LineWork(s: Execution.State, target: Steps, g: Geometry)
    requires Execution.Good(s) && Physical(g) && target != s.queue.position
    ensures var r, w := Execution.WithMove(s, target, g), WorkOf(s);
            && (Execution.Begun(r) ==> 0 < |r.queue.blocks|)
            && WorkOf(r) == w.(waiting := w.waiting + [MoveBetween(w.position, target)], position := target)
  {
    var q, r, b := s.queue, Appended(s.queue, target, g), NewBlock(s.queue, MoveBetween(s.queue.position, target), g);
    Execution.AppendedShape(q, target, g);
    AppendedPosition(q, target, g);
    SameMoves(q.blocks + [b], r.blocks);
    MovesAppend(q.blocks, b);
  }

  lemma AppendedPosition(q: Queue, target: Steps, g: Geometry)
    requires Sound(q) && Physical(g) && target != q.position
    ensures Appended(q, target, g).position == target
  {
    PushedSound(q, target, g);
    RecalculatedShape(Pushed(q, target, g));
  }

  lemma MovesAppend(bs: seq<Block>, b: Block)
    ensures MovesOf(bs + [b]) == MovesOf(bs) + [b.move]
    ensures 0 < |bs| ==> MovesOf((bs + [b])[1..]) == MovesOf(bs[1..]) + [b.move]
  {
    if 0 < |bs| {
      assert (bs + [b])[1..] == bs[1..] + [b];
    }
  }

  lemma LoadWork(s: Execution.State, root: real -> real)
    requires Execution.Good(s) && Execution.Enabled(s, Execution.Load) && Execution.Loadable(s)
    ensures var r := Execution.Loaded(s, root);
            && 0 < |r.queue.blocks|
            && if s.queue.recalculate then WorkOf(r) == WorkOf(s)
               else WorkOf(s).current == [] && WorkOf(s).waiting != [] && WorkOf(s).waiting[0] == s.queue.blocks[0].move
                    && WorkOf(r) == WorkLoaded(WorkOf(s))
  {
    hide Optimal, Execution.OnCourse, SoundBlocks, CanStop;
    var r := Execution.Loaded(s, root);
    assert r.queue.blocks[1..] == s.queue.blocks[1..];
    assert MovesOf(s.queue.blocks)[1..] == MovesOf(s.queue.blocks[1..]);
  }

  lemma CutWork(s: Execution.State)
    requires Execution.Good(s) && Execution.Enabled(s, Execution.CutSegment) && Execution.Cuttable(s)
    requires 0 < Execution.NextSteps(s)
    ensures var r, n, finished := Execution.Cut(s), Execution.NextSteps(s), Execution.NextMotion(s).mm == 0.0;
            && (Execution.Begun(r) ==> 0 < |r.queue.blocks|)
            && WorkOf(s).current != [] && n <= WorkOf(s).remaining && (finished ==> n == WorkOf(s).remaining)
            && WorkOf(r) == WorkCut(WorkOf(s), n, finished)
  {
    Execution.SegmentSteps(s);
    Execution.SegmentFacts(s);
    hide Execution.OnCourse, Optimal, Sound, Execution.NextMotion, Execution.NextSteps, Execution.Cuttable, MovesOf;
    var r := Execution.Cut(s);
    if Execution.NextMotion(s).mm == 0.0 {
      assert r.queue.blocks == s.queue.blocks[1..];
    } else {
      assert r.queue.blocks[1..] == s.queue.blocks[1..];
    }
  }

  lemma HoldWork(s: Execution.State)
    requires Execution.Good(s)
    ensures WorkOf(Execution.Held(s)) == WorkOf(s)
  {
    UnloadedKeeps(s.queue);
    SameWork(s, Execution.Held(s));
  }

  lemma ReinitializedPosition(q: Queue)
    requires Sound(q)
    ensures Reinitialized(q).position == q.position
  {
    UnloadedKeeps(q);
    RecalculatedShape(Unloaded(q).(planned := 0));
  }

  lemma StopWork(s: Execution.State)
    requires Execution.Good(s)
    ensures var r := Execution.Stopped(s);
            (Execution.Begun(r) ==> 0 < |r.queue.blocks|) && WorkOf(r) == WorkOf(s)
  {
    Execution.ReinitializedShape(s.queue);
    ReinitializedPosition(s.queue);
    hide Execution.Good, Reinitialized;
    SameWork(s, Execution.Stopped(s));
  }

  // ---------------------------------------------------------------------------------------------
  // Runs

  ghost predicate Coherent(m: Machine, t: Ideal, x0: int, y0: int) {
    Execution.Good(m.main) && InStep(WorkOf(m.main), m.rings, t, x0, y0)
  }

  /** What an event does to the tracing. */
  function NextIdeal(m: Machine, e: Event, t: Ideal): Ideal {
    match e
    case Load =>
      if m.main.queue.recalculate || m.main.queue.blocks == [] then t else WithMove(t, m.main.queue.blocks[0].move)
    case CutSegment(level) =>
      if Execution.Cuttable(m.main) && 0 < Execution.NextSteps(m.main) && t.moves != []
      then WithPiece(t, Execution.NextSteps(m.main), level) else t
    case Interrupt => Tick(t)
    case _ => t
  }

  /** The moves an event adds to the run. */
  function Added(m: Machine, e: Event, u: Setup): seq<Move> {
    if e.Line? && StepsOf(e.target, u.scale) != m.main.queue.position
    then [MoveBetween(m.main.queue.position, StepsOf(e.target, u.scale))] else []
  }

  lemma StartsCoherent(m: Machine)
    requires Starts(m)
    ensures Coherent(m, NOT_BEGUN, m.rings.x, m.rings.y)
  {
    hide Tracing, Fits, SegmentsLinked, BlocksLinked, CountersLinked, Position;
    BlankIsLinked(m.rings);
    Execution.StartIsGood();
  }

  lemma LineCoherent(m: Machine, t: Ideal, x0: int, y0: int, e: Event, u: Setup)
    requires SquareRoot(u.root) && Coherent(m, t, x0, y0) && Enabled(m, e, u) && e.Line?
    ensures Can(m, e, u) && Coherent(Next(m, e, u), t, x0, y0)
    ensures AllMoves(WorkOf(Next(m, e, u).main), t) == AllMoves(WorkOf(m.main), t) + Added(m, e, u)
  {
    hide Tracing, Fits, SegmentsLinked, BlocksLinked, CountersLinked, Position;
    hide Optimal, Execution.OnCourse, SoundBlocks, CanStop, Travel;
    var target := StepsOf(e.target, u.scale);
    Execution.NextKeeps(m.main, MainEvent(e, u), u.root);
    if target != m.main.queue.position {
      LineWork(m.main, target, e.geometry);
      LineInStep(WorkOf(m.main), m.rings, t, x0, y0, target);
    }
  }

  lemma LoadCoherent(m: Machine, t: Ideal, x0: int, y0: int, u: Setup)
    requires SquareRoot(u.root) && Coherent(m, t, x0, y0) && Enabled(m, Load, u)
    ensures Can(m, Load, u) && Coherent(Next(m, Load, u), NextIdeal(m, Load, t), x0, y0)
    ensures AllMoves(WorkOf(Next(m, Load, u).main), NextIdeal(m, Load, t)) == AllMoves(WorkOf(m.main), t)
  {
    hide Tracing, Fits, SegmentsLinked, BlocksLinked, CountersLinked, Position;
    hide Optimal, Execution.OnCourse, SoundBlocks, CanStop, Travel;
    Execution.NextKeeps(m.main, Execution.Load, u.root);
    LoadWork(m.main, u.root);
    if !m.main.queue.recalculate {
      LoadInStep(WorkOf(m.main), m.rings, t, x0, y0);
    }
  }

  lemma CutCoherent(m: Machine, t: Ideal, x0: int, y0: int, level: Level, u: Setup)
    requires SquareRoot(u.root) && Coherent(m, t, x0, y0) && Enabled(m, CutSegment(level), u)
    ensures Can(m, CutSegment(level), u)
            && Coherent(Next(m, CutSegment(level), u), NextIdeal(m, CutSegment(level), t), x0, y0)
    ensures AllMoves(WorkOf(Next(m, CutSegment(level), u).main), NextIdeal(m, CutSegment(level), t))
            == AllMoves(WorkOf(m.main), t)
  {
    hide Tracing, Fits, SegmentsLinked, BlocksLinked, CountersLinked, Position;
    hide Optimal, Execution.OnCourse, SoundBlocks, CanStop, Travel;
    Execution.NextKeeps(m.main, Execution.CutSegment, u.root);
    Execution.SegmentSteps(m.main);
    if 0 < Execution.NextSteps(m.main) {
      CutWork(m.main);
      var finished := Execution.NextMotion(m.main).mm == 0.0;
      CutInStep(WorkOf(m.main), m.rings, t, x0, y0, Execution.NextSteps(m.main), level, finished);
    } else {
      assert WorkOf(Execution.Cut(m.main)) == WorkOf(m.main);
    }
  }

  lemma OtherCoherent(m: Machine, t: Ideal, x0: int, y0: int, e: Event, u: Setup)
    requires SquareRoot(u.root) && Coherent(m, t, x0, y0) && Enabled(m, e, u)
    requires e.FeedHold? || e.CycleStop? || e.Resume?
    ensures Can(m, e, u) && Coherent(Next(m, e, u), t, x0, y0)
    ensures AllMoves(WorkOf(Next(m, e, u).main), t) == AllMoves(WorkOf(m.main), t)
  {
    hide Tracing, Fits, SegmentsLinked, BlocksLinked, CountersLinked, Position;
    hide Optimal, Execution.OnCourse, SoundBlocks, CanStop, Travel;
    Execution.NextKeeps(m.main, MainEvent(e, u), u.root);
    HoldWork(m.main);
    StopWork(m.main);
  }

  /** Every event keeps the pipeline coherent, and only a line adds to the moves of the run. */
  lemma NextCoherent(m: Machine, t: Ideal, x0: int, y0: int, e: Event, u: Setup)
    requires SquareRoot(u.root) && Coherent(m, t, x0, y0) && Enabled(m, e, u)
    ensures Can(m, e, u) && Coherent(Next(m, e, u), NextIdeal(m, e, t), x0, y0)
    ensures AllMoves(WorkOf(Next(m, e, u).main), NextIdeal(m, e, t)) == AllMoves(WorkOf(m.main), t) + Added(m, e, u)
  {
    hide Tracing, Fits, SegmentsLinked, BlocksLinked, CountersLinked, Position;
    hide Optimal, Execution.OnCourse, SoundBlocks, CanStop, Travel;
    match e
    case Line(target, g) => LineCoherent(m, t, x0, y0, e, u);
    case Load => LoadCoherent(m, t, x0, y0, u);
    case CutSegment(level) => CutCoherent(m, t, x0, y0, level, u);
    case WakeUp => WakeUpInStep(WorkOf(m.main), m.rings, t, x0, y0);
    case Interrupt => InterruptInStep(WorkOf(m.main), m.rings, t, x0, y0);
    case _ => OtherCoherent(m, t, x0, y0, e, u);
  }
}
