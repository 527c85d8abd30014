/**
 How a line of g-code becomes targets: the words of a line are collected into a block, the block is checked and
 its coordinates converted, and the parser's state is updated in the order of execution. Only what bears on
 positions, offsets and the plane is modelled.
 */
module Gcode {
  import opened Results
  import PlannerQueue
  import Arc

  type Point = PlannerQueue.Point

  /** A word: its letter, its value, and the whole part and hundredths that tell commands apart. */
  datatype Word = Word(letter: char, whole: nat, mantissa: nat, value: real)

  datatype Motion = Seek | Linear | ClockwiseArc | CounterArc | Probe | NoMotion

  datatype NonModal =
    | NoAction
    | Dwell
    | SetCoordinates
    | GoHome(second: bool)
    | SetHome(second: bool)
    | SetOffset
    | ResetOffset
    | Absolute

  /** What the axis words of a block are for. */
  datatype AxisCommand = Unused | ForNonModal | ForMotion | ForToolLength

  /** What the words of a line say, on top of the modes in force. `groups` and `letters` are what was seen. */
  datatype Block = Block(
    motion: Motion,
    nonModal: NonModal,
    command: AxisCommand,
    plane: nat,
    incremental: bool,
    inches: bool,
    dynamicToolLength: bool,
    system: nat,
    x: Option<real>,
    y: Option<real>,
    l: nat,
    p: real,
    ends: bool,
    groups: set<nat>,
    letters: set<char>)

  /** The parser's state. `memory` holds the stored positions: six coordinate systems, then the two homes. */
  datatype State = State(
    position: Point,
    coordSystem: Point,
    coordOffset: Point,
    toolLength: real,
    motion: Motion,
    plane: nat,
    incremental: bool,
    inches: bool,
    system: nat,
    memory: seq<Point>)

  const MM_PER_INCH := 25.4

  // ---------------------------------------------------------------------------------------------
  // Collecting the words

  /** What a G command sets, the claim it lays to the axis words if any, and its modal group. */
  datatype Command = Command(block: Block, claim: AxisCommand, group: nat)

  /** Commands that use the axis words. */
  function AxisUse(b: Block, g: nat, mantissa: nat): Option<Command> {
    if g == 10 && mantissa == 0 then Some(Command(b.(nonModal := SetCoordinates), ForNonModal, 0))
    else if (g == 28 || g == 30) && mantissa == 0 then Some(Command(b.(nonModal := GoHome(g == 30)), ForNonModal, 0))
    else if g == 92 && mantissa == 0 then Some(Command(b.(nonModal := SetOffset), ForNonModal, 0))
    else if g == 0 && mantissa == 0 then Some(Command(b.(motion := Seek), ForMotion, 1))
    else if g == 1 && mantissa == 0 then Some(Command(b.(motion := Linear), ForMotion, 1))
    else if g == 2 && mantissa == 0 then Some(Command(b.(motion := ClockwiseArc), ForMotion, 1))
    else if g == 3 && mantissa == 0 then Some(Command(b.(motion := CounterArc), ForMotion, 1))
    else if g == 38 && mantissa in {20, 30, 40, 50} then Some(Command(b.(motion := Probe), ForMotion, 1))
    else if g == 49 || (g == 43 && mantissa == 10) then
      Some(Command(b.(dynamicToolLength := g == 43), ForToolLength, 8))
    else None
  }

  /** Actions without axis words of their own. */
  function OtherAction(b: Block, g: nat, mantissa: nat): Option<Command> {
    if (g == 28 || g == 30) && mantissa == 10 then Some(Command(b.(nonModal := SetHome(g == 30)), Unused, 0))
    else if g == 92 && mantissa == 10 then Some(Command(b.(nonModal := ResetOffset), Unused, 0))
    else if g == 4 && mantissa == 0 then Some(Command(b.(nonModal := Dwell), Unused, 0))
    else if g == 53 && mantissa == 0 then Some(Command(b.(nonModal := Absolute), Unused, 0))
    else None
  }

  /** Changes of mode. The plotter has no other plane than XY. */
  function ModeChange(b: Block, g: nat, mantissa: nat): Option<Command> {
    if g == 91 && mantissa == 10 then Some(Command(b, Unused, 4))
    else if mantissa != 0 then None
    else if g == 80 then Some(Command(b.(motion := NoMotion), Unused, 1))
    else if g == 17 then Some(Command(b.(plane := 0), Unused, 2))
    else if g == 90 || g == 91 then Some(Command(b.(incremental := g == 91), Unused, 3))
    else if g == 93 || g == 94 then Some(Command(b, Unused, 5))
    else if g == 20 || g == 21 then Some(Command(b.(inches := g == 20), Unused, 6))
    else if g == 40 then Some(Command(b, Unused, 7))
    else if 54 <= g <= 59 then Some(Command(b.(system := g - 54), Unused, 12))
    else if g == 61 then Some(Command(b, Unused, 13))
    else None
  }

  /** Only one command of a line may claim the axis words, and each modal group may be given once. */
  function Accept(b: Block, c: Command): Result<Block> {
    if c.claim != Unused && b.command != Unused then Error
    else if c.group in b.groups then Error
    else Ok(c.block.(command := if c.claim != Unused then c.claim else b.command, groups := b.groups + {c.group}))
  }

  function ReadCommand(b: Block, g: nat, mantissa: nat): Result<Block> {
    match AxisUse(b, g, mantissa)
    case Some(c) => Accept(b, c)
    case None =>
      match OtherAction(b, g, mantissa)
      case Some(c) => Accept(b, c)
      case None =>
        match ModeChange(b, g, mantissa)
        case Some(c) => Accept(b, c)
        case None => Error
  }

  function ReadValue(b: Block, w: Word): Result<Block> {
    if w.letter == 'Z' then Error
    else if w.letter in b.letters then Error
    else if w.letter in {'F', 'N', 'P', 'T', 'S'} && w.value < 0.0 then Error
    else
      var c := b.(letters := b.letters + {w.letter});
      if w.letter == 'X' then Ok(c.(x := Some(w.value)))
      else if w.letter == 'Y' then Ok(c.(y := Some(w.value)))
      else if w.letter == 'L' then Ok(c.(l := w.whole))
      else if w.letter == 'P' then Ok(c.(p := w.value))
      else if w.letter in {'F', 'I', 'J', 'K', 'N', 'R', 'S', 'T'} then Ok(c)
      else Error
  }

  function ReadWord(b: Block, w: Word): Result<Block> {
    if w.letter == 'G' then ReadCommand(b, w.whole, w.mantissa)
    else if w.letter == 'M' then
      if w.mantissa != 0 then Error
      else if w.whole in {0, 1, 2, 30} then Accept(b, Command(b.(ends := w.whole == 2 || w.whole == 30), Unused, 104))
      else if w.whole == 3 || w.whole == 5 then Accept(b, Command(b, Unused, 107))
      else if w.whole == 8 || w.whole == 9 then Accept(b, Command(b, Unused, 108))
      else Error
    else ReadValue(b, w)
  }

  function ReadWords(b: Block, words: seq<Word>): Result<Block>
    decreases |words|
  {
    if words == [] then Ok(b)
    else match ReadWord(b, words[0]) case Error => Error case Ok(c) => ReadWords(c, words[1..])
  }

  /** The modes in force before the words are read; a jog is a linear motion whatever the mode. */
  function FreshBlock(s: State, jog: bool): Block {
    Block(if jog then Linear else s.motion, NoAction, Unused, s.plane, s.incremental, s.inches, false, s.system,
          None, None, 0, 0.0, false, {}, {})
  }

  /** The loop over the words. */
  method CollectWords(s: State, jog: bool, words: seq<Word>) returns (r: Result<Block>)
    ensures r == ReadWords(FreshBlock(s, jog), words)
  {
    var b := FreshBlock(s, jog);
    var i := 0;
    while i < |words|
      invariant 0 <= i <= |words|
      invariant ReadWords(b, words[i..]) == ReadWords(FreshBlock(s, jog), words)
    {
      var next := ReadWord(b, words[i]);
      match next {
        case Error => return Error;
        case Ok(c) => b := c;
      }
      assert words[i..][1..] == words[i + 1..];
      i := i + 1;
    }
    return Ok(b);
  }

  /** What every accepted word keeps: the plane, a known coordinate system, and the claim to the axis words. */
  predicate WellRead(b: Block) {
    && b.plane == 0
    && b.system < 6
    && (UsesAxes(b.nonModal) ==> b.command == ForNonModal)
  }

  lemma WordKeeps(b: Block, w: Word)
    requires WellRead(b) && ReadWord(b, w).Ok?
    ensures WellRead(ReadWord(b, w).value) && w.letter != 'Z'
  {
    hide ReadCommand, ReadValue;
    if w.letter == 'G' {
      CommandKeeps(b, w.whole, w.mantissa);
    } else if w.letter != 'M' {
      ValueKeeps(b, w);
    }
  }

  lemma ValueKeeps(b: Block, w: Word)
    requires WellRead(b) && ReadValue(b, w).Ok?
    ensures WellRead(ReadValue(b, w).value) && w.letter != 'Z'
  {
  }

  lemma CommandKeeps(b: Block, g: nat, mantissa: nat)
    requires WellRead(b) && ReadCommand(b, g, mantissa).Ok?
    ensures WellRead(ReadCommand(b, g, mantissa).value)
  {
    match AxisUse(b, g, mantissa)
    case Some(c) => AxisUseIsFair(b, g, mantissa); AcceptKeeps(b, c);
    case None =>
      match OtherAction(b, g, mantissa)
      case Some(c) => OtherActionIsFair(b, g, mantissa); AcceptKeeps(b, c);
      case None => ModeChangeIsFair(b, g, mantissa); AcceptKeeps(b, ModeChange(b, g, mantissa).value);
  }

  /** A command leaves the plane alone, and a non-modal action that uses axis words claims them. */
  predicate Fair(b: Block, c: Command) {
    && c.block.plane == 0 && c.block.system < 6 && c.block.command == b.command && c.block.groups == b.groups
    && (c.block.nonModal == b.nonModal || (c.group == 0 && (UsesAxes(c.block.nonModal) ==> c.claim == ForNonModal)))
  }

  lemma AxisUseIsFair(b: Block, g: nat, mantissa: nat)
    requires WellRead(b) && AxisUse(b, g, mantissa).Some?
    ensures Fair(b, AxisUse(b, g, mantissa).value)
  {
  }

  lemma OtherActionIsFair(b: Block, g: nat, mantissa: nat)
    requires WellRead(b) && OtherAction(b, g, mantissa).Some?
    ensures Fair(b, OtherAction(b, g, mantissa).value)
  {
  }

  lemma ModeChangeIsFair(b: Block, g: nat, mantissa: nat)
    requires WellRead(b) && ModeChange(b, g, mantissa).Some?
    ensures Fair(b, ModeChange(b, g, mantissa).value)
  {
  }

  /** The three non-modal actions that use axis words claim them. */
  predicate UsesAxes(n: NonModal) {
    n == SetCoordinates || n == SetOffset || n.GoHome?
  }

  lemma AcceptKeeps(b: Block, c: Command)
    requires WellRead(b) && Accept(b, c).Ok? && Fair(b, c)
    ensures WellRead(Accept(b, c).value)
  {
  }

  /** No line with a Z word is accepted, and none leaves the XY plane. */
  lemma {:induction false} AcceptedHasNoZ(b: Block, words: seq<Word>)
    requires WellRead(b) && ReadWords(b, words).Ok?
    ensures WellRead(ReadWords(b, words).value)
    ensures forall i :: 0 <= i < |words| ==> words[i].letter != 'Z'
    decreases |words|
  {
    if words != [] {
      WordKeeps(b, words[0]);
      AcceptedHasNoZ(ReadWord(b, words[0]).value, words[1..]);
      forall i | 0 <= i < |words|
        ensures words[i].letter != 'Z'
      {
        if 0 < i {
          assert words[i] == words[1..][i - 1];
        }
      }
    }
  }

  // ---------------------------------------------------------------------------------------------
  // Checking and converting

  predicate AxisWords(b: Block) {
    b.x.Some? || b.y.Some?
  }

  /** Value of an axis word in millimetres, zero if there is none. */
  function InMm(b: Block, v: Option<real>): real {
    if v.None? then 0.0 else if b.inches then v.value * MM_PER_INCH else v.value
  }

  /** What the block does, with its coordinates converted; errors end the line here. */
  datatype Action = Action(block: Block, command: AxisCommand, xyz: Point, ijk: Point, system: Point, index: nat)

  /** The coordinate system in force for the block. */
  function BlockSystem(b: Block, s: State): Point
    requires |s.memory| == 8 && b.system < 6
  {
    if 12 in b.groups && b.system != s.system then s.memory[b.system] else s.coordSystem
  }

  /** A target from an axis word and the modes in force. */
  function Target(b: Block, s: State, word: Option<real>, v: real, position: real, system: real, offset: real): real {
    if word.None? then position
    else if b.nonModal == Absolute then v
    else if b.incremental then v + position
    else v + system + offset
  }

  function Targets(b: Block, s: State): Point
    requires |s.memory| == 8 && b.system < 6
  {
    var system := BlockSystem(b, s);
    PlannerQueue.Point(
      Target(b, s, b.x, InMm(b, b.x), s.position.x, system.x, s.coordOffset.x),
      Target(b, s, b.y, InMm(b, b.y), s.position.y, system.y, s.coordOffset.y),
      s.position.z)
  }

  /** Where a home is stored. */
  function HomeSlot(second: bool): nat {
    if second then 7 else 6
  }

  function Convert(b: Block, s: State): (r: Result<Action>)
    requires |s.memory| == 8 && b.system < 6
    ensures r.Ok? ==> r.value.block == b && r.value.index < 6
  {
    var command := if AxisWords(b) && b.command == Unused then ForMotion else b.command;
    var system := BlockSystem(b, s);
    var raw := PlannerQueue.Point(InMm(b, b.x), InMm(b, b.y), 0.0);
    var none := PlannerQueue.Point(0.0, 0.0, 0.0);
    if command == ForToolLength && b.dynamicToolLength then Error
    else match b.nonModal
      case SetCoordinates =>
        var index := if 1.0 <= b.p then b.p.Floor - 1 else b.system;
        if !AxisWords(b) || ('P' !in b.letters && 'L' !in b.letters) || index > 5 || b.p < 0.0
          || (b.l != 2 && b.l != 20) then Error
        else
          var m := s.memory[index];
          var update := (w: Option<real>, v: real, kept: real, position: real, offset: real) =>
            if w.None? then kept else if b.l == 20 then position - offset - v else v;
          var x := update(b.x, raw.x, m.x, s.position.x, s.coordOffset.x);
          var y := update(b.y, raw.y, m.y, s.position.y, s.coordOffset.y);
          Checked(Action(b, command, raw, PlannerQueue.Point(x, y, m.z), system, index))
      case SetOffset =>
        if !AxisWords(b) then Error
        else
          Checked(Action(b, command,
                         PlannerQueue.Point(if b.x.Some? then s.position.x - system.x - raw.x else s.coordOffset.x,
                                            if b.y.Some? then s.position.y - system.y - raw.y else s.coordOffset.y,
                                            s.coordOffset.z), none, system, 0))
      case GoHome(second) =>
        var home := s.memory[HomeSlot(second)].(z := s.position.z);
        Checked(if AxisWords(b)
                then Action(b, command, Targets(b, s),
                            PlannerQueue.Point(if b.x.Some? then home.x else s.position.x,
                                               if b.y.Some? then home.y else s.position.y, home.z), system, 0)
                else Action(b, Unused, raw, home, system, 0))
      case _ =>
        if b.nonModal == Absolute && b.motion != Seek && b.motion != Linear then Error
        else
          Checked(Action(b, command, if command != ForToolLength && AxisWords(b) then Targets(b, s)
            else raw, none, system, 0))
  }

  /** The checks of the motion modes. */
  function Checked(a: Action): Result<Action> {
    if a.block.motion == NoMotion then (if AxisWords(a.block) then Error else Ok(a))
    else if a.command != ForMotion || AxisWords(a.block) then Ok(a)
    else if a.block.motion == Seek || a.block.motion == Linear then Ok(a.(command := Unused))
    else Error
  }

  // ---------------------------------------------------------------------------------------------
  // Executing

  /** Where the parser stands after a probe: unchanged, at the target, or where the machine is. */
  datatype Probed = Unmoved | AtTarget | AtMachine

  /**
   What a line meets outside the parser: whether some other check or the soft limits refuse it, the points of
   an arc in the plane, how a probe ends, and the machine position.
   */
  datatype World = World(refuse: bool, arc: seq<(real, real)>, probed: Probed, machine: Point)

  /** The points of an arc; along the axis perpendicular to the plane they are evenly spaced. */
  function ArcTargetsFrom(a: Action, from: Point, w: World): seq<Point> {
    var n := |w.arc| + 1;
    seq(|w.arc|, k requires 0 <= k < |w.arc| =>
      PlannerQueue.Point(w.arc[k].0, w.arc[k].1, Arc.Along(from.z, k + 1, (a.xyz.z - from.z) / n as real))) + [a.xyz]
  }

  /** Where a motion of the block starts. */
  function PlaceOfMotion(a: Action, s: State): Point {
    if a.block.nonModal.GoHome? then a.ijk else s.position
  }

  /** The lines planned for the motion of a block. */
  function MotionTargets(a: Action, from: Point, w: World): seq<Point> {
    if a.command != ForMotion then []
    else match a.block.motion
      case NoMotion => []
      case ClockwiseArc => ArcTargetsFrom(a, from, w)
      case CounterArc => ArcTargetsFrom(a, from, w)
      case _ => [a.xyz]
  }

  /** The lines planned for a block, in order. */
  function Planned(a: Action, s: State, w: World): seq<Point> {
    (if a.block.nonModal.GoHome? then (if a.command != Unused then [a.xyz] else []) + [a.ijk] else [])
    + MotionTargets(a, PlaceOfMotion(a, s), w)
  }

  /** The parser position after the motion of a block, if it has one. */
  function PositionAfter(a: Action, from: Point, w: World): Point {
    if a.command != ForMotion || a.block.motion == NoMotion then from
    else if a.block.motion != Probe || w.probed == AtTarget then a.xyz
    else if w.probed == AtMachine then w.machine
    else from
  }

  function MemoryAfter(a: Action, memory: seq<Point>, position: Point): (r: seq<Point>)
    requires |memory| == 8 && a.index < 6
    ensures |r| == 8
  {
    match a.block.nonModal
    case SetCoordinates => memory[a.index := a.ijk]
    case SetHome(second) => memory[HomeSlot(second) := position]
    case _ => memory
  }

  function SelectedSystem(a: Action, s: State): Point {
    if a.block.system != s.system then a.system else s.coordSystem
  }

  function SystemAfter(a: Action, selected: Point): Point {
    if a.block.nonModal == SetCoordinates && a.block.system == a.index then a.ijk else selected
  }

  function OffsetAfter(a: Action, offset: Point): Point {
    match a.block.nonModal
    case SetOffset => a.xyz
    case ResetOffset => PlannerQueue.Point(0.0, 0.0, 0.0)
    case _ => offset
  }

  /** The state after a block, updated in the order of execution. */
  function Updated(a: Action, s: State, w: World): (r: State)
    requires |s.memory| == 8 && a.index < 6
    ensures |r.memory| == 8
  {
    var b := a.block;
    State(PositionAfter(a, PlaceOfMotion(a, s), w), SystemAfter(a, SelectedSystem(a, s)), OffsetAfter(a, s.coordOffset),
          if a.command == ForToolLength then 0.0 else s.toolLength,
          b.motion, b.plane, b.incremental, b.inches, b.system, MemoryAfter(a, s.memory, s.position))
  }

  /** The end of a program restores some modes. */
  function Restored(s: State): State
    requires |s.memory| == 8
  {
    s.(motion := Linear, plane := 0, incremental := false, system := 0, coordSystem := s.memory[0])
  }

  function Executed(a: Action, s: State, w: World): State
    requires |s.memory| == 8 && a.index < 6
  {
    if a.block.ends then Restored(Updated(a, s, w)) else Updated(a, s, w)
  }

  /** A jog does not touch the modes; it is planned as it stands. */
  function Jogged(a: Action, s: State): Result<(State, seq<Point>)> {
    if a.block.groups <= {0, 3, 6} && (a.block.nonModal == NoAction || a.block.nonModal == Absolute)
    then Ok((s.(position := a.xyz), [a.xyz]))
    else Error
  }

  /** A line: the new state and the lines planned. A line in error changes nothing. */
  function Line(s: State, jog: bool, words: seq<Word>, w: World): (State, seq<Point>)
    requires |s.memory| == 8 && s.system < 6 && s.plane == 0
  {
    match ReadWords(FreshBlock(s, jog), words)
    case Error => (s, [])
    case Ok(b) =>
      AcceptedHasNoZ(FreshBlock(s, jog), words);
      if w.refuse then (s, [])
      else match Convert(b, s)
        case Error => (s, [])
        case Ok(a) =>
          if jog then (match Jogged(a, s) case Error => (s, []) case Ok(r) => r)
          else (Executed(a, s, w), Planned(a, s, w))
  }

  /** The parser itself: it updates its state in the order of execution. */
  class Parser {
    var position: Point
    var coordSystem: Point
    var coordOffset: Point
    var toolLength: real
    var motion: Motion
    var plane: nat
    var incremental: bool
    var inches: bool
    var system: nat
    var memory: seq<Point>

    function Modes(): State
      reads this
    {
      State(position, coordSystem, coordOffset, toolLength, motion, plane, incremental, inches, system, memory)
    }

    constructor (stored: seq<Point>)
      requires |stored| == 8
      ensures Modes() == State(PlannerQueue.Point(0.0, 0.0, 0.0), stored[0], PlannerQueue.Point(0.0, 0.0, 0.0), 0.0,
                               Seek, 0, false, false, 0, stored)
    {
      position, coordOffset := PlannerQueue.Point(0.0, 0.0, 0.0), PlannerQueue.Point(0.0, 0.0, 0.0);
      coordSystem, memory := stored[0], stored;
      toolLength, motion, plane, incremental, inches, system := 0.0, Seek, 0, false, false, 0;
    }

    /** Executes a line, and returns the lines planned for it. */
    method ExecuteLine(jog: bool, words: seq<Word>, w: World) returns (planned: seq<Point>)
      requires |memory| == 8 && system < 6 && plane == 0
      modifies this
      ensures (Modes(), planned) == Line(old(Modes()), jog, words, w)
    {
      var read := CollectWords(Modes(), jog, words);
      if read.Error? || w.refuse {
        return [];
      }
      AcceptedHasNoZ(FreshBlock(Modes(), jog), words);
      var converted := Convert(read.value, Modes());
      if converted.Error? {
        return [];
      }
      var a := converted.value;
      if jog {
        if a.block.groups <= {0, 3, 6} && (a.block.nonModal == NoAction || a.block.nonModal == Absolute) {
          position := a.xyz;
          return [a.xyz];
        }
        return [];
      }
      planned := ExecuteBlock(a, w);
    }

    method ExecuteBlock(a: Action, w: World) returns (planned: seq<Point>)
      requires |memory| == 8 && a.index < 6
      modifies this
      ensures Modes() == Executed(a, old(Modes()), w) && planned == Planned(a, old(Modes()), w)
    {
      planned := UpdateState(a, w);
      if a.block.ends {
        EndProgram();
      }
    }

    method EndProgram()
      requires |memory| == 8
      modifies this`motion, this`plane, this`incremental, this`system, this`coordSystem
      ensures Modes() == Restored(old(Modes()))
    {
      motion, plane, incremental, system := Linear, 0, false, 0;
      coordSystem := memory[0];
    }

    method UpdateState(a: Action, w: World) returns (planned: seq<Point>)
      requires |memory| == 8 && a.index < 6
      modifies this
      ensures Modes() == Updated(a, old(Modes()), w) && planned == Planned(a, old(Modes()), w)
    {
      SetModes(a);
      planned := ActNonModal(a);
      motion := a.block.motion;
      var moved := Move(a, w);
      planned := planned + moved;
    }

    /** Plane, units, tool length, coordinate system and distance mode, in that order. */
    method SetModes(a: Action)
      modifies this`plane, this`inches, this`toolLength, this`system, this`coordSystem, this`incremental
      ensures plane == a.block.plane && inches == a.block.inches && incremental == a.block.incremental
              && system == a.block.system
      ensures toolLength == if a.command == ForToolLength then 0.0 else old(toolLength)
      ensures coordSystem == if a.block.system != old(system) then a.system else old(coordSystem)
    {
      plane := a.block.plane;
      inches := a.block.inches;
      if a.command == ForToolLength {
        toolLength := 0.0;
      }
      if system != a.block.system {
        system := a.block.system;
        coordSystem := a.system;
      }
      incremental := a.block.incremental;
    }

    /** Stores coordinates or offsets, or goes to a stored position. */
    method ActNonModal(a: Action) returns (planned: seq<Point>)
      requires |memory| == 8 && a.index < 6
      requires system == a.block.system
      modifies this`memory, this`coordSystem, this`coordOffset, this`position
      ensures memory == MemoryAfter(a, old(memory), old(position))
      ensures coordSystem == SystemAfter(a, old(coordSystem))
      ensures coordOffset == OffsetAfter(a, old(coordOffset))
      ensures position == if a.block.nonModal.GoHome? then a.ijk else old(position)
      ensures planned == if a.block.nonModal.GoHome? then (if a.command != Unused then [a.xyz] else []) + [a.ijk]
                         else []
    {
      planned := [];
      match a.block.nonModal {
        case SetCoordinates =>
          memory := memory[a.index := a.ijk];
          if system == a.index {
            coordSystem := a.ijk;
          }
        case GoHome(second) =>
          if a.command != Unused {
            planned := [a.xyz];
          }
          planned := planned + [a.ijk];
          position := a.ijk;
        case SetHome(second) => memory := memory[HomeSlot(second) := position];
        case SetOffset => coordOffset := a.xyz;
        case ResetOffset => coordOffset := PlannerQueue.Point(0.0, 0.0, 0.0);
        case _ =>
      }
    }

    /** The motion of the block, if it has one. The parser is then at its target, except after a probe. */
    method Move(a: Action, w: World) returns (planned: seq<Point>)
      requires motion == a.block.motion
      modifies this`position
      ensures planned == MotionTargets(a, old(position), w)
      ensures position == PositionAfter(a, old(position), w)
    {
      planned := [];
      if motion != NoMotion && a.command == ForMotion {
        if motion == ClockwiseArc || motion == CounterArc {
          planned := ArcTargetsFrom(a, position, w);
        } else {
          planned := [a.xyz];
        }
        if motion != Probe || w.probed == AtTarget {
          position := a.xyz;
        } else if w.probed == AtMachine {
          position := w.machine;
        }
      }
    }
  }

  // ---------------------------------------------------------------------------------------------
  // No phantom Z

  /** The machine has no Z axis: the parser is at zero there, without an offset, and in the XY plane. */
  predicate Flat(s: State) {
    s.position.z == 0.0 && s.toolLength == 0.0 && s.plane == 0 && s.system < 6 && |s.memory| == 8
  }

  lemma ConvertIsFlat(b: Block, s: State)
    requires Flat(s) && WellRead(b) && Convert(b, s).Ok?
    ensures var a := Convert(b, s).value;
            && (b.nonModal.GoHome? ==> a.ijk.z == 0.0 && (a.command != Unused ==> a.xyz.z == 0.0))
            && (a.command == ForMotion ==> a.xyz.z == 0.0)
            && (b.nonModal == NoAction || b.nonModal == Absolute ==> a.xyz.z == 0.0)
  {
  }

  lemma ArcIsFlat(a: Action, s: State, w: World)
    requires PlaceOfMotion(a, s).z == 0.0 == a.xyz.z
    ensures forall k :: 0 <= k < |ArcTargetsFrom(a, PlaceOfMotion(a, s), w)| ==>
            ArcTargetsFrom(a, PlaceOfMotion(a, s), w)[k].z == 0.0
  {
  }

  lemma ExecutedIsFlat(a: Action, s: State, w: World)
    requires Flat(s) && WellRead(a.block) && a.index < 6 && w.machine.z == 0.0
    requires a.block.nonModal.GoHome? ==> a.ijk.z == 0.0 && (a.command != Unused ==> a.xyz.z == 0.0)
    requires a.command == ForMotion ==> a.xyz.z == 0.0
    ensures Flat(Executed(a, s, w))
    ensures forall k :: 0 <= k < |Planned(a, s, w)| ==> Planned(a, s, w)[k].z == 0.0
  {
    if a.command == ForMotion {
      ArcIsFlat(a, s, w);
    }
  }

  /** One line, g-code or jog, whatever the stored positions and offsets hold. */
  lemma LineIsFlat(s: State, jog: bool, words: seq<Word>, w: World)
    requires Flat(s) && w.machine.z == 0.0
    ensures Flat(Line(s, jog, words, w).0)
    ensures forall k :: 0 <= k < |Line(s, jog, words, w).1| ==> Line(s, jog, words, w).1[k].z == 0.0
  {
    match ReadWords(FreshBlock(s, jog), words)
    case Error =>
    case Ok(b) =>
      AcceptedHasNoZ(FreshBlock(s, jog), words);
      if Convert(b, s).Ok? {
        ConvertIsFlat(b, s);
        if !jog {
          ExecutedIsFlat(Convert(b, s).value, s, w);
        }
      }
  }

  /** A line as it is received: jog or g-code, its words, and what it meets. */
  datatype Input = Input(jog: bool, words: seq<Word>, world: World)

  predicate NoMotorZ(lines: seq<Input>) {
    forall j :: 0 <= j < |lines| ==> lines[j].world.machine.z == 0.0
  }

  /** The state after a program. It is flat again. */
  ghost function After(s: State, lines: seq<Input>): (r: State)
    requires Flat(s) && NoMotorZ(lines)
    ensures Flat(r)
    decreases |lines|
  {
    if lines == [] then s
    else
      LineIsFlat(s, lines[0].jog, lines[0].words, lines[0].world);
      After(Line(s, lines[0].jog, lines[0].words, lines[0].world).0, lines[1..])
  }

  /** A flat target moves the planner no step along Z. */
  lemma FlatTargetPlansNoZ(target: Point, position: PlannerQueue.Steps, scale: Point)
    requires target.z == 0.0 && position.z == 0
    ensures PlannerQueue.StepsOf(target, scale).z == 0
    ensures PlannerQueue.MoveBetween(position, PlannerQueue.StepsOf(target, scale)).stepsZ == 0
  {
  }

  // ---------------------------------------------------------------------------------------------
  // Work coordinates

  /** Position in the plane as the operator sees it. */
  function WorkX(s: State): real {
    s.position.x - s.coordSystem.x - s.coordOffset.x
  }

  function WorkY(s: State): real {
    s.position.y - s.coordSystem.y - s.coordOffset.y
  }

  /** The coordinate system of a block is the one in force unless the block selects another. */
  predicate SystemRead(b: Block, s: State) {
    12 !in b.groups ==> b.system == s.system
  }

  /**
   Setting an offset (G92), or a coordinate system from the current position (G10 L20), makes the current
   position read as programmed, in the units of the line and even when the line changes the coordinate system.
   */
  lemma OffsetsTakeEffect(b: Block, s: State, w: World)
    requires |s.memory| == 8 && WellRead(b) && SystemRead(b, s) && Convert(b, s).Ok? && !b.ends
    requires || b.nonModal == SetOffset
             || (b.nonModal == SetCoordinates && b.l == 20 && Convert(b, s).value.index == b.system)
    ensures var r := Executed(Convert(b, s).value, s, w);
            && r.position == s.position
            && (b.x.Some? ==> WorkX(r) == InMm(b, b.x))
            && (b.y.Some? ==> WorkY(r) == InMm(b, b.y))
  {
  }

  /** An absolute move ends where the operator will read the programmed value. */
  lemma AbsoluteMoveReadsBack(b: Block, s: State, w: World)
    requires |s.memory| == 8 && WellRead(b) && SystemRead(b, s) && Convert(b, s).Ok? && !b.ends && AxisWords(b)
    requires b.nonModal == NoAction && !b.incremental && (b.motion == Seek || b.motion == Linear)
    requires b.command == Unused || b.command == ForMotion
    ensures var a := Convert(b, s).value;
            && (b.x.Some? ==> WorkX(Executed(a, s, w)) == InMm(b, b.x))
            && (b.y.Some? ==> WorkY(Executed(a, s, w)) == InMm(b, b.y))
            && Planned(a, s, w) == [a.xyz] && Executed(a, s, w).position == a.xyz
  {
  }

  /** G28.1 or G30.1. */
  predicate StoringWord(w: Word, second: bool) {
    w.letter == 'G' && w.whole == (if second then 30 else 28) && w.mantissa == 10
  }

  predicate StoresHome(words: seq<Word>, second: bool) {
    exists i :: 0 <= i < |words| && StoringWord(words[i], second)
  }

  lemma WordStores(b: Block, w: Word, second: bool)
    requires ReadWord(b, w).Ok? && ReadWord(b, w).value.nonModal == SetHome(second)
    ensures b.nonModal == SetHome(second) || StoringWord(w, second)
  {
    if w.letter == 'G' {
      CommandStores(b, w.whole, w.mantissa, second);
    } else if w.letter != 'M' {
      ValueStores(b, w);
    }
  }

  lemma ValueStores(b: Block, w: Word)
    requires ReadValue(b, w).Ok?
    ensures ReadValue(b, w).value.nonModal == b.nonModal
  {
  }

  lemma CommandStores(b: Block, g: nat, mantissa: nat, second: bool)
    requires ReadCommand(b, g, mantissa).Ok? && ReadCommand(b, g, mantissa).value.nonModal == SetHome(second)
    ensures b.nonModal == SetHome(second) || (g == (if second then 30 else 28) && mantissa == 10)
  {
    hide AxisUse, OtherAction, ModeChange;
    match AxisUse(b, g, mantissa)
    case Some(c) => AxisUseStores(b, g, mantissa);
    case None =>
      match OtherAction(b, g, mantissa)
      case Some(c) => OtherActionStores(b, g, mantissa, second);
      case None => ModeChangeStores(b, g, mantissa);
  }

  lemma AxisUseStores(b: Block, g: nat, mantissa: nat)
    requires AxisUse(b, g, mantissa).Some?
    ensures var n := AxisUse(b, g, mantissa).value.block.nonModal; n.SetHome? ==> n == b.nonModal
  {
  }

  lemma OtherActionStores(b: Block, g: nat, mantissa: nat, second: bool)
    requires OtherAction(b, g, mantissa).Some? && OtherAction(b, g, mantissa).value.block.nonModal == SetHome(second)
    ensures g == (if second then 30 else 28) && mantissa == 10
  {
  }

  lemma ModeChangeStores(b: Block, g: nat, mantissa: nat)
    requires ModeChange(b, g, mantissa).Some?
    ensures ModeChange(b, g, mantissa).value.block.nonModal == b.nonModal
  {
  }

  /** Only that word makes a line store a home. */
  lemma {:induction false} WordsStore(b: Block, words: seq<Word>, second: bool)
    requires ReadWords(b, words).Ok? && ReadWords(b, words).value.nonModal == SetHome(second)
    ensures b.nonModal == SetHome(second) || StoresHome(words, second)
    decreases |words|
  {
    if words != [] {
      var c := ReadWord(b, words[0]).value;
      WordsStore(c, words[1..], second);
      if c.nonModal == SetHome(second) {
        WordStores(b, words[0], second);
      } else {
        var i :| 0 <= i < |words[1..]| && StoringWord(words[1..][i], second);
        assert StoringWord(words[i + 1], second);
      }
    }
  }

  lemma LineKeepsHome(s: State, line: Input, second: bool)
    requires Flat(s) && !StoresHome(line.words, second)
    ensures var r := Line(s, line.jog, line.words, line.world).0;
            |r.memory| == 8 && r.memory[HomeSlot(second)] == s.memory[HomeSlot(second)]
  {
    var b := FreshBlock(s, line.jog);
    if ReadWords(b, line.words).Ok? {
      AcceptedHasNoZ(b, line.words);
      if ReadWords(b, line.words).value.nonModal == SetHome(second) {
        WordsStore(b, line.words, second);
      }
    }
  }

  lemma {:induction false} LinesKeepHome(s: State, lines: seq<Input>, second: bool)
    requires Flat(s) && NoMotorZ(lines) && forall j :: 0 <= j < |lines| ==> !StoresHome(lines[j].words, second)
    ensures After(s, lines).memory[HomeSlot(second)] == s.memory[HomeSlot(second)]
    decreases |lines|
  {
    if lines != [] {
      LineIsFlat(s, lines[0].jog, lines[0].words, lines[0].world);
      LineKeepsHome(s, lines[0], second);
      LinesKeepHome(Line(s, lines[0].jog, lines[0].words, lines[0].world).0, lines[1..], second);
    }
  }

  /** The state after a block that stores a home. */
  lemma HomeIsStored(b: Block, s: State, w: World)
    requires Flat(s) && WellRead(b) && Convert(b, s).Ok? && b.nonModal.SetHome? && w.machine.z == 0.0
    ensures var r := Executed(Convert(b, s).value, s, w);
            Flat(r) && r.memory[HomeSlot(b.nonModal.second)] == s.position
  {
    ConvertIsFlat(b, s);
    ExecutedIsFlat(Convert(b, s).value, s, w);
  }

  /**
   A stored home is gone to exactly, whatever lines come in between that do not store it anew, and whatever offsets,
   units and modes are in force by then. Given axis words, the move goes by way of the programmed target, and only
   the axes named go home; the others stay where they are.
   */
  lemma StoredHomeIsReached(b: Block, s: State, w: World, between: seq<Input>, b': Block, w': World)
    requires Flat(s) && WellRead(b) && Convert(b, s).Ok? && b.nonModal.SetHome? && w.machine.z == 0.0
    requires NoMotorZ(between)
    requires forall j :: 0 <= j < |between| ==> !StoresHome(between[j].words, b.nonModal.second)
    requires WellRead(b') && b'.nonModal == GoHome(b.nonModal.second)
    ensures var r := Executed(Convert(b, s).value, s, w);
            && Flat(r)
            && var s' := After(r, between);
               Convert(b', s').Ok? ==>
                 var a := Convert(b', s').value;
                 var q, planned := Executed(a, s', w').position, Planned(a, s', w');
                 && q.x == (if b'.x.Some? || !AxisWords(b') then s.position.x else s'.position.x)
                 && q.y == (if b'.y.Some? || !AxisWords(b') then s.position.y else s'.position.y)
                 && planned == (if AxisWords(b') then [Targets(b', s')] else []) + [q]
                 && (b'.x.None? ==> Targets(b', s').x == s'.position.x)
                 && (b'.y.None? ==> Targets(b', s').y == s'.position.y)
  {
    HomeIsStored(b, s, w);
    var s' := After(Executed(Convert(b, s).value, s, w), between);
    LinesKeepHome(Executed(Convert(b, s).value, s, w), between, b.nonModal.second);
    if Convert(b', s').Ok? {
      GoesHome(b', s', w');
    }
  }

  lemma GoesHome(b: Block, s: State, w: World)
    requires |s.memory| == 8 && WellRead(b) && Convert(b, s).Ok? && b.nonModal.GoHome?
    ensures var a, home := Convert(b, s).value, s.memory[HomeSlot(b.nonModal.second)];
            && Executed(a, s, w).position == a.ijk
            && Planned(a, s, w) == (if AxisWords(b) then [Targets(b, s)] else []) + [a.ijk]
            && a.ijk.x == (if b.x.Some? || !AxisWords(b) then home.x else s.position.x)
            && a.ijk.y == (if b.y.Some? || !AxisWords(b) then home.y else s.position.y)
  {
  }

  /** A straight move leaves an axis it does not name where it is. */
  lemma UnnamedAxisStays(b: Block, s: State, w: World)
    requires |s.memory| == 8 && WellRead(b) && Convert(b, s).Ok?
    requires (b.motion == Seek || b.motion == Linear) && !b.nonModal.GoHome?
    ensures var a := Convert(b, s).value;
            && (b.x.None? ==> PositionAfter(a, s.position, w).x == s.position.x)
            && (b.y.None? ==> PositionAfter(a, s.position, w).y == s.position.y)
            && forall k :: 0 <= k < |Planned(a, s, w)| ==>
                 && (b.x.None? ==> Planned(a, s, w)[k].x == s.position.x)
                 && (b.y.None? ==> Planned(a, s, w)[k].y == s.position.y)
  {
  }

  /**
   A jog does so only if it names some axis. One that names none is accepted, and goes to machine zero: an axis
   stays exactly when another is named or it is at zero already.
   */
  lemma UnnamedAxisInJog(b: Block, s: State)
    requires |s.memory| == 8 && WellRead(b) && b.motion == Linear && b.command != ForToolLength
    requires Convert(b, s).Ok? && Jogged(Convert(b, s).value, s).Ok?
    ensures var (r, planned) := Jogged(Convert(b, s).value, s).value;
            && |planned| == 1 && planned[0] == r.position
            && (b.x.None? ==> (r.position.x == s.position.x <==> AxisWords(b) || s.position.x == 0.0))
            && (b.y.None? ==> (r.position.y == s.position.y <==> AxisWords(b) || s.position.y == 0.0))
  {
  }

  /** For example, a jog with nothing but a feed rate. */
  lemma JogWithoutAxes(s: State, w: World)
    requires Flat(s) && !w.refuse
    ensures var (r, planned) := Line(s, true, [Word('F', 100, 0, 100.0)], w);
            planned == [PlannerQueue.Point(0.0, 0.0, 0.0)] && r.position == planned[0]
  {
    var b := FreshBlock(s, true);
    var words := [Word('F', 100, 0, 100.0)];
    assert b.letters + {'F'} == {'F'};
    assert ReadWord(b, words[0]) == Ok(b.(letters := {'F'}));
    assert ReadWords(b.(letters := {'F'}), words[1..]) == Ok(b.(letters := {'F'}));
  }

  /** Incremental moves by opposite amounts cancel, whatever offsets are in force. */
  lemma IncrementalMovesCancel(b: Block, s: State, w: World, b': Block, w': World)
    requires |s.memory| == 8 && WellRead(b) && WellRead(b') && Convert(b, s).Ok? && !b.ends
    requires b.x.Some? && b.y.Some? && b'.x.Some? && b'.y.Some?
    requires b.nonModal == NoAction && b.incremental && (b.motion == Seek || b.motion == Linear)
    requires b'.nonModal == NoAction && b'.incremental && (b'.motion == Seek || b'.motion == Linear)
    requires b.command in {Unused, ForMotion} && b'.command in {Unused, ForMotion}
    requires InMm(b', b'.x) == -InMm(b, b.x) && InMm(b', b'.y) == -InMm(b, b.y)
    ensures var r := Executed(Convert(b, s).value, s, w);
            && |r.memory| == 8 && Convert(b', r).Ok?
            && r.position.x == s.position.x + InMm(b, b.x) && r.position.y == s.position.y + InMm(b, b.y)
            && Executed(Convert(b', r).value, r, w').position == s.position
  {
  }
}
