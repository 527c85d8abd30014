/** Where a line of g-code leads, told from its words and the modes in force before it. */
module Lines {
  import opened Results
  import opened Gcode
  import opened Words
  import PlannerQueue

  // ---------------------------------------------------------------------------------------------
  // Modes and targets

  /** The line has this command. */
  ghost predicate Has(words: seq<Word>, g: nat) {
    exists i :: 0 <= i < |words| && words[i].letter == 'G' && words[i].whole == g && words[i].mantissa == 0
  }

  /** A line is read as inches after G20, as millimetres after G21. */
  ghost predicate InInches(s: State, words: seq<Word>) {
    Has(words, 20) || (s.inches && !Has(words, 21))
  }

  ghost predicate IsIncremental(s: State, words: seq<Word>) {
    Has(words, 91) || (s.incremental && !Has(words, 90))
  }

  /** G54 to G59 select the six coordinate systems. */
  ghost function SystemOf(s: State, words: seq<Word>): nat {
    if Has(words, 54) then 0
    else if Has(words, 55) then 1
    else if Has(words, 56) then 2
    else if Has(words, 57) then 3
    else if Has(words, 58) then 4
    else if Has(words, 59) then 5
    else s.system
  }

  lemma HasSays(b: Block, words: seq<Word>, c: Block, g: nat)
    requires Understood(b, words, c) && Has(words, g)
    ensures SaysMode(g, 0, c) && SaysAction(g, 0, c)
  {
    var i :| 0 <= i < |words| && words[i].letter == 'G' && words[i].whole == g && words[i].mantissa == 0;
    assert Says(words[i], c);
  }

  lemma GroupTells(w: Word)
    ensures GroupOf(w) == Some(3) ==> w.letter == 'G' && w.mantissa == 0 && w.whole in {90, 91}
    ensures GroupOf(w) == Some(6) ==> w.letter == 'G' && w.mantissa == 0 && w.whole in {20, 21}
  {
  }

  /** A mode is set by one of two commands, or it stays. */
  lemma OnlyThese(words: seq<Word>, k: nat, g: nat, h: nat)
    requires (k, g, h) in {(3, 90, 91), (6, 20, 21)} && !Has(words, g) && !Has(words, h)
    ensures NoneOccupies(words, Group(k))
  {
    forall i | 0 <= i < |words|
      ensures !Occupies(words[i], Group(k))
    {
      GroupTells(words[i]);
    }
  }

  lemma NoSystemWord(words: seq<Word>)
    requires !Has(words, 54) && !Has(words, 55) && !Has(words, 56) && !Has(words, 57) && !Has(words, 58)
    requires !Has(words, 59)
    ensures NoneOccupies(words, Group(12))
  {
    forall i | 0 <= i < |words|
      ensures !Occupies(words[i], Group(12))
    {
      if GroupOf(words[i]) == Some(12) {
        assert Has(words, words[i].whole);
      }
    }
  }

  lemma UnitsRead(a: Block, words: seq<Word>, b: Block)
    requires Understood(a, words, b)
    ensures b.inches == (Has(words, 20) || (a.inches && !Has(words, 21)))
  {
    hide Has, NoneOccupies, Says, Occupies, Taken;
    if Has(words, 20) {
      HasSays(a, words, b, 20);
    } else if Has(words, 21) {
      HasSays(a, words, b, 21);
    } else {
      OnlyThese(words, 6, 20, 21);
      assert Same(Group(6), a, b);
    }
  }

  lemma DistanceRead(a: Block, words: seq<Word>, b: Block)
    requires Understood(a, words, b)
    ensures b.incremental == (Has(words, 91) || (a.incremental && !Has(words, 90)))
  {
    hide Has, NoneOccupies, Says, Occupies, Taken;
    if Has(words, 91) {
      HasSays(a, words, b, 91);
    } else if Has(words, 90) {
      HasSays(a, words, b, 90);
    } else {
      OnlyThese(words, 3, 90, 91);
      assert Same(Group(3), a, b);
    }
  }

  lemma SystemIsRead(s: State, a: Block, words: seq<Word>, b: Block)
    requires Understood(a, words, b) && a.system == s.system && a.groups == {}
    ensures b.system == SystemOf(s, words) && SystemRead(b, s)
  {
    hide Has, Says, Occupies;
    if Has(words, 54) {
      HasSays(a, words, b, 54);
    } else if Has(words, 55) {
      HasSays(a, words, b, 55);
    } else if Has(words, 56) {
      HasSays(a, words, b, 56);
    } else if Has(words, 57) {
      HasSays(a, words, b, 57);
    } else if Has(words, 58) {
      HasSays(a, words, b, 58);
    } else if Has(words, 59) {
      HasSays(a, words, b, 59);
    } else {
      NoSystemWord(words);
      assert Same(Group(12), a, b);
    }
    if 12 !in b.groups {
      assert !Taken(b, Group(12));
      assert Same(Group(12), a, b);
    }
  }

  /** The modes a line is read in: those its words set, and otherwise those in force. */
  lemma ModesRead(s: State, jog: bool, words: seq<Word>)
    requires ReadWords(FreshBlock(s, jog), words).Ok?
    ensures var b := ReadWords(FreshBlock(s, jog), words).value;
            b.inches == InInches(s, words) && b.incremental == IsIncremental(s, words)
            && b.system == SystemOf(s, words) && SystemRead(b, s)
  {
    var a, b := FreshBlock(s, jog), ReadWords(FreshBlock(s, jog), words).value;
    LineIsUnderstood(a, words);
    hide Understood, Has, SystemOf, SystemRead;
    UnitsRead(a, words, b);
    DistanceRead(a, words, b);
    SystemIsRead(s, a, words, b);
  }

  /** What a motion command selects. */
  ghost predicate Selects(words: seq<Word>, before: Motion, motion: Motion) {
    && (Has(words, 0) ==> motion == Seek)
    && (Has(words, 1) ==> motion == Linear)
    && (Has(words, 2) ==> motion == ClockwiseArc)
    && (Has(words, 3) ==> motion == CounterArc)
    && (Has(words, 80) ==> motion == NoMotion)
    && (NoneOccupies(words, Group(1)) ==> motion == before)
  }

  lemma MotionRead(s: State, jog: bool, words: seq<Word>)
    requires ReadWords(FreshBlock(s, jog), words).Ok?
    ensures Selects(words, if jog then Linear else s.motion, ReadWords(FreshBlock(s, jog), words).value.motion)
  {
    var a, b := FreshBlock(s, jog), ReadWords(FreshBlock(s, jog), words).value;
    LineIsUnderstood(a, words);
    hide Says, Occupies, Taken, Has;
    forall g | g in {0, 1, 2, 3, 80} && Has(words, g)
      ensures SaysMode(g, 0, b)
    {
      HasSays(a, words, b, g);
    }
    assert NoneOccupies(words, Group(1)) ==> Same(Group(1), a, b);
  }

  /** The axis words. */
  ghost predicate AxesRead(words: seq<Word>, b: Block) {
    && (forall i :: 0 <= i < |words| ==> words[i].letter == 'X' ==> b.x == Some(words[i].value))
    && (forall i :: 0 <= i < |words| ==> words[i].letter == 'Y' ==> b.y == Some(words[i].value))
    && (Lacks(words, 'X') ==> b.x.None?)
    && (Lacks(words, 'Y') ==> b.y.None?)
  }

  ghost predicate Lacks(words: seq<Word>, letter: char) {
    forall i :: 0 <= i < |words| ==> words[i].letter != letter
  }

  lemma AxesAreRead(s: State, jog: bool, words: seq<Word>)
    requires ReadWords(FreshBlock(s, jog), words).Ok?
    ensures AxesRead(words, ReadWords(FreshBlock(s, jog), words).value)
  {
    var a, b := FreshBlock(s, jog), ReadWords(FreshBlock(s, jog), words).value;
    LineIsUnderstood(a, words);
    hide Taken, GroupOf, ClaimOf, Commands;
    assert Lacks(words, 'X') ==> NoneOccupies(words, Letter('X')) && Same(Letter('X'), a, b);
    assert Lacks(words, 'Y') ==> NoneOccupies(words, Letter('Y')) && Same(Letter('Y'), a, b);
    forall i | 0 <= i < |words|
      ensures words[i].letter == 'X' ==> b.x == Some(words[i].value)
      ensures words[i].letter == 'Y' ==> b.y == Some(words[i].value)
    {
      assert Says(words[i], b);
    }
  }

  /** The action of a line, if any, is that of its word. */
  lemma ActionRead(s: State, jog: bool, words: seq<Word>)
    requires ReadWords(FreshBlock(s, jog), words).Ok?
    ensures var b := ReadWords(FreshBlock(s, jog), words).value;
            && (Has(words, 53) ==> b.nonModal == Absolute)
            && (Has(words, 92) ==> b.nonModal == SetOffset)
            && (b.nonModal == Absolute ==> Has(words, 53))
  {
    var a, b := FreshBlock(s, jog), ReadWords(FreshBlock(s, jog), words).value;
    LineIsUnderstood(a, words);
    if Has(words, 53) {
      HasSays(a, words, b, 53);
    }
    if Has(words, 92) {
      HasSays(a, words, b, 92);
    }
    if b.nonModal == Absolute {
      assert !Same(Group(0), a, b);
      var i :| 0 <= i < |words| && Occupies(words[i], Group(0));
      assert Says(words[i], b);
    }
  }

  // ---------------------------------------------------------------------------------------------
  // Where a line leads

  /** The coordinate system in force is the stored one that is selected. */
  predicate InForce(s: State) {
    |s.memory| == 8 && s.system < 6 && s.plane == 0 && s.coordSystem == s.memory[s.system]
  }

  /** The line is read, not refused, and passes all checks. */
  predicate Accepted(s: State, jog: bool, words: seq<Word>, w: World)
    requires InForce(s)
  {
    && ReadWords(FreshBlock(s, jog), words).Ok? && !w.refuse
    && (AcceptedHasNoZ(FreshBlock(s, jog), words);
        var b := ReadWords(FreshBlock(s, jog), words).value;
        Convert(b, s).Ok? && (jog ==> Jogged(Convert(b, s).value, s).Ok?))
  }

  /** Where the value of an axis word leads: in machine coordinates, from the position, or in work coordinates. */
  ghost function Goal(s: State, words: seq<Word>, value: real, position: real, system: real, offset: real): real {
    var mm := if InInches(s, words) then value * MM_PER_INCH else value;
    if Has(words, 53) then mm else if IsIncremental(s, words) then position + mm else mm + system + offset
  }

  /** The position `p` is where the axis words lead, in the coordinate system the line selects. */
  ghost predicate Reached(s: State, words: seq<Word>, p: Point)
    requires InForce(s) && SystemOf(s, words) < 6
  {
    var system := s.memory[SystemOf(s, words)];
    && (forall i :: 0 <= i < |words| ==> words[i].letter == 'X' ==>
          p.x == Goal(s, words, words[i].value, s.position.x, system.x, s.coordOffset.x))
    && (forall i :: 0 <= i < |words| ==> words[i].letter == 'Y' ==>
          p.y == Goal(s, words, words[i].value, s.position.y, system.y, s.coordOffset.y))
    && (Lacks(words, 'X') ==> p.x == s.position.x)
    && (Lacks(words, 'Y') ==> p.y == s.position.y)
    && p.z == s.position.z
  }

  lemma SystemIsKnown(s: State, words: seq<Word>)
    requires InForce(s)
    ensures SystemOf(s, words) < 6
  {
  }

  lemma TargetsAreReached(s: State, jog: bool, words: seq<Word>)
    requires InForce(s) && ReadWords(FreshBlock(s, jog), words).Ok?
    ensures var b := ReadWords(FreshBlock(s, jog), words).value;
            b.system < 6 && SystemOf(s, words) < 6 && Reached(s, words, Targets(b, s))
  {
    var b := ReadWords(FreshBlock(s, jog), words).value;
    AcceptedHasNoZ(FreshBlock(s, jog), words);
    ModesRead(s, jog, words);
    AxesAreRead(s, jog, words);
    ActionRead(s, jog, words);
    hide ReadWords, FreshBlock, Has, InInches, IsIncremental, SystemOf;
    SystemForce(b, s);
  }

  lemma SystemForce(b: Block, s: State)
    requires InForce(s) && b.system < 6 && SystemRead(b, s)
    ensures BlockSystem(b, s) == s.memory[b.system]
  {
  }

  /** No word of the line uses the axis words for anything but a motion. */
  ghost predicate OnlyMoves(words: seq<Word>) {
    forall i :: 0 <= i < |words| ==> ClaimOf(words[i]) == Unused || ClaimOf(words[i]) == ForMotion
  }

  lemma ClaimRead(s: State, jog: bool, words: seq<Word>)
    requires InForce(s) && ReadWords(FreshBlock(s, jog), words).Ok? && OnlyMoves(words)
    ensures var b := ReadWords(FreshBlock(s, jog), words).value;
            (b.command == Unused || b.command == ForMotion) && !UsesAxes(b.nonModal)
  {
    var a, b := FreshBlock(s, jog), ReadWords(FreshBlock(s, jog), words).value;
    LineIsUnderstood(a, words);
    AcceptedHasNoZ(a, words);
    if b.command != Unused {
      var i := ClaimedBy(a, words, b);
    }
  }

  /** The motion in force for the line goes to a target, straight or along an arc. */
  predicate Travels(motion: Motion) {
    motion == Seek || motion == Linear || motion == ClockwiseArc || motion == CounterArc
  }

  /**
   An accepted line that moves leads where its axis words say: with G53 to the value in machine coordinates, with G91
   by the value from where the parser stood, with G90 to the value in work coordinates, and in the units of the
   line. Modes the line does not set are those in force. An axis it does not name stays.
   */
  lemma LineLeads(s: State, words: seq<Word>, w: World)
    requires InForce(s) && Accepted(s, false, words, w) && OnlyMoves(words)
    requires !Lacks(words, 'X') || !Lacks(words, 'Y')
    requires Travels(ReadWords(FreshBlock(s, false), words).value.motion)
    ensures var motion, (r, planned) := ReadWords(FreshBlock(s, false), words).value.motion, Line(s, false, words, w);
            && SystemOf(s, words) < 6 && Selects(words, s.motion, motion) && Reached(s, words, r.position)
            && planned != [] && planned[|planned| - 1] == r.position
            && (motion == Seek || motion == Linear ==> planned == [r.position])
  {
    var b := ReadWords(FreshBlock(s, false), words).value;
    TargetsAreReached(s, false, words);
    ClaimRead(s, false, words);
    MotionRead(s, false, words);
    AxesAreRead(s, false, words);
    SomeAxis(words, b);
    hide ReadWords, FreshBlock, Reached, Selects, Targets, OnlyMoves, Lacks;
    Converted(b, s);
  }

  lemma SomeAxis(words: seq<Word>, b: Block)
    requires AxesRead(words, b) && (!Lacks(words, 'X') || !Lacks(words, 'Y'))
    ensures AxisWords(b)
  {
  }

  lemma Converted(b: Block, s: State)
    requires |s.memory| == 8 && b.system < 6 && Convert(b, s).Ok? && AxisWords(b) && !UsesAxes(b.nonModal)
    requires b.command == Unused || b.command == ForMotion
    ensures var a := Convert(b, s).value; a.block == b && a.command == ForMotion && a.xyz == Targets(b, s)
  {
  }

  /** The same of a jog, which leaves all modes as they are. */
  lemma JogLeads(s: State, words: seq<Word>, w: World)
    requires InForce(s) && Accepted(s, true, words, w)
    requires !Lacks(words, 'X') || !Lacks(words, 'Y')
    ensures var (r, planned) := Line(s, true, words, w);
            && SystemOf(s, words) < 6 && Reached(s, words, r.position) && planned == [r.position]
            && r == s.(position := r.position)
  {
    var b := ReadWords(FreshBlock(s, true), words).value;
    TargetsAreReached(s, true, words);
    AxesAreRead(s, true, words);
    SomeAxis(words, b);
    JogClaims(s, words);
    hide ReadWords, FreshBlock, Reached, Targets, Lacks;
    Converted(b, s);
  }

  lemma ClaimTells(w: Word, b: Block)
    requires Says(w, b) && GroupOf(w).Some? && ClaimOf(w) != Unused
    ensures GroupOf(w).value in {0, 1, 8} && (GroupOf(w).value == 0 ==> UsesAxes(b.nonModal))
  {
  }

  lemma GroupsSeen(a: Block, words: seq<Word>, b: Block, i: nat)
    requires Understood(a, words, b) && i < |words| && words[i].letter == 'G'
    ensures GroupOf(words[i]).Some? && GroupOf(words[i]).value in b.groups
  {
    hide Says, Same;
    assert Occupies(words[i], Group(GroupOf(words[i]).value));
    assert Taken(b, Group(GroupOf(words[i]).value));
  }

  /** The axis words are claimed by one of the words. */
  lemma ClaimedBy(a: Block, words: seq<Word>, b: Block) returns (i: nat)
    requires Understood(a, words, b) && a.command == Unused && b.command != Unused
    ensures i < |words| && words[i].letter == 'G' && ClaimOf(words[i]) == b.command && Says(words[i], b)
  {
    assert Taken(b, Axes) && !Taken(a, Axes);
    i :| 0 <= i < |words| && Occupies(words[i], Axes);
    assert Says(words[i], b);
  }

  /** A jog has no commands but those for distance, units and machine coordinates. */
  lemma JogClaims(s: State, words: seq<Word>)
    requires ReadWords(FreshBlock(s, true), words).Ok?
    requires var b := ReadWords(FreshBlock(s, true), words).value;
             b.groups <= {0, 3, 6} && (b.nonModal == NoAction || b.nonModal == Absolute)
    ensures ReadWords(FreshBlock(s, true), words).value.command == Unused
  {
    var a, b := FreshBlock(s, true), ReadWords(FreshBlock(s, true), words).value;
    LineIsUnderstood(a, words);
    hide Understood, ReadWords, FreshBlock, Says, GroupOf, ClaimOf;
    if b.command != Unused {
      var i := ClaimedBy(a, words, b);
      GroupsSeen(a, words, b, i);
      ClaimTells(words[i], b);
    }
  }

  /** The line ends the program. */
  ghost predicate Ends(words: seq<Word>) {
    exists i :: 0 <= i < |words| && words[i].letter == 'M' && words[i].mantissa == 0 && words[i].whole in {2, 30}
  }

  /**
   A mode set by a line stays for the lines after it; a jog sets none, a refused line neither, and the end of a program
   restores all but the units.
   */
  lemma ModesStay(s: State, jog: bool, words: seq<Word>, w: World)
    requires InForce(s)
    ensures var r := Line(s, jog, words, w).0;
            if jog || !Accepted(s, jog, words, w) then r == s.(position := r.position)
            else
              && r.inches == InInches(s, words)
              && r.incremental == (IsIncremental(s, words) && !Ends(words))
              && r.system == (if Ends(words) then 0 else SystemOf(s, words))
              && if Ends(words) then r.motion == Linear else Selects(words, s.motion, r.motion)
  {
    if !jog && ReadWords(FreshBlock(s, jog), words).Ok? {
      AcceptedHasNoZ(FreshBlock(s, jog), words);
      ModesRead(s, jog, words);
      MotionRead(s, jog, words);
      EndsRead(s, jog, words);
      hide ReadWords, FreshBlock, Has, SystemOf, Selects, InInches, IsIncremental, Ends;
    }
  }

  lemma EndsRead(s: State, jog: bool, words: seq<Word>)
    requires ReadWords(FreshBlock(s, jog), words).Ok?
    ensures ReadWords(FreshBlock(s, jog), words).value.ends <==> Ends(words)
  {
    var a, b := FreshBlock(s, jog), ReadWords(FreshBlock(s, jog), words).value;
    LineIsUnderstood(a, words);
    if Ends(words) {
      var i :| 0 <= i < |words| && words[i].letter == 'M' && words[i].mantissa == 0 && words[i].whole in {2, 30};
      assert Says(words[i], b);
    }
    if b.ends {
      assert !Same(Group(104), a, b);
      var i :| 0 <= i < |words| && Occupies(words[i], Group(104));
      assert Says(words[i], b);
    }
  }

  /** The coordinate system in force stays the stored one that is selected. */
  lemma SystemStaysInForce(s: State, jog: bool, words: seq<Word>, w: World)
    requires InForce(s)
    ensures InForce(Line(s, jog, words, w).0)
  {
    if ReadWords(FreshBlock(s, jog), words).Ok? {
      AcceptedHasNoZ(FreshBlock(s, jog), words);
      ModesRead(s, jog, words);
      hide ReadWords, FreshBlock, Has, SystemOf, InInches, IsIncremental;
      var b := ReadWords(FreshBlock(s, jog), words).value;
      SystemForce(b, s);
      hide BlockSystem;
      if Convert(b, s).Ok? {
        ConvertedSystem(b, s);
      }
    }
  }

  lemma ConvertedSystem(b: Block, s: State)
    requires |s.memory| == 8 && b.system < 6 && Convert(b, s).Ok?
    ensures Convert(b, s).value.system == BlockSystem(b, s)
  {
  }

  /** After G92 the position reads as programmed, in the units of the line. */
  lemma OffsetIsSet(s: State, words: seq<Word>, w: World)
    requires InForce(s) && Accepted(s, false, words, w) && Has(words, 92) && !Ends(words)
    ensures var r := Line(s, false, words, w).0;
            && r.position == s.position
            && (forall i :: 0 <= i < |words| ==> words[i].letter == 'X' ==>
                  WorkX(r) == if InInches(s, words) then words[i].value * MM_PER_INCH else words[i].value)
            && (forall i :: 0 <= i < |words| ==> words[i].letter == 'Y' ==>
                  WorkY(r) == if InInches(s, words) then words[i].value * MM_PER_INCH else words[i].value)
  {
    var b := ReadWords(FreshBlock(s, false), words).value;
    AcceptedHasNoZ(FreshBlock(s, false), words);
    ModesRead(s, false, words);
    AxesAreRead(s, false, words);
    ActionRead(s, false, words);
    EndsRead(s, false, words);
    hide ReadWords, FreshBlock, Has, SystemOf, InInches, IsIncremental, Convert, Executed, SystemRead;
    OffsetsTakeEffect(b, s, w);
  }

  /** A line that uses the axis words for a motion at most is refused in three cases only. */
  lemma MoveIsAcceptedIf(b: Block, s: State)
    requires |s.memory| == 8 && b.system < 6 && !UsesAxes(b.nonModal) && (b.command == Unused || b.command == ForMotion)
    ensures Convert(b, s).Error?
            <==> || (b.nonModal == Absolute && b.motion != Seek && b.motion != Linear)
                 || (AxisWords(b) && b.motion == NoMotion)
                 || (!AxisWords(b) && b.command == ForMotion
                     && (b.motion == ClockwiseArc || b.motion == CounterArc || b.motion == Probe))
  {
  }

  /** The only commands of a jog: units, distance mode, and machine coordinates. */
  predicate ForJogs(w: Word) {
    w.letter == 'G' && w.mantissa == 0 && w.whole in {20, 21, 53, 90, 91}
  }

  lemma JogGroups(w: Word, b: Block)
    requires Says(w, b) && GroupOf(w).Some?
    ensures GroupOf(w).value in {0, 3, 6} && (GroupOf(w).value == 0 ==> b.nonModal == Absolute) <==> ForJogs(w)
  {
  }

  /** A block a jog may have: no other commands, and no action but machine coordinates. */
  predicate JogOnly(b: Block) {
    b.groups <= {0, 3, 6} && (b.nonModal == NoAction || b.nonModal == Absolute)
  }

  lemma JogWord(a: Block, words: seq<Word>, b: Block, i: nat)
    requires Understood(a, words, b) && i < |words| && JogOnly(b)
    requires words[i].letter == 'G' || words[i].letter == 'M'
    ensures ForJogs(words[i])
  {
    var k := GroupOf(words[i]).value;
    assert Taken(b, Group(k)) by {
      assert Occupies(words[i], Group(k));
    }
    assert Says(words[i], b);
    hide Understood, Says, ForJogs, Same, NoneOccupies;
    JogAction(words[i], b);
    JogGroups(words[i], b);
  }

  /** A word of that group sets an action. */
  lemma JogAction(w: Word, b: Block)
    requires Says(w, b)
    ensures GroupOf(w) == Some(0) ==> b.nonModal != NoAction
  {
  }

  lemma OnlyJogWords(a: Block, words: seq<Word>, b: Block)
    requires Understood(a, words, b) && a.groups == {} && a.nonModal == NoAction
    requires forall i :: 0 <= i < |words| && (words[i].letter == 'G' || words[i].letter == 'M') ==> ForJogs(words[i])
    ensures JogOnly(b)
  {
    forall k: nat | k in b.groups
      ensures k in {0, 3, 6} && (k == 0 ==> b.nonModal == Absolute)
    {
      assert Taken(b, Group(k)) && !Taken(a, Group(k));
      var i :| 0 <= i < |words| && Occupies(words[i], Group(k));
      assert Says(words[i], b);
      JogGroups(words[i], b);
    }
    if 0 !in b.groups {
      assert !Taken(b, Group(0)) && Same(Group(0), a, b);
    }
  }

  /** A jog that is read is a jog exactly if its only commands are G20, G21, G53, G90 and G91. */
  lemma JogsHaveFewCommands(s: State, words: seq<Word>)
    requires ReadWords(FreshBlock(s, true), words).Ok?
    ensures JogOnly(ReadWords(FreshBlock(s, true), words).value)
            <==> forall i :: 0 <= i < |words| && words[i].letter in {'G', 'M'} ==> ForJogs(words[i])
  {
    var a, b := FreshBlock(s, true), ReadWords(FreshBlock(s, true), words).value;
    LineIsUnderstood(a, words);
    hide Understood, ReadWords, ForJogs, JogOnly;
    if JogOnly(b) {
      forall i | 0 <= i < |words| && (words[i].letter == 'G' || words[i].letter == 'M')
        ensures ForJogs(words[i])
      {
        JogWord(a, words, b, i);
      }
    }
    if forall i :: 0 <= i < |words| && (words[i].letter == 'G' || words[i].letter == 'M') ==> ForJogs(words[i]) {
      OnlyJogWords(a, words, b);
    }
  }

  /** A value of the line in millimetres. */
  ghost function Mm(s: State, words: seq<Word>, value: real): real {
    if InInches(s, words) then value * MM_PER_INCH else value
  }

  /**
   G10 stores a position: in the system that the P word counts from 1, or in that of the line; with L2 the values
   themselves, with L20 those that make the current position read as programmed. Nothing else is stored, an axis not
   named keeps its value, and the machine does not move.
   */
  lemma CoordinatesAreStored(s: State, words: seq<Word>, w: World)
    requires InForce(s) && Accepted(s, false, words, w) && Has(words, 10)
    ensures var b := ReadWords(FreshBlock(s, false), words).value;
            var index := if 1.0 <= b.p then b.p.Floor - 1 else SystemOf(s, words);
            && AxesRead(words, b) && 0 <= index < 6 && (b.l == 2 || b.l == 20)
            && var r, was := Line(s, false, words, w).0, s.memory[index];
               && Line(s, false, words, w).1 == [] && r.position == s.position
               && |r.memory| == 8 && r.memory == s.memory[index := r.memory[index]]
               && r.memory[index].z == was.z
               && r.memory[index].x == (if b.x.None? then was.x
                                        else if b.l == 2 then Mm(s, words, b.x.value)
                                        else s.position.x - s.coordOffset.x - Mm(s, words, b.x.value))
               && r.memory[index].y == (if b.y.None? then was.y
                                        else if b.l == 2 then Mm(s, words, b.y.value)
                                        else s.position.y - s.coordOffset.y - Mm(s, words, b.y.value))
  {
    var a, b := FreshBlock(s, false), ReadWords(FreshBlock(s, false), words).value;
    LineIsUnderstood(a, words);
    HasSays(a, words, b, 10);
    AcceptedHasNoZ(a, words);
    ModesRead(s, false, words);
    AxesAreRead(s, false, words);
    hide ReadWords, FreshBlock, Has, SystemOf, InInches, IsIncremental, AxesRead, Understood;
    Stored(b, s, w);
  }

  lemma Stored(b: Block, s: State, w: World)
    requires |s.memory| == 8 && WellRead(b) && Convert(b, s).Ok? && b.nonModal == SetCoordinates
    ensures var index := if 1.0 <= b.p then b.p.Floor - 1 else b.system;
            && 0 <= index < 6 && (b.l == 2 || b.l == 20)
            && var a, was := Convert(b, s).value, s.memory[index];
               var r := Executed(a, s, w);
               && Planned(a, s, w) == [] && r.position == s.position
               && |r.memory| == 8 && r.memory == s.memory[index := r.memory[index]]
               && r.memory[index].z == was.z
               && r.memory[index].x == (if b.x.None? then was.x
                                        else if b.l == 2 then InMm(b, b.x)
                                        else s.position.x - s.coordOffset.x - InMm(b, b.x))
               && r.memory[index].y == (if b.y.None? then was.y
                                        else if b.l == 2 then InMm(b, b.y)
                                        else s.position.y - s.coordOffset.y - InMm(b, b.y))
  {
  }

  /** G28 and G30 go to the stored home, along the axes named or both, by way of the target of the line, if any. */
  lemma HomeIsReached(s: State, words: seq<Word>, w: World, second: bool)
    requires InForce(s) && Accepted(s, false, words, w) && Has(words, if second then 30 else 28)
    ensures var home, (r, planned) := s.memory[HomeSlot(second)], Line(s, false, words, w);
            var none := Lacks(words, 'X') && Lacks(words, 'Y');
            && SystemOf(s, words) < 6
            && r.position.x == (if none || !Lacks(words, 'X') then home.x else s.position.x)
            && r.position.y == (if none || !Lacks(words, 'Y') then home.y else s.position.y)
            && if none then planned == [r.position]
               else |planned| == 2 && Reached(s, words, planned[0]) && planned[1] == r.position
  {
    var g: nat := if second then 30 else 28;
    var a, b := FreshBlock(s, false), ReadWords(FreshBlock(s, false), words).value;
    LineIsUnderstood(a, words);
    HasSays(a, words, b, g);
    AcceptedHasNoZ(a, words);
    TargetsAreReached(s, false, words);
    AxesAreRead(s, false, words);
    AxesOrNone(words, b);
    hide ReadWords, FreshBlock, Has, SystemOf, InInches, IsIncremental, AxesRead, Understood, Reached, Lacks, Targets;
    GoesHome(b, s, w);
  }

  lemma AxesOrNone(words: seq<Word>, b: Block)
    requires AxesRead(words, b)
    ensures b.x.None? <==> Lacks(words, 'X')
    ensures b.y.None? <==> Lacks(words, 'Y')
  {
  }

  /** G28.1 and G30.1 store where the machine stands. */
  lemma HomeIsStoredBy(s: State, words: seq<Word>, w: World, second: bool)
    requires InForce(s) && Accepted(s, false, words, w) && StoresHome(words, second)
    ensures var r := Line(s, false, words, w).0;
            |r.memory| == 8 && r.memory == s.memory[HomeSlot(second) := s.position]
  {
    var a, b := FreshBlock(s, false), ReadWords(FreshBlock(s, false), words).value;
    LineIsUnderstood(a, words);
    var i :| 0 <= i < |words| && StoringWord(words[i], second);
    assert Says(words[i], b);
    AcceptedHasNoZ(a, words);
  }

  /** After G92.1 no offset is in force. */
  lemma OffsetIsCleared(s: State, words: seq<Word>, w: World, i: nat)
    requires InForce(s) && Accepted(s, false, words, w) && i < |words|
    requires words[i].letter == 'G' && words[i].whole == 92 && words[i].mantissa == 10
    ensures Line(s, false, words, w).0.coordOffset == PlannerQueue.Point(0.0, 0.0, 0.0)
  {
    var a, b := FreshBlock(s, false), ReadWords(FreshBlock(s, false), words).value;
    LineIsUnderstood(a, words);
    assert Says(words[i], b);
    AcceptedHasNoZ(a, words);
  }

  /** A probe is planned to the target, and leaves the parser there, at the machine position, or where it was. */
  lemma ProbeLeads(s: State, words: seq<Word>, w: World)
    requires InForce(s) && Accepted(s, false, words, w) && OnlyMoves(words)
    requires !Lacks(words, 'X') || !Lacks(words, 'Y')
    requires ReadWords(FreshBlock(s, false), words).value.motion == Probe
    ensures var (r, planned) := Line(s, false, words, w);
            && SystemOf(s, words) < 6 && |planned| == 1 && Reached(s, words, planned[0])
            && (w.probed == AtTarget ==> r.position == planned[0])
            && (w.probed == AtMachine ==> r.position == w.machine)
            && (w.probed == Unmoved ==> r.position == s.position)
  {
    var b := ReadWords(FreshBlock(s, false), words).value;
    TargetsAreReached(s, false, words);
    ClaimRead(s, false, words);
    AxesAreRead(s, false, words);
    SomeAxis(words, b);
    hide ReadWords, FreshBlock, Reached, Targets, OnlyMoves, Lacks;
    Converted(b, s);
  }
}
