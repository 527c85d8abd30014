/**
 What the words of a line mean, told word by word and independently of how the line is read: which words exclude each
 other, and what each of them sets.
 */
module Words {
  import opened Results
  import opened Gcode

  /** What a word occupies in its line: a modal group, a letter, or the axis words. */
  datatype Slot = Group(number: nat) | Letter(letter: char) | Axes

  /** The modal groups. */
  function GroupOfG(g: nat, m: nat): Option<nat> {
    if (m == 0 && g in {4, 10, 28, 30, 53, 92}) || (m == 10 && g in {28, 30, 92}) then Some(0)
    else if (m == 0 && g in {0, 1, 2, 3, 80}) || (g == 38 && m in {20, 30, 40, 50}) then Some(1)
    else if m == 0 && g == 17 then Some(2)
    else if m == 0 && g in {90, 91} then Some(3)
    else if m == 10 && g == 91 then Some(4)
    else if m == 0 && g in {93, 94} then Some(5)
    else if m == 0 && g in {20, 21} then Some(6)
    else if m == 0 && g == 40 then Some(7)
    else if (m == 10 && g == 43) || g == 49 then Some(8)
    else if m == 0 && g in {54, 55, 56, 57, 58, 59} then Some(12)
    else if m == 0 && g == 61 then Some(13)
    else None
  }

  function GroupOfM(g: nat, m: nat): Option<nat> {
    if m == 0 && g in {0, 1, 2, 30} then Some(104)
    else if m == 0 && g in {3, 5} then Some(107)
    else if m == 0 && g in {8, 9} then Some(108)
    else None
  }

  /** What the axis words are for if this word is in the line. */
  function ClaimOf(w: Word): AxisCommand {
    if w.letter != 'G' then Unused
    else if w.mantissa == 0 && w.whole in {10, 28, 30, 92} then ForNonModal
    else if w.whole in {0, 1, 2, 3, 38} then ForMotion
    else if w.whole in {43, 49} then ForToolLength
    else Unused
  }

  function GroupOf(w: Word): Option<nat> {
    if w.letter == 'G' then GroupOfG(w.whole, w.mantissa)
    else if w.letter == 'M' then GroupOfM(w.whole, w.mantissa)
    else None
  }

  ghost predicate Occupies(w: Word, slot: Slot) {
    match slot
    case Group(k) => GroupOf(w) == Some(k)
    case Letter(c) => w.letter == c && c != 'G' && c != 'M'
    case Axes => ClaimOf(w) != Unused
  }

  ghost predicate Taken(b: Block, slot: Slot) {
    match slot
    case Group(k) => k in b.groups
    case Letter(c) => c in b.letters
    case Axes => b.command != Unused
  }

  /** What belongs to a slot is the same. */
  ghost predicate Same(slot: Slot, b: Block, c: Block) {
    && (slot == Group(0) ==> c.nonModal == b.nonModal)
    && (slot == Group(1) ==> c.motion == b.motion)
    && (slot == Group(2) ==> c.plane == b.plane)
    && (slot == Group(3) ==> c.incremental == b.incremental)
    && (slot == Group(6) ==> c.inches == b.inches)
    && (slot == Group(8) ==> c.dynamicToolLength == b.dynamicToolLength)
    && (slot == Group(12) ==> c.system == b.system)
    && (slot == Group(104) ==> c.ends == b.ends)
    && (slot == Letter('X') ==> c.x == b.x)
    && (slot == Letter('Y') ==> c.y == b.y)
    && (slot == Letter('L') ==> c.l == b.l)
    && (slot == Letter('P') ==> c.p == b.p)
    && (slot == Axes ==> c.command == b.command)
  }

  /** What a word says of its line. */
  ghost predicate Says(w: Word, b: Block) {
    && Commands(w, b)
    && (w.letter == 'X' ==> b.x == Some(w.value))
    && (w.letter == 'Y' ==> b.y == Some(w.value))
    && (w.letter == 'L' ==> b.l == w.whole)
    && (w.letter == 'P' ==> b.p == w.value && 0.0 <= w.value)
    && (ClaimOf(w) != Unused ==> b.command == ClaimOf(w))
  }

  /** What a command says. */
  ghost predicate Commands(w: Word, b: Block) {
    && (w.letter == 'G' ==> SaysMode(w.whole, w.mantissa, b) && SaysAction(w.whole, w.mantissa, b))
    && (w.letter == 'M' ==> (w.whole in {2, 30} ==> b.ends) && (w.whole in {0, 1} ==> !b.ends))
  }

  /** Modes: motion, plane, distance, units, tool length and coordinate system. */
  ghost predicate SaysMode(g: nat, m: nat, b: Block) {
    && (g == 0 ==> b.motion == Seek)
    && (g == 1 ==> b.motion == Linear)
    && (g == 2 ==> b.motion == ClockwiseArc)
    && (g == 3 ==> b.motion == CounterArc)
    && (g == 38 ==> b.motion == Probe)
    && (g == 80 ==> b.motion == NoMotion)
    && (g == 17 ==> b.plane == 0)
    && (g == 90 ==> !b.incremental)
    && (g == 91 && m == 0 ==> b.incremental)
    && (g == 20 ==> b.inches)
    && (g == 21 ==> !b.inches)
    && (g == 43 ==> b.dynamicToolLength)
    && (g == 49 ==> !b.dynamicToolLength)
    && (g == 54 ==> b.system == 0)
    && (g == 55 ==> b.system == 1)
    && (g == 56 ==> b.system == 2)
    && (g == 57 ==> b.system == 3)
    && (g == 58 ==> b.system == 4)
    && (g == 59 ==> b.system == 5)
  }

  /** Actions of this line only. */
  ghost predicate SaysAction(g: nat, m: nat, b: Block) {
    && (g == 4 ==> b.nonModal == Dwell)
    && (g == 10 ==> b.nonModal == SetCoordinates)
    && (g == 28 ==> b.nonModal == if m == 0 then GoHome(false) else SetHome(false))
    && (g == 30 ==> b.nonModal == if m == 0 then GoHome(true) else SetHome(true))
    && (g == 53 ==> b.nonModal == Absolute)
    && (g == 92 ==> b.nonModal == if m == 0 then SetOffset else ResetOffset)
  }

  /** One word took the line from `b` to `c`. */
  ghost predicate Reads(b: Block, w: Word, c: Block) {
    && (forall slot: Slot :: Occupies(w, slot) ==> !Taken(b, slot))
    && (forall slot: Slot :: Taken(c, slot) <==> Taken(b, slot) || Occupies(w, slot))
    && (forall slot: Slot :: !Occupies(w, slot) ==> Same(slot, b, c))
    && (w.letter == 'G' || w.letter == 'M' ==> GroupOf(w).Some?)
    && Says(w, c)
  }

  /** Only what belongs to a modal group may be different. */
  predicate OnlyGroup(k: nat, b: Block, c: Block) {
    && (k == 0 || c.nonModal == b.nonModal)
    && (k == 1 || c.motion == b.motion)
    && (k == 2 || c.plane == b.plane)
    && (k == 3 || c.incremental == b.incremental)
    && (k == 6 || c.inches == b.inches)
    && (k == 8 || c.dynamicToolLength == b.dynamicToolLength)
    && (k == 12 || c.system == b.system)
    && (k == 104 || c.ends == b.ends)
    && (c.x, c.y, c.l, c.p, c.command, c.groups, c.letters) == (b.x, b.y, b.l, b.p, b.command, b.groups, b.letters)
  }

  /** What a command sets is what its words say, and nothing else. */
  ghost predicate Sets(b: Block, w: Word, c: Command) {
    && c.claim == ClaimOf(w) && GroupOf(w) == Some(c.group) && OnlyGroup(c.group, b, c.block)
    && Commands(w, c.block)
  }

  lemma AxisUseSets(b: Block, w: Word)
    requires w.letter == 'G'
    ensures AxisUse(b, w.whole, w.mantissa).Some? ==> Sets(b, w, AxisUse(b, w.whole, w.mantissa).value)
  {
    AxisUseSays(b, w);
    hide Commands;
  }

  lemma AxisUseSays(b: Block, w: Word)
    requires w.letter == 'G'
    ensures AxisUse(b, w.whole, w.mantissa).Some? ==> Commands(w, AxisUse(b, w.whole, w.mantissa).value.block)
  {
  }

  lemma OtherActionSets(b: Block, w: Word)
    requires w.letter == 'G' && AxisUse(b, w.whole, w.mantissa).None?
    ensures OtherAction(b, w.whole, w.mantissa).Some? ==> Sets(b, w, OtherAction(b, w.whole, w.mantissa).value)
  {
    OtherActionSays(b, w);
    hide Commands;
  }

  lemma OtherActionSays(b: Block, w: Word)
    requires w.letter == 'G'
    ensures OtherAction(b, w.whole, w.mantissa).Some? ==> Commands(w, OtherAction(b, w.whole, w.mantissa).value.block)
  {
  }

  lemma ModeChangeSets(b: Block, w: Word)
    requires w.letter == 'G' && AxisUse(b, w.whole, w.mantissa).None? && OtherAction(b, w.whole, w.mantissa).None?
    ensures ModeChange(b, w.whole, w.mantissa).Some? ==> Sets(b, w, ModeChange(b, w.whole, w.mantissa).value)
  {
    ModeChangeSays(b, w);
    hide Commands;
  }

  lemma ModeChangeSays(b: Block, w: Word)
    requires w.letter == 'G'
    ensures ModeChange(b, w.whole, w.mantissa).Some? ==> Commands(w, ModeChange(b, w.whole, w.mantissa).value.block)
  {
  }

  lemma AcceptReads(b: Block, w: Word, c: Command)
    requires (w.letter == 'G' || w.letter == 'M') && Sets(b, w, c) && Accept(b, c).Ok?
    ensures Reads(b, w, Accept(b, c).value)
  {
    AcceptSays(b, w, c);
    AcceptTakes(b, w, c);
    hide Says, Commands, Occupies, Same, Taken, OnlyGroup, Accept;
    forall slot: Slot | !Occupies(w, slot)
      ensures Same(slot, b, Accept(b, c).value)
    {
      AcceptKeepsSlot(b, w, c, slot);
    }
  }

  lemma AcceptSays(b: Block, w: Word, c: Command)
    requires (w.letter == 'G' || w.letter == 'M') && Sets(b, w, c) && Accept(b, c).Ok?
    ensures Says(w, Accept(b, c).value)
  {
    hide OnlyGroup, GroupOf;
  }

  lemma AcceptTakes(b: Block, w: Word, c: Command)
    requires (w.letter == 'G' || w.letter == 'M') && Sets(b, w, c) && Accept(b, c).Ok?
    ensures forall slot: Slot :: Occupies(w, slot) ==> !Taken(b, slot)
    ensures forall slot: Slot :: Taken(Accept(b, c).value, slot) <==> Taken(b, slot) || Occupies(w, slot)
  {
    hide Commands, GroupOf;
  }

  lemma AcceptKeepsSlot(b: Block, w: Word, c: Command, slot: Slot)
    requires (w.letter == 'G' || w.letter == 'M') && Sets(b, w, c) && Accept(b, c).Ok? && !Occupies(w, slot)
    ensures Same(slot, b, Accept(b, c).value)
  {
    hide Commands, GroupOf, ClaimOf, Same, OnlyGroup;
    OthersKept(c.group, b, c.block, slot);
    var r := Accept(b, c).value;
    MarkedIsSame(slot, b, c.block, r.command, r.groups);
  }

  lemma OthersKept(k: nat, b: Block, c: Block, slot: Slot)
    requires OnlyGroup(k, b, c) && slot != Group(k)
    ensures Same(slot, b, c)
  {
  }

  lemma MarkedIsSame(slot: Slot, b: Block, c: Block, command: AxisCommand, groups: set<nat>)
    requires Same(slot, b, c) && (slot == Axes ==> command == b.command)
    ensures Same(slot, b, c.(command := command, groups := groups))
  {
  }

  lemma ValueReads(b: Block, w: Word)
    requires w.letter != 'G' && w.letter != 'M' && ReadValue(b, w).Ok?
    ensures Reads(b, w, ReadValue(b, w).value)
  {
  }

  lemma WordReads(b: Block, w: Word)
    requires ReadWord(b, w).Ok?
    ensures Reads(b, w, ReadWord(b, w).value)
  {
    hide Reads, Sets, AxisUse, OtherAction, ModeChange, ReadValue, Accept;
    if w.letter == 'G' {
      AxisUseSets(b, w);
      match AxisUse(b, w.whole, w.mantissa)
      case Some(c) => AcceptReads(b, w, c);
      case None =>
        OtherActionSets(b, w);
        match OtherAction(b, w.whole, w.mantissa)
        case Some(c) => AcceptReads(b, w, c);
        case None =>
          ModeChangeSets(b, w);
          AcceptReads(b, w, ModeChange(b, w.whole, w.mantissa).value);
    } else if w.letter == 'M' {
      CommandMReads(b, w);
    } else {
      ValueReads(b, w);
    }
  }

  lemma CommandMReads(b: Block, w: Word)
    requires w.letter == 'M' && ReadWord(b, w).Ok?
    ensures Reads(b, w, ReadWord(b, w).value)
  {
    hide Reads, Accept;
    if w.whole in {0, 1, 2, 30} {
      AcceptReads(b, w, Command(b.(ends := w.whole == 2 || w.whole == 30), Unused, 104));
    } else if w.whole == 3 || w.whole == 5 {
      AcceptReads(b, w, Command(b, Unused, 107));
    } else {
      AcceptReads(b, w, Command(b, Unused, 108));
    }
  }

  // ---------------------------------------------------------------------------------------------
  // Lines

  ghost predicate NoneOccupies(words: seq<Word>, slot: Slot) {
    forall i :: 0 <= i < |words| ==> !Occupies(words[i], slot)
  }

  /** Words that take the line from `b` to `c`: none of them interferes with another, and nothing else is changed. */
  ghost predicate Understood(b: Block, words: seq<Word>, c: Block) {
    && (forall i :: 0 <= i < |words| ==> Says(words[i], c))
    && (forall i, slot: Slot :: 0 <= i < |words| && Occupies(words[i], slot) ==> !Taken(b, slot))
    && (forall i, j, slot: Slot :: 0 <= i < j < |words| && Occupies(words[i], slot) ==> !Occupies(words[j], slot))
    && (forall slot: Slot :: Taken(c, slot) <==> Taken(b, slot) || !NoneOccupies(words, slot))
    && (forall slot: Slot :: NoneOccupies(words, slot) ==> Same(slot, b, c))
    && (forall i :: 0 <= i < |words| && (words[i].letter == 'G' || words[i].letter == 'M') ==> GroupOf(words[i]).Some?)
  }

  lemma SaysKept(w: Word, b: Block, c: Block)
    requires Says(w, b) && (w.letter == 'G' || w.letter == 'M' ==> GroupOf(w).Some?)
    requires forall slot: Slot :: Occupies(w, slot) ==> Same(slot, b, c)
    ensures Says(w, c)
  {
    if w.letter == 'G' || w.letter == 'M' {
      assert Occupies(w, Group(GroupOf(w).value));
      CommandsKept(w, b, c);
    }
    assert w.letter != 'G' && w.letter != 'M' ==> Occupies(w, Letter(w.letter)) && Same(Letter(w.letter), b, c);
    assert ClaimOf(w) != Unused ==> Occupies(w, Axes) && Same(Axes, b, c);
    hide Commands, GroupOf, ClaimOf;
  }

  lemma CommandsKept(w: Word, b: Block, c: Block)
    requires Commands(w, b) && (w.letter == 'G' || w.letter == 'M') && GroupOf(w).Some?
    requires Same(Group(GroupOf(w).value), b, c)
    ensures Commands(w, c)
  {
  }

  lemma NoneBefore(w: Word, rest: seq<Word>, slot: Slot)
    ensures NoneOccupies([w] + rest, slot) <==> !Occupies(w, slot) && NoneOccupies(rest, slot)
  {
    assert ([w] + rest)[0] == w;
    assert forall i :: 0 <= i < |rest| ==> ([w] + rest)[i + 1] == rest[i];
  }

  lemma SameTwice(slot: Slot, b: Block, c: Block, d: Block)
    requires Same(slot, b, c) && Same(slot, c, d)
    ensures Same(slot, b, d)
  {
  }

  lemma OneMoreWord(b: Block, w: Word, d: Block, rest: seq<Word>, c: Block)
    requires Reads(b, w, d) && Understood(d, rest, c)
    ensures Understood(b, [w] + rest, c)
  {
    hide Says, Occupies, Taken, Same, NoneOccupies, GroupOf;
    var words := [w] + rest;
    forall slot: Slot
      ensures NoneOccupies(words, slot) <==> !Occupies(w, slot) && NoneOccupies(rest, slot)
    {
      NoneBefore(w, rest, slot);
    }
    forall slot: Slot | NoneOccupies(words, slot)
      ensures Same(slot, b, c)
    {
      SameTwice(slot, b, d, c);
    }
    forall slot: Slot | Occupies(w, slot)
      ensures NoneOccupies(rest, slot) && Same(slot, d, c)
    {
      assert Taken(d, slot);
      NoneIfTaken(d, rest, c, slot);
    }
    SaysKept(w, d, c);
  }

  lemma NoneIfTaken(b: Block, words: seq<Word>, c: Block, slot: Slot)
    requires Understood(b, words, c) && Taken(b, slot)
    ensures NoneOccupies(words, slot)
  {
    hide Says, Occupies, Taken, Same, GroupOf;
  }

  /**
   A line that is read is understood: no two words are of one modal group, of one letter, or claim the axis words
   both; each word is taken at its meaning; and what no word speaks of is as it was.
   */
  lemma {:induction false} LineIsUnderstood(b: Block, words: seq<Word>)
    requires ReadWords(b, words).Ok?
    ensures Understood(b, words, ReadWords(b, words).value)
    decreases |words|
  {
    if words == [] {
      NothingRead(b);
    } else {
      hide Understood, Reads;
      WordReads(b, words[0]);
      LineIsUnderstood(ReadWord(b, words[0]).value, words[1..]);
      OneMoreWord(b, words[0], ReadWord(b, words[0]).value, words[1..], ReadWords(b, words).value);
      assert [words[0]] + words[1..] == words;
    }
  }

  lemma NothingRead(b: Block)
    ensures Understood(b, [], b)
  {
    forall slot: Slot
      ensures Same(slot, b, b) && NoneOccupies([], slot)
    {
    }
    hide Same, Taken, Occupies, Says;
  }

  /** A word the program knows, with a value it may have. */
  predicate Known(w: Word) {
    if w.letter == 'G' || w.letter == 'M' then GroupOf(w).Some?
    else
      && w.letter in {'F', 'I', 'J', 'K', 'L', 'N', 'P', 'R', 'S', 'T', 'X', 'Y'}
      && (w.letter in {'F', 'N', 'P', 'S', 'T'} ==> 0.0 <= w.value)
  }

  ghost predicate Free(b: Block, w: Word) {
    forall slot: Slot :: Occupies(w, slot) ==> !Taken(b, slot)
  }

  lemma GIsKnown(b: Block, w: Word)
    requires w.letter == 'G'
    ensures GroupOf(w).Some?
            <==> || AxisUse(b, w.whole, w.mantissa).Some? || OtherAction(b, w.whole, w.mantissa).Some?
                 || ModeChange(b, w.whole, w.mantissa).Some?
  {
  }

  lemma AcceptIfFree(b: Block, w: Word, c: Command)
    requires (w.letter == 'G' || w.letter == 'M') && Sets(b, w, c)
    ensures Accept(b, c).Ok? <==> Free(b, w)
  {
    hide Commands, GroupOf, OnlyGroup;
    assert Occupies(w, Group(c.group));
    assert Occupies(w, Axes) <==> c.claim != Unused;
    assert Free(b, w) ==> !Taken(b, Group(c.group));
    assert Free(b, w) && c.claim != Unused ==> !Taken(b, Axes);
    if Accept(b, c).Ok? {
      AcceptTakes(b, w, c);
    }
  }

  lemma CommandReadIf(b: Block, w: Word)
    requires w.letter == 'G'
    ensures ReadCommand(b, w.whole, w.mantissa).Ok? <==> Known(w) && Free(b, w)
  {
    GIsKnown(b, w);
    hide Free, Sets, GroupOf, AxisUse, OtherAction, ModeChange, Accept;
    AxisUseSets(b, w);
    match AxisUse(b, w.whole, w.mantissa)
    case Some(c) => AcceptIfFree(b, w, c);
    case None =>
      OtherActionSets(b, w);
      match OtherAction(b, w.whole, w.mantissa)
      case Some(c) => AcceptIfFree(b, w, c);
      case None =>
        ModeChangeSets(b, w);
        if ModeChange(b, w.whole, w.mantissa).Some? {
          AcceptIfFree(b, w, ModeChange(b, w.whole, w.mantissa).value);
        }
  }

  lemma ValueReadIf(b: Block, w: Word)
    requires w.letter != 'G' && w.letter != 'M'
    ensures ReadValue(b, w).Ok? <==> Known(w) && Free(b, w)
  {
    assert Occupies(w, Letter(w.letter));
    assert Free(b, w) <==> !Taken(b, Letter(w.letter));
  }

  lemma MReadIf(b: Block, w: Word)
    requires w.letter == 'M'
    ensures ReadWord(b, w).Ok? <==> Known(w) && Free(b, w)
  {
    hide Free, Accept, Sets;
    if Known(w) {
      var c :=
        if w.whole in {0, 1, 2, 30} then Command(b.(ends := w.whole == 2 || w.whole == 30), Unused, 104)
        else if w.whole == 3 || w.whole == 5 then Command(b, Unused, 107)
        else Command(b, Unused, 108);
      MSets(b, w, c);
      AcceptIfFree(b, w, c);
    }
  }

  lemma MSets(b: Block, w: Word, c: Command)
    requires w.letter == 'M' && Known(w)
    requires c == if w.whole in {0, 1, 2, 30} then Command(b.(ends := w.whole == 2 || w.whole == 30), Unused, 104)
                  else if w.whole == 3 || w.whole == 5 then Command(b, Unused, 107)
                  else Command(b, Unused, 108)
    ensures Sets(b, w, c)
  {
  }

  lemma WordIsReadIf(b: Block, w: Word)
    ensures ReadWord(b, w).Ok? <==> Known(w) && Free(b, w)
  {
    hide Free, Known, ReadCommand, ReadValue;
    if w.letter == 'G' {
      CommandReadIf(b, w);
    } else if w.letter == 'M' {
      MReadIf(b, w);
    } else {
      ValueReadIf(b, w);
    }
  }

  /** Two words of a line get in each other's way. */
  ghost predicate Conflict(v: Word, w: Word) {
    exists slot: Slot :: Occupies(v, slot) && Occupies(w, slot)
  }

  /** All words are known, none is in the way of another, and none of them needs what is taken. */
  ghost predicate Readable(b: Block, words: seq<Word>) {
    && (forall i :: 0 <= i < |words| ==> Known(words[i]) && Free(b, words[i]))
    && forall i, j :: 0 <= i < j < |words| ==> !Conflict(words[i], words[j])
  }

  lemma FreeAfter(b: Block, v: Word, c: Block, w: Word)
    requires Reads(b, v, c)
    ensures Free(c, w) <==> Free(b, w) && !Conflict(v, w)
  {
    hide Occupies, Taken, Same, Says, GroupOf;
    if Free(b, w) && !Conflict(v, w) {
      forall slot: Slot | Occupies(w, slot)
        ensures !Taken(c, slot)
      {
        assert !Occupies(v, slot);
      }
    }
    if Free(c, w) {
      forall slot: Slot | Occupies(w, slot)
        ensures !Taken(b, slot) && !Occupies(v, slot)
      {
        assert !Taken(c, slot);
      }
    }
  }

  /** A line is read exactly if its words are known and no two of them conflict. */
  lemma {:induction false} LineIsReadIf(b: Block, words: seq<Word>)
    ensures ReadWords(b, words).Ok? <==> Readable(b, words)
    decreases |words|
  {
    if words != [] {
      var w, rest := words[0], words[1..];
      WordIsReadIf(b, w);
      if ReadWord(b, w).Ok? {
        var c := ReadWord(b, w).value;
        WordReads(b, w);
        LineIsReadIf(c, rest);
        forall i | 0 <= i < |rest|
          ensures Free(c, rest[i]) <==> Free(b, rest[i]) && !Conflict(w, rest[i])
        {
          FreeAfter(b, w, c, rest[i]);
        }
        hide Free, Conflict, Known, Reads, ReadWord, ReadWords;
        ReadableNext(b, w, c, words);
      }
    }
  }

  lemma ReadableNext(b: Block, w: Word, c: Block, words: seq<Word>)
    requires words != [] && words[0] == w && Known(w) && Free(b, w)
    requires forall i :: 0 <= i < |words| - 1 ==>
               (Free(c, words[1..][i]) <==> Free(b, words[1..][i]) && !Conflict(w, words[1..][i]))
    ensures Readable(b, words) <==> Readable(c, words[1..])
  {
    hide Free, Conflict, Known;
    var rest := words[1..];
    if Readable(b, words) {
      forall i | 0 <= i < |rest|
        ensures Known(rest[i]) && Free(c, rest[i])
      {
        assert rest[i] == words[i + 1] && !Conflict(words[0], words[i + 1]);
      }
      assert forall i, j :: 0 <= i < j < |rest| ==> rest[i] == words[i + 1] && rest[j] == words[j + 1];
    }
    if Readable(c, rest) {
      forall i | 0 <= i < |words|
        ensures Known(words[i]) && Free(b, words[i])
      {
        assert 0 < i ==> words[i] == rest[i - 1];
      }
      forall i, j | 0 <= i < j < |words|
        ensures !Conflict(words[i], words[j])
      {
        assert words[j] == rest[j - 1] && (0 < i ==> words[i] == rest[i - 1]);
      }
    }
  }
}
