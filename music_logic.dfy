/** The chord resolver, the staff position mapper and the black-key test. */
module MusicLogic {
  import opened Types
  import opened Constants

  // ---------------------------------------------------------------------------
  // Chord resolver

  /** Resolves a root and a chord quality: each interval is added to the
      root's MIDI number, each resulting number is named through the
      sharp-biased name table, and the chord symbol is the root followed by
      the quality's symbol. The root may be any of the 17 spellings, flat ones
      included; the notes always come back sharp- or natural-spelled. */
  function ChordNotes(root: string, t: ChordType): (c: ChordDefinition)
    requires root in NoteToMidi
    ensures c.root == root && c.chordType == t
    ensures |c.midiNotes| == |ChordIntervals(t)| && |c.notes| == |c.midiNotes|
    ensures forall i :: 0 <= i < |c.midiNotes| ==> c.midiNotes[i] == NoteToMidi[root] + ChordIntervals(t)[i]
    ensures forall i :: 0 <= i < |c.midiNotes| ==> 60 <= c.midiNotes[i] <= 82
    ensures forall i :: 0 <= i < |c.notes| ==> c.notes[i] == Notes[PitchClass(c.midiNotes[i])]
    ensures c.americanNotation == root + ChordTypeSymbol(t)
  {
    var rootMidi := NoteToMidi[root];
    var intervals := ChordIntervals(t);
    var midiNotes := seq(|intervals|, i requires 0 <= i < |intervals| => rootMidi + intervals[i]);
    NoteToMidiRange();
    MidiToNoteNameIsChromatic();
    var notes := seq(|midiNotes|, i requires 0 <= i < |midiNotes| => MidiToNoteName[midiNotes[i]]);
    ChordDefinition(root, t, notes, midiNotes, root + ChordTypeSymbol(t))
  }

  /** The first note is the root's pitch under its sharp or natural
      spelling, which is the root itself exactly when the root is one of the
      twelve scale names. */
  lemma ChordRootSpelling(root: string, t: ChordType)
    requires root in NoteToMidi
    ensures ChordNotes(root, t).midiNotes[0] == NoteToMidi[root]
    ensures NoteToMidi[ChordNotes(root, t).notes[0]] == NoteToMidi[root]
    ensures ChordNotes(root, t).notes[0] == root <==> root in Notes
  {
    var c := ChordNotes(root, t);
    NoteToMidiRange();
    var p := NoteToMidi[root] - 60;
    assert ChordIntervals(t)[0] == 0;
    assert c.midiNotes[0] == 60 + p;
    PitchClassFromMiddleC(p);
    assert c.notes[0] == Notes[PitchClass(c.midiNotes[0])];
    NotesAreChromatic();
    if root in Notes {
      var i :| 0 <= i < |Notes| && Notes[i] == root;
      assert i == p;
    }
  }

  /** No note of any chord is ever spelled with a flat, whatever the root or
      the key it comes from: nothing rewrites sharps as flats. */
  lemma ChordNotesNeverFlat(root: string, t: ChordType)
    requires root in NoteToMidi
    ensures forall i, j :: 0 <= i < |ChordNotes(root, t).notes| && 0 <= j < |ChordNotes(root, t).notes[i]| ==>
              ChordNotes(root, t).notes[i][j] != 'b'
  {
    NotesHaveNoFlatSign();
  }

  /** A flat-spelled root, such as Db from the circle, comes back as its
      sharp twin in the first note: Db major starts on C#. */
  lemma FlatRootRespelled(root: string, t: ChordType, k: int)
    requires 0 <= k < |FlatSpellings| && root == FlatSpellings[k]
    ensures root in NoteToMidi
    ensures ChordNotes(root, t).notes[0] == SharpTwins[k]
  {
    FlatSpellingPitches();
    var c := ChordNotes(root, t);
    var p := FlatPitchClasses[k];
    assert c.midiNotes[0] == 60 + p;
    PitchClassFromMiddleC(p);
    assert c.notes[0] == Notes[p];
  }

  /** F has a flat key signature, yet F minor seventh is spelled with G#,
      a black key, rather than Ab. */
  lemma FlatKeyChordKeepsSharps()
    ensures "F" in KeySignatures && KeySignatures["F"].accidental == Flat
    ensures "F" in NoteToMidi && ChordNotes("F", Minor7).notes[1] == "G#"
    ensures IsBlackKey(ChordNotes("F", Minor7).notes[1])
  {
    FlatSideOfCircle();
    assert CircleOfFifthsMajor[11] == "F";
    NotesAreChromatic();
    assert Notes[5] == "F";
    var c := ChordNotes("F", Minor7);
    assert c.midiNotes[1] == 60 + 8;
    PitchClassFromMiddleC(8);
    assert c.notes[1] == Notes[8];
  }

  /** G minor is resolved to G A# D: its third is A#, not the Bb that the
      comment over the application's note breakdown gives as its example. */
  lemma GMinorThirdSpelledSharp()
    ensures "G" in NoteToMidi && ChordNotes("G", Minor).notes == ["G", "A#", "D"]
  {
    NotesAreChromatic();
    assert Notes[7] == "G";
    var c := ChordNotes("G", Minor);
    assert |c.notes| == 3;
    assert c.midiNotes[0] == 60 + 7;
    PitchClassFromMiddleC(7);
    assert c.notes[0] == Notes[7];
    assert c.midiNotes[1] == 60 + 10;
    PitchClassFromMiddleC(10);
    assert c.notes[1] == Notes[10];
    assert c.midiNotes[2] == 60 + 14;
    assert PitchClass(74) == 2;
    assert c.notes[2] == Notes[2];
  }

  // ---------------------------------------------------------------------------
  // The chord symbol read back

  /** The chord quality a display symbol stands for. */
  function SymbolChordType(sym: string): (t: Option<ChordType>)
    ensures t.Some? ==> ChordTypeSymbol(t.value) == sym
  {
    if sym == "" then Some(Major)
    else if sym == "m" then Some(Minor)
    else if sym == "dim" then Some(Diminished)
    else if sym == "aug" then Some(Augmented)
    else if sym == "7" then Some(Dominant7)
    else if sym == "maj7" then Some(Major7)
    else if sym == "m7" then Some(Minor7)
    else None
  }

  /** Every quality's symbol reads back as that quality, so no two qualities
      share a symbol. */
  lemma SymbolReadsBack(t: ChordType)
    ensures SymbolChordType(ChordTypeSymbol(t)) == Some(t)
  {
  }

  /** Splits a chord symbol into its root (a letter with an optional '#' or
      'b') and its quality. */
  function ParseChordSymbol(s: string): (r: Option<(string, ChordType)>)
    ensures r.Some? ==> r.value.0 + ChordTypeSymbol(r.value.1) == s
  {
    if |s| == 0 then None
    else
      var rootLength := if |s| >= 2 && (s[1] == '#' || s[1] == 'b') then 2 else 1;
      match SymbolChordType(s[rootLength..])
      case None => None
      case Some(t) => Some((s[..rootLength], t))
  }

  /** Every spelling is a letter, or a letter and one '#' or 'b'. */
  lemma SpellingShape(n: string)
    requires n in NoteToMidi
    ensures |n| == 1 || (|n| == 2 && (n[1] == '#' || n[1] == 'b'))
  {
    NoteToMidiKeys();
    assert n in Spellings;
  }

  /** The chord symbol reads back as the root and the quality it was built
      from. */
  lemma NotationRoundTrip(root: string, t: ChordType)
    requires root in NoteToMidi
    ensures ParseChordSymbol(ChordNotes(root, t).americanNotation) == Some((root, t))
  {
    var s := ChordNotes(root, t).americanNotation;
    var sym := ChordTypeSymbol(t);
    SpellingShape(root);
    assert s == root + sym;
    var rootLength := if |s| >= 2 && (s[1] == '#' || s[1] == 'b') then 2 else 1;
    assert rootLength == |root|;
    assert s[..rootLength] == root;
    assert s[rootLength..] == sym;
    SymbolReadsBack(t);
  }

  /** Two resolutions with the same chord symbol share their root and
      quality: the symbol is unambiguous. */
  lemma NotationDeterminesChord(root1: string, t1: ChordType, root2: string, t2: ChordType)
    requires root1 in NoteToMidi && root2 in NoteToMidi
    requires ChordNotes(root1, t1).americanNotation == ChordNotes(root2, t2).americanNotation
    ensures root1 == root2 && t1 == t2
  {
    NotationRoundTrip(root1, t1);
    NotationRoundTrip(root2, t2);
  }

  // ---------------------------------------------------------------------------
  // Black keys

  /** A note is drawn as a black key when its name holds a sharp sign. */
  function IsBlackKey(note: string): (black: bool)
    ensures black <==> exists i :: 0 <= i < |note| && note[i] == '#'
  {
    '#' in note
  }

  /** The pitch classes of the piano's black keys. */
  const BlackPitchClasses: set<int> := {1, 3, 6, 8, 10}

  /** Among the twelve scale names exactly the five sharps are black, and
      those are the names of the black pitch classes. */
  lemma BlackKeysOfScale()
    ensures forall i :: 0 <= i < 12 ==> (IsBlackKey(Notes[i]) <==> i in BlackPitchClasses)
    ensures |set i | 0 <= i < 12 && IsBlackKey(Notes[i])| == 5
  {
    forall i | 0 <= i < 12 ensures IsBlackKey(Notes[i]) <==> i in BlackPitchClasses {
      assert i in {0, 1, 2, 3, 4, 5, 6, 7, 8, 9, 10, 11};
    }
    assert (set i | 0 <= i < 12 && IsBlackKey(Notes[i])) == BlackPitchClasses;
  }

  /** The flat names sound a black pitch class but are not drawn as black
      keys, since the test looks only for '#'. */
  lemma FlatNamesAreNotBlack()
    ensures forall k :: 0 <= k < |FlatSpellings| ==>
              FlatSpellings[k] in NoteToMidi && !IsBlackKey(FlatSpellings[k])
              && PitchClass(NoteToMidi[FlatSpellings[k]]) in BlackPitchClasses
  {
    forall k | 0 <= k < |FlatSpellings|
      ensures FlatSpellings[k] in NoteToMidi && !IsBlackKey(FlatSpellings[k])
              && PitchClass(NoteToMidi[FlatSpellings[k]]) in BlackPitchClasses
    {
      assert k in {0, 1, 2, 3, 4};
    }
  }

  /** Over the whole name table, a name is black exactly when its MIDI
      number is a black pitch class. */
  lemma BlackKeyByPitch()
    ensures forall m :: m in MidiToNoteName ==> (IsBlackKey(MidiToNoteName[m]) <==> PitchClass(m) in BlackPitchClasses)
  {
    MidiToNoteNameIsChromatic();
    BlackKeysOfScale();
  }

  // ---------------------------------------------------------------------------
  // Staff position mapper

  /** Vertical position on the treble staff of each MIDI number 60..81; a
      sharp shares the slot of the natural below it. */
  const WhiteKeyMapping: map<int, int> := map[
    60 := 120, 61 := 120, 62 := 110, 63 := 110, 64 := 100, 65 := 90,
    66 := 90, 67 := 80, 68 := 80, 69 := 70, 70 := 70, 71 := 60,
    72 := 50, 73 := 50, 74 := 40, 75 := 40, 76 := 30, 77 := 20,
    78 := 20, 79 := 10, 80 := 10, 81 := 0
  ]

  /** The staff position of a MIDI number, 60 (the middle line) for any
      number the table does not hold. */
  function StaffYPosition(midi: int): (y: int)
    ensures 0 <= y <= 120 && y % 10 == 0
    ensures !(60 <= midi <= 81) ==> y == 60
    ensures midi == 60 ==> y == 120
  {
    if midi in WhiteKeyMapping then WhiteKeyMapping[midi] else 60
  }

  /** The position of a letter in C D E F G A B. */
  function LetterIndex(c: char): (k: int)
    ensures 0 <= k < 7
  {
    match c
    case 'C' => 0
    case 'D' => 1
    case 'E' => 2
    case 'F' => 3
    case 'G' => 4
    case 'A' => 5
    case _ => 6
  }

  /** How many staff steps (lines and spaces) a named MIDI number lies above
      middle C: seven per octave plus the steps of its letter. */
  function DiatonicStep(midi: int): (step: int)
    requires midi in MidiToNoteName
    requires MidiToNoteName[midi] != []
    ensures 0 <= step
  {
    7 * ((midi - 60) / 12) + LetterIndex(MidiToNoteName[midi][0])
  }

  /** The letter step of each pitch class under its sharp-biased name. */
  const ScaleLetterSteps: seq<int> := [0, 0, 1, 1, 2, 3, 3, 4, 4, 5, 5, 6]

  /** The staff step of a MIDI number computed from its octave and pitch
      class alone. */
  function StepOf(m: int): int {
    7 * ((m - 60) / 12) + ScaleLetterSteps[PitchClass(m)]
  }

  lemma ScaleLetters()
    ensures forall k :: 0 <= k < 12 ==> Notes[k] != [] && LetterIndex(Notes[k][0]) == ScaleLetterSteps[k]
  {
    forall k | 0 <= k < 12 ensures Notes[k] != [] && LetterIndex(Notes[k][0]) == ScaleLetterSteps[k] {
      assert k in {0, 1, 2, 3, 4, 5, 6, 7, 8, 9, 10, 11};
    }
  }

  /** Every name in the table is non-empty and its staff step follows from
      the octave and the pitch class alone. */
  lemma DiatonicStepByPitch(m: int)
    requires m in MidiToNoteName
    ensures MidiToNoteName[m] != []
    ensures DiatonicStep(m) == StepOf(m)
  {
    MidiNameAt(m);
    ScaleLetters();
  }

  lemma NamesNonEmpty()
    ensures forall m :: m in MidiToNoteName ==> MidiToNoteName[m] != []
  {
    forall m | m in MidiToNoteName ensures MidiToNoteName[m] != [] {
      DiatonicStepByPitch(m);
    }
  }

  /** Going up a semitone adds a staff step exactly when the new pitch class
      is not a black key. */
  lemma StepOfSemitone(m: int)
    ensures StepOf(m + 1) == StepOf(m) + (if PitchClass(m + 1) in BlackPitchClasses then 0 else 1)
  {
    var r := PitchClass(m);
    assert r in {0, 1, 2, 3, 4, 5, 6, 7, 8, 9, 10, 11};
    if r == 11 {
      assert (m + 1 - 60) / 12 == (m - 60) / 12 + 1;
    } else {
      assert (m + 1 - 60) / 12 == (m - 60) / 12;
    }
  }

  /** The staff table on 60..70 as the letter rule. */
  lemma StaffTableLowerPart(m: int)
    requires 60 <= m <= 70
    ensures StaffYPosition(m) == 120 - 10 * StepOf(m)
  {
    assert m in {60, 61, 62, 63, 64, 65, 66, 67, 68, 69, 70};
  }

  /** The staff table on 71..81 as the letter rule. */
  lemma StaffTableUpperPart(m: int)
    requires 71 <= m <= 81
    ensures StaffYPosition(m) == 120 - 10 * StepOf(m)
  {
    assert m in {71, 72, 73, 74, 75, 76, 77, 78, 79, 80, 81};
  }

  lemma StaffTableByPitch(m: int)
    requires 60 <= m <= 81
    ensures StaffYPosition(m) == 120 - 10 * StepOf(m)
  {
    if m <= 70 {
      StaffTableLowerPart(m);
    } else {
      StaffTableUpperPart(m);
    }
  }

  /** On 60..81 the staff position is fixed by the note's letter name: 120
      (the ledger line of middle C) less 10 per staff step. */
  lemma StaffYPositionFollowsLetters(m: int)
    requires 60 <= m <= 81
    ensures m in MidiToNoteName && MidiToNoteName[m] != []
    ensures StaffYPosition(m) == 120 - 10 * DiatonicStep(m)
  {
    MidiNameAt(m);
    DiatonicStepByPitch(m);
    StaffTableByPitch(m);
  }

  /** Going up a semitone inside 60..81, a black key stays on the slot of
      the natural below it and a natural moves up one step. */
  lemma StaffStep(m: int)
    requires 60 < m <= 81
    ensures m in MidiToNoteName
    ensures IsBlackKey(MidiToNoteName[m]) ==> StaffYPosition(m) == StaffYPosition(m - 1)
    ensures !IsBlackKey(MidiToNoteName[m]) ==> StaffYPosition(m) == StaffYPosition(m - 1) - 10
  {
    MidiNameAt(m);
    BlackKeyByPitch();
    StaffTableByPitch(m);
    StaffTableByPitch(m - 1);
    StepOfSemitone(m - 1);
  }

  /** The black keys 61, 63, ..., 80 share the slot of the natural below. */
  lemma BlackKeysShareSlot()
    ensures forall m :: m in {61, 63, 66, 68, 70, 73, 75, 78, 80} ==> StaffYPosition(m) == StaffYPosition(m - 1)
  {
    forall m | m in {61, 63, 66, 68, 70, 73, 75, 78, 80} ensures StaffYPosition(m) == StaffYPosition(m - 1) {
      StaffTableByPitch(m);
      StaffTableByPitch(m - 1);
      StepOfSemitone(m - 1);
    }
  }

  /** Higher pitches inside 60..81 are never drawn lower. */
  lemma {:induction false} StaffYPositionNonIncreasing(m1: int, m2: int)
    requires 60 <= m1 <= m2 <= 81
    ensures StaffYPosition(m2) <= StaffYPosition(m1)
    decreases m2 - m1
  {
    if m1 < m2 {
      StaffYPositionNonIncreasing(m1, m2 - 1);
      StaffTableByPitch(m2);
      StaffTableByPitch(m2 - 1);
      StepOfSemitone(m2 - 1);
    }
  }

  // ---------------------------------------------------------------------------
  // The accidental slots of a key signature

  /** The naturals on which the sharps of a signature sit, in the order they
      are added: F5 C5 G5 D5 A4 E5 B4. */
  const SharpLetterMidi: seq<int> := [77, 72, 79, 74, 69, 76, 71]

  /** The naturals on which the flats of a signature sit, in the order they
      are added: B4 E5 A4 D5 G4 C5 F4. */
  const FlatLetterMidi: seq<int> := [71, 76, 69, 74, 67, 72, 65]

  /** The k-th sharp slot lies one staff step (10) above the head of the
      k-th sharp's natural. */
  lemma SharpSlotsFollowLetters()
    ensures |SharpLetterMidi| == |SharpYPositions| == 7
    ensures forall k :: 0 <= k < 7 ==> SharpYPositions[k] == StaffYPosition(SharpLetterMidi[k]) - 10
  {
    forall k | 0 <= k < 7 ensures SharpYPositions[k] == StaffYPosition(SharpLetterMidi[k]) - 10 {
      assert k in {0, 1, 2, 3, 4, 5, 6};
    }
  }

  /** The k-th flat slot lies one staff step (10) above the head of the k-th
      flat's natural. */
  lemma FlatSlotsFollowLetters()
    ensures |FlatLetterMidi| == |FlatYPositions| == 7
    ensures forall k :: 0 <= k < 7 ==> FlatYPositions[k] == StaffYPosition(FlatLetterMidi[k]) - 10
  {
    forall k | 0 <= k < 7 ensures FlatYPositions[k] == StaffYPosition(FlatLetterMidi[k]) - 10 {
      assert k in {0, 1, 2, 3, 4, 5, 6};
    }
  }

  /** The sharp slots carry the order of sharps F C G D A E B. */
  lemma SharpSlotLetters()
    ensures forall k :: 0 <= k < 7 ==> SharpLetterMidi[k] in MidiToNoteName
    ensures forall k :: 0 <= k < 7 ==> MidiToNoteName[SharpLetterMidi[k]] == ["F", "C", "G", "D", "A", "E", "B"][k]
  {
    forall k | 0 <= k < 7
      ensures SharpLetterMidi[k] in MidiToNoteName && MidiToNoteName[SharpLetterMidi[k]] == ["F", "C", "G", "D", "A", "E", "B"][k]
    {
      assert k in {0, 1, 2, 3, 4, 5, 6};
    }
  }

  /** The flat slots carry the order of flats B E A D G C F. */
  lemma FlatSlotLetters()
    ensures forall k :: 0 <= k < 7 ==> FlatLetterMidi[k] in MidiToNoteName
    ensures forall k :: 0 <= k < 7 ==> MidiToNoteName[FlatLetterMidi[k]] == ["B", "E", "A", "D", "G", "C", "F"][k]
  {
    forall k | 0 <= k < 7
      ensures FlatLetterMidi[k] in MidiToNoteName && MidiToNoteName[FlatLetterMidi[k]] == ["B", "E", "A", "D", "G", "C", "F"][k]
    {
      assert k in {0, 1, 2, 3, 4, 5, 6};
    }
  }

  // ---------------------------------------------------------------------------
  // The staff position of the highest chord tone

  /** The resolver reaches 82 (A#5, the major seventh of B), which the staff
      table does not hold: the note is drawn at the default 60, on the line
      of the chord's root B4 and below its fifth F#5, instead of on the A5
      slot 0 its letter calls for. */
  lemma StaffYPositionMissesMajorSeventhOfB()
    ensures ChordNotes("B", Major7).midiNotes == [71, 75, 78, 82]
    ensures StaffYPosition(82) == 60 == StaffYPosition(71)
    ensures StaffYPosition(82) > StaffYPosition(78)
    ensures 82 in MidiToNoteName && MidiToNoteName[82] != [] && 120 - 10 * DiatonicStep(82) == 0
  {
    NamesNonEmpty();
  }

  /** The staff table extended over the whole name table 60..83 by the same
      letter rule: A#5 on the A5 slot, B5 one step above. */
  const StaffMapping: map<int, int> := WhiteKeyMapping[82 := 0][83 := -10]

  /** The staff position with the table covering every number the name table
      names, and the same default of 60 outside it. */
  function ChordStaffYPosition(midi: int): (y: int)
    ensures -10 <= y <= 120 && y % 10 == 0
    ensures !(60 <= midi <= 83) ==> y == 60
    ensures 60 <= midi <= 81 ==> y == StaffYPosition(midi)
  {
    if midi in StaffMapping then StaffMapping[midi] else 60
  }

  /** On every named MIDI number the extended table follows the letter
      rule. */
  lemma ChordStaffYPositionFollowsLetters(m: int)
    requires m in MidiToNoteName
    ensures MidiToNoteName[m] != []
    ensures ChordStaffYPosition(m) == 120 - 10 * DiatonicStep(m)
  {
    MidiNameAt(m);
    DiatonicStepByPitch(m);
    if m <= 81 {
      StaffTableByPitch(m);
    } else {
      assert m in {82, 83};
    }
  }

  /** A minor or major third up from 60..66 reaches a higher staff slot. */
  lemma ThirdRaisesLowerPart(m: int, d: int)
    requires 60 <= m <= 66 && 3 <= d <= 4
    ensures ChordStaffYPosition(m + d) < ChordStaffYPosition(m)
  {
    assert m in {60, 61, 62, 63, 64, 65, 66};
  }

  /** The same from 67..73. */
  lemma ThirdRaisesMiddlePart(m: int, d: int)
    requires 67 <= m <= 73 && 3 <= d <= 4
    ensures ChordStaffYPosition(m + d) < ChordStaffYPosition(m)
  {
    assert m in {67, 68, 69, 70, 71, 72, 73};
  }

  /** The same from 74 up to the top of the name table. */
  lemma ThirdRaisesUpperPart(m: int, d: int)
    requires 74 <= m && m + d <= 83 && 3 <= d <= 4
    ensures ChordStaffYPosition(m + d) < ChordStaffYPosition(m)
  {
    assert m in {74, 75, 76, 77, 78, 79, 80};
  }

  /** A minor or major third up always reaches a higher staff slot with the
      extended table. */
  lemma ThirdRaisesStaffPosition(m: int, d: int)
    requires 60 <= m && m + d <= 83 && 3 <= d <= 4
    ensures ChordStaffYPosition(m + d) < ChordStaffYPosition(m)
  {
    if m <= 66 {
      ThirdRaisesLowerPart(m, d);
    } else if m <= 73 {
      ThirdRaisesMiddlePart(m, d);
    } else {
      ThirdRaisesUpperPart(m, d);
    }
  }

  /** Notes between 60 and 83, each a minor or major third above the one
      before, are drawn strictly rising with the extended table. */
  lemma StackedThirdsDrawnAscending(ms: seq<int>)
    requires forall i :: 0 <= i < |ms| ==> 60 <= ms[i] <= 83
    requires forall i :: 0 < i < |ms| ==> 3 <= ms[i] - ms[i - 1] <= 4
    ensures forall i :: 0 < i < |ms| ==> ChordStaffYPosition(ms[i]) < ChordStaffYPosition(ms[i - 1])
  {
    forall i | 0 < i < |ms| ensures ChordStaffYPosition(ms[i]) < ChordStaffYPosition(ms[i - 1]) {
      ThirdRaisesStaffPosition(ms[i - 1], ms[i] - ms[i - 1]);
    }
  }

  /** With the extended table every resolved chord is drawn strictly rising,
      each note above the one before. */
  lemma ChordDrawnAscending(root: string, t: ChordType)
    requires root in NoteToMidi
    ensures forall i :: 0 < i < |ChordNotes(root, t).midiNotes| ==>
              ChordStaffYPosition(ChordNotes(root, t).midiNotes[i]) < ChordStaffYPosition(ChordNotes(root, t).midiNotes[i - 1])
  {
    ChordStacksThirds(root, t);
    StackedThirdsDrawnAscending(ChordNotes(root, t).midiNotes);
  }

  /** A resolved chord is a stack of minor and major thirds, so its MIDI
      numbers strictly rise. */
  lemma ChordStacksThirds(root: string, t: ChordType)
    requires root in NoteToMidi
    ensures forall i :: 0 < i < |ChordNotes(root, t).midiNotes| ==>
              3 <= ChordNotes(root, t).midiNotes[i] - ChordNotes(root, t).midiNotes[i - 1] <= 4
    ensures forall i, j :: 0 <= i < j < |ChordNotes(root, t).midiNotes| ==>
              ChordNotes(root, t).midiNotes[i] < ChordNotes(root, t).midiNotes[j]
  {
    var ms := ChordNotes(root, t).midiNotes;
    var iv := ChordIntervals(t);
    forall i | 0 < i < |ms| ensures 3 <= ms[i] - ms[i - 1] <= 4 {
      assert ms[i] == NoteToMidi[root] + iv[i] && ms[i - 1] == NoteToMidi[root] + iv[i - 1];
    }
    forall i, j | 0 <= i < j < |ms| ensures ms[i] < ms[j] {
      assert ms[i] == NoteToMidi[root] + iv[i] && ms[j] == NoteToMidi[root] + iv[j];
    }
  }
}
