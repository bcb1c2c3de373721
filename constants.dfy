/** The static tables of the engine: the chromatic scale, the circle of fifths
    with its relative minors, the key signatures and their accidental
    placements, the chord vocabulary and the two pitch tables. */
module Constants {
  import opened Types

  /** The chromatic scale from middle C, spelled with sharps. */
  const Notes: seq<string> := ["C", "C#", "D", "D#", "E", "F", "F#", "G", "G#", "A", "A#", "B"]

  /** The major keys in ascending fifths from C; sharp spellings up to F#,
      flat spellings from Db on. */
  const CircleOfFifthsMajor: seq<string> := ["C", "G", "D", "A", "E", "B", "F#", "Db", "Ab", "Eb", "Bb", "F"]

  /** The relative minor of each circle label, itself a note name. */
  const RelativeMinor: map<string, string> := map[
    "C" := "A", "G" := "E", "D" := "B", "A" := "F#", "E" := "C#", "B" := "G#",
    "F#" := "D#", "Db" := "Bb", "Ab" := "F", "Eb" := "C", "Bb" := "G", "F" := "D"
  ]

  /** The kind of accidental a key signature draws; NoAccidental is the
      source's 'none'. */
  datatype AccidentalType = Sharp | Flat | NoAccidental

  datatype KeySignature = KeySignature(accidental: AccidentalType, count: int)

  /** Key signatures of the 15 major keys and, under the suffix "m", of the
      15 minor keys. */
  const KeySignatures: map<string, KeySignature> := map[
    "C" := KeySignature(NoAccidental, 0),
    "G" := KeySignature(Sharp, 1),
    "D" := KeySignature(Sharp, 2),
    "A" := KeySignature(Sharp, 3),
    "E" := KeySignature(Sharp, 4),
    "B" := KeySignature(Sharp, 5),
    "F#" := KeySignature(Sharp, 6),
    "C#" := KeySignature(Sharp, 7),
    "F" := KeySignature(Flat, 1),
    "Bb" := KeySignature(Flat, 2),
    "Eb" := KeySignature(Flat, 3),
    "Ab" := KeySignature(Flat, 4),
    "Db" := KeySignature(Flat, 5),
    "Gb" := KeySignature(Flat, 6),
    "Cb" := KeySignature(Flat, 7),
    "Am" := KeySignature(NoAccidental, 0),
    "Em" := KeySignature(Sharp, 1),
    "Bm" := KeySignature(Sharp, 2),
    "F#m" := KeySignature(Sharp, 3),
    "C#m" := KeySignature(Sharp, 4),
    "G#m" := KeySignature(Sharp, 5),
    "D#m" := KeySignature(Sharp, 6),
    "A#m" := KeySignature(Sharp, 7),
    "Dm" := KeySignature(Flat, 1),
    "Gm" := KeySignature(Flat, 2),
    "Cm" := KeySignature(Flat, 3),
    "Fm" := KeySignature(Flat, 4),
    "Bbm" := KeySignature(Flat, 5),
    "Ebm" := KeySignature(Flat, 6),
    "Abm" := KeySignature(Flat, 7)
  ]

  /** Vertical treble-clef slots of the 1st..7th sharp (F C G D A E B) and
      the 1st..7th flat (B E A D G C F). */
  const SharpYPositions: seq<int> := [10, 40, 0, 30, 60, 20, 50]
  const FlatYPositions: seq<int> := [50, 20, 60, 30, 70, 40, 80]

  /** Semitone offsets of each chord quality from its root: a root followed
      by stacked minor or major thirds, all inside one octave. */
  function ChordIntervals(t: ChordType): (iv: seq<int>)
    ensures |iv| == 3 || |iv| == 4
    ensures iv[0] == 0 && iv[|iv| - 1] <= 11
    ensures forall i :: 0 < i < |iv| ==> 3 <= iv[i] - iv[i - 1] <= 4
    ensures forall i, j :: 0 <= i < j < |iv| ==> iv[i] < iv[j]
    ensures |iv| == 4 <==> t in {Dominant7, Major7, Minor7}
  {
    match t
    case Major => [0, 4, 7]
    case Minor => [0, 3, 7]
    case Diminished => [0, 3, 6]
    case Augmented => [0, 4, 8]
    case Dominant7 => [0, 4, 7, 10]
    case Major7 => [0, 4, 7, 11]
    case Minor7 => [0, 3, 7, 10]
  }

  /** MIDI number of each of the 17 spellings, middle C = 60. */
  const NoteToMidi: map<string, int> := map[
    "C" := 60, "C#" := 61, "Db" := 61, "D" := 62, "D#" := 63, "Eb" := 63, "E" := 64, "F" := 65,
    "F#" := 66, "Gb" := 66, "G" := 67, "G#" := 68, "Ab" := 68, "A" := 69, "A#" := 70, "Bb" := 70, "B" := 71
  ]

  /** Sharp-biased name of each MIDI number over two octaves from middle C. */
  const MidiToNoteName: map<int, string> := map[
    60 := "C", 61 := "C#", 62 := "D", 63 := "D#", 64 := "E", 65 := "F",
    66 := "F#", 67 := "G", 68 := "G#", 69 := "A", 70 := "A#", 71 := "B",
    72 := "C", 73 := "C#", 74 := "D", 75 := "D#", 76 := "E", 77 := "F",
    78 := "F#", 79 := "G", 80 := "G#", 81 := "A", 82 := "A#", 83 := "B"
  ]

  /** The display symbol of each chord quality. */
  function ChordTypeSymbol(t: ChordType): (sym: string)
    ensures |sym| <= 4
    ensures sym != [] ==> sym[0] != '#' && sym[0] != 'b'
  {
    match t
    case Major => ""
    case Minor => "m"
    case Diminished => "dim"
    case Augmented => "aug"
    case Dominant7 => "7"
    case Major7 => "maj7"
    case Minor7 => "m7"
  }

  /** The pitch class (0 = C) of a MIDI number. */
  function PitchClass(midi: int): (pc: int)
    ensures 0 <= pc < 12 && (midi - pc) % 12 == 0
  {
    midi % 12
  }

  /** Within the octave from middle C, the pitch class is the distance from C. */
  lemma PitchClassFromMiddleC(p: int)
    requires 0 <= p < 12
    ensures PitchClass(60 + p) == p
  {
  }

  /** The five flat spellings, each paired with its sharp twin in SharpTwins. */
  const FlatSpellings: seq<string> := ["Db", "Eb", "Gb", "Ab", "Bb"]
  const SharpTwins: seq<string> := ["C#", "D#", "F#", "G#", "A#"]
  /** The pitch classes (semitones above C) the five flat names stand for. */
  const FlatPitchClasses: seq<int> := [1, 3, 6, 8, 10]

  // ---------------------------------------------------------------------------
  // The pitch tables

  /** A sequence without repeats has as many distinct elements as entries. */
  lemma {:induction false} DistinctCardinality<T>(s: seq<T>)
    requires forall i, j :: 0 <= i < j < |s| ==> s[i] != s[j]
    ensures |set x | x in s| == |s|
  {
    if s != [] {
      var init, last := s[..|s| - 1], s[|s| - 1];
      DistinctCardinality(init);
      assert last !in init;
      assert (set x | x in s) == (set x | x in init) + {last};
    }
  }

  /** The scale has twelve distinct names, and the i-th is i semitones above
      middle C. */
  lemma NotesAreChromatic()
    ensures |Notes| == 12
    ensures forall i, j :: 0 <= i < j < |Notes| ==> Notes[i] != Notes[j]
    ensures forall i :: 0 <= i < |Notes| ==> Notes[i] in NoteToMidi && NoteToMidi[Notes[i]] == 60 + i
  {
  }

  /** The 17 spellings NOTE_TO_MIDI knows: the scale, then the five flats. */
  const Spellings: seq<string> := Notes + FlatSpellings

  lemma SpellingsDistinct()
    ensures |Spellings| == 17
    ensures forall i, j :: 0 <= i < j < |Spellings| ==> Spellings[i] != Spellings[j]
  {
  }

  lemma NoteToMidiKeys()
    ensures NoteToMidi.Keys == set n | n in Spellings
  {
  }

  /** NOTE_TO_MIDI is defined on exactly the twelve scale names and the five
      flat names, seventeen in all. */
  lemma NoteToMidiVocabulary()
    ensures NoteToMidi.Keys == set n | n in Notes + FlatSpellings
    ensures |NoteToMidi| == 17
  {
    NoteToMidiKeys();
    SpellingsDistinct();
    DistinctCardinality(Spellings);
  }

  /** Every spelling lies in the octave from middle C. */
  lemma NoteToMidiRange()
    ensures forall n :: n in NoteToMidi ==> 60 <= NoteToMidi[n] <= 71
  {
  }

  /** Every flat name sounds the same as its sharp twin. */
  lemma FlatsMatchSharpTwins()
    ensures forall k :: 0 <= k < |FlatSpellings| ==>
              FlatSpellings[k] in NoteToMidi && SharpTwins[k] in NoteToMidi
              && NoteToMidi[FlatSpellings[k]] == NoteToMidi[SharpTwins[k]]
  {
  }

  /** The k-th flat name sounds at the k-th black pitch class, where the
      scale spells it as the k-th sharp twin. */
  lemma FlatSpellingPitches()
    ensures forall k :: 0 <= k < |FlatSpellings| ==>
              FlatSpellings[k] in NoteToMidi && NoteToMidi[FlatSpellings[k]] == 60 + FlatPitchClasses[k]
              && 0 <= FlatPitchClasses[k] < |Notes| && Notes[FlatPitchClasses[k]] == SharpTwins[k]
  {
  }

  /** No name in the scale carries a flat sign. */
  lemma NotesHaveNoFlatSign()
    ensures forall k, j :: 0 <= k < |Notes| && 0 <= j < |Notes[k]| ==> Notes[k][j] != 'b'
  {
  }

  /** Every MIDI number 60..83 (and no other) has a name, the one at its
      pitch class in the sharp-spelled scale. */
  lemma MidiNameAt(m: int)
    ensures m in MidiToNoteName <==> 60 <= m <= 83
    ensures m in MidiToNoteName ==> MidiToNoteName[m] == Notes[PitchClass(m)]
  {
    if 60 <= m < 72 {
      assert m in {60, 61, 62, 63, 64, 65, 66, 67, 68, 69, 70, 71};
    } else if 72 <= m <= 83 {
      assert m in {72, 73, 74, 75, 76, 77, 78, 79, 80, 81, 82, 83};
    }
  }

  /** MIDI_TO_NOTE_NAME is defined exactly on 60..83 and names each number by
      its place in the sharp-spelled scale. */
  lemma MidiToNoteNameIsChromatic()
    ensures forall m :: m in MidiToNoteName <==> 60 <= m <= 83
    ensures forall m :: m in MidiToNoteName ==> MidiToNoteName[m] == Notes[PitchClass(m)]
  {
    forall m
      ensures (m in MidiToNoteName <==> 60 <= m <= 83)
              && (m in MidiToNoteName ==> MidiToNoteName[m] == Notes[PitchClass(m)])
    {
      MidiNameAt(m);
    }
  }

  /** Both octaves of the name table spell the sharp-biased scale, so the
      table repeats every twelve semitones. */
  lemma MidiToNoteNamePeriodic()
    ensures forall k :: 0 <= k < 12 ==>
              60 + k in MidiToNoteName && 72 + k in MidiToNoteName
              && MidiToNoteName[60 + k] == Notes[k] && MidiToNoteName[72 + k] == Notes[k]
  {
    forall k | 0 <= k < 12
      ensures 60 + k in MidiToNoteName && 72 + k in MidiToNoteName
              && MidiToNoteName[60 + k] == Notes[k] && MidiToNoteName[72 + k] == Notes[k]
    {
      MidiNameAt(60 + k);
      MidiNameAt(72 + k);
    }
  }

  /** Every name the resolver can look up comes back as the sharp or natural
      spelling of the same pitch, and as itself exactly when it is one of the
      twelve scale names. */
  lemma NoteNameRoundTrip(n: string)
    requires n in NoteToMidi
    ensures NoteToMidi[n] in MidiToNoteName
    ensures MidiToNoteName[NoteToMidi[n]] in Notes
    ensures NoteToMidi[MidiToNoteName[NoteToMidi[n]]] == NoteToMidi[n]
    ensures MidiToNoteName[NoteToMidi[n]] == n <==> n in Notes
  {
    NoteToMidiRange();
    var m := NoteToMidi[n];
    PitchClassFromMiddleC(m - 60);
    MidiNameAt(m);
    assert MidiToNoteName[m] == Notes[m - 60];
    NotesAreChromatic();
    if n in Notes {
      var i :| 0 <= i < |Notes| && Notes[i] == n;
      assert m == 60 + i;
    }
  }

  // ---------------------------------------------------------------------------
  // The circle of fifths

  /** The i-th circle label is i fifths (7 semitones each) above C, reduced to
      one octave. */
  lemma CircleAscendsByFifths()
    ensures |CircleOfFifthsMajor| == 12
    ensures forall i :: 0 <= i < 12 ==>
              CircleOfFifthsMajor[i] in NoteToMidi
              && NoteToMidi[CircleOfFifthsMajor[i]] == 60 + PitchClass(7 * i)
  {
  }

  /** Each step of the circle, including the wrap from F back to C, rises a
      fifth. */
  lemma CircleCloses()
    ensures forall i, j :: 0 <= i < 12 && j == (i + 1) % 12 ==>
              CircleOfFifthsMajor[i] in NoteToMidi && CircleOfFifthsMajor[j] in NoteToMidi
              && PitchClass(NoteToMidi[CircleOfFifthsMajor[j]] - NoteToMidi[CircleOfFifthsMajor[i]]) == 7
  {
    CircleAscendsByFifths();
    forall i, j | 0 <= i < 12 && j == (i + 1) % 12
      ensures PitchClass(NoteToMidi[CircleOfFifthsMajor[j]] - NoteToMidi[CircleOfFifthsMajor[i]]) == 7
    {
      FifthStep(i);
    }
  }

  /** The arithmetic of one step: i + 1 fifths lie 7 semitones above i
      fifths, modulo the octave, also when i + 1 wraps round to 0. */
  lemma FifthStep(i: int)
    requires 0 <= i < 12
    ensures PitchClass(PitchClass(7 * ((i + 1) % 12)) - PitchClass(7 * i)) == 7
  {
    assert i in {0, 1, 2, 3, 4, 5, 6, 7, 8, 9, 10, 11};
  }

  /** No pitch class appears twice on the circle. */
  lemma CircleDistinctPitches()
    ensures forall i, j :: 0 <= i < j < 12 ==> NoteToMidi[CircleOfFifthsMajor[i]] != NoteToMidi[CircleOfFifthsMajor[j]]
  {
  }

  /** Every pitch of the scale appears on the circle: the note p semitones
      above C sits 7p fifths round, since 7 is its own inverse modulo 12. */
  lemma CircleCoversPitchClasses()
    ensures forall p :: 0 <= p < 12 ==>
              CircleOfFifthsMajor[PitchClass(7 * p)] in NoteToMidi && Notes[p] in NoteToMidi
              && NoteToMidi[CircleOfFifthsMajor[PitchClass(7 * p)]] == NoteToMidi[Notes[p]]
  {
    CircleAscendsByFifths();
    NotesAreChromatic();
    forall p | 0 <= p < 12
      ensures NoteToMidi[CircleOfFifthsMajor[PitchClass(7 * p)]] == NoteToMidi[Notes[p]]
    {
      FifthsInverse(p);
    }
  }

  /** Seven fifths up is a semitone up: 7 * 7 = 49 = 4 * 12 + 1. */
  lemma FifthsInverse(p: int)
    requires 0 <= p < 12
    ensures PitchClass(7 * PitchClass(7 * p)) == p
  {
    assert p in {0, 1, 2, 3, 4, 5, 6, 7, 8, 9, 10, 11};
  }

  /** The circle labels are exactly the keys of the relative-minor table. */
  lemma RelativeMinorKeys()
    ensures RelativeMinor.Keys == set k | k in CircleOfFifthsMajor
  {
  }

  /** Every circle label has a relative minor, which is a note name 9
      semitones (a major sixth) above it. */
  lemma RelativeMinorIsMajorSixthUp()
    ensures forall i :: 0 <= i < 12 ==>
              CircleOfFifthsMajor[i] in RelativeMinor && RelativeMinor[CircleOfFifthsMajor[i]] in NoteToMidi
              && PitchClass(NoteToMidi[RelativeMinor[CircleOfFifthsMajor[i]]] - NoteToMidi[CircleOfFifthsMajor[i]]) == 9
  {
  }

  // ---------------------------------------------------------------------------
  // Key signatures

  /** The 30 keys of the signature table, majors first. */
  const SignatureKeys: seq<string> := [
    "C", "G", "D", "A", "E", "B", "F#", "C#", "F", "Bb", "Eb", "Ab", "Db", "Gb", "Cb",
    "Am", "Em", "Bm", "F#m", "C#m", "G#m", "D#m", "A#m", "Dm", "Gm", "Cm", "Fm", "Bbm", "Ebm", "Abm"
  ]

  /** The minor keys, with their "m" suffix, of the circle labels in circle
      order. */
  const CircleMinorKeys: seq<string> := ["Am", "Em", "Bm", "F#m", "C#m", "G#m", "D#m", "Bbm", "Fm", "Cm", "Gm", "Dm"]

  /** A signature counts 0..7 accidentals and is 'none' exactly when it
      counts none. */
  predicate WellFormedSignature(sig: KeySignature) {
    0 <= sig.count <= 7 && (sig.accidental == NoAccidental <==> sig.count == 0)
  }

  lemma SignatureKeysDistinct()
    ensures |SignatureKeys| == 30
    ensures forall i, j :: 0 <= i < j < |SignatureKeys| ==> SignatureKeys[i] != SignatureKeys[j]
  {
  }

  lemma KeySignaturesKeys()
    ensures KeySignatures.Keys == set k | k in SignatureKeys
  {
  }

  lemma MajorSignaturesWellFormed()
    ensures forall i :: 0 <= i < 15 ==> SignatureKeys[i] in KeySignatures && WellFormedSignature(KeySignatures[SignatureKeys[i]])
  {
    forall i | 0 <= i < 15 ensures SignatureKeys[i] in KeySignatures && WellFormedSignature(KeySignatures[SignatureKeys[i]]) {
      assert i in {0, 1, 2, 3, 4, 5, 6, 7, 8, 9, 10, 11, 12, 13, 14};
    }
  }

  lemma MinorSignaturesWellFormed()
    ensures forall i :: 15 <= i < 30 ==> SignatureKeys[i] in KeySignatures && WellFormedSignature(KeySignatures[SignatureKeys[i]])
  {
    forall i | 15 <= i < 30 ensures SignatureKeys[i] in KeySignatures && WellFormedSignature(KeySignatures[SignatureKeys[i]]) {
      assert i in {15, 16, 17, 18, 19, 20, 21, 22, 23, 24, 25, 26, 27, 28, 29};
    }
  }

  /** The table has 30 keys and each of its signatures is well formed. */
  lemma KeySignaturesWellFormed()
    ensures |KeySignatures| == 30
    ensures forall k :: k in KeySignatures ==> WellFormedSignature(KeySignatures[k])
  {
    KeySignaturesKeys();
    SignatureKeysDistinct();
    DistinctCardinality(SignatureKeys);
    MajorSignaturesWellFormed();
    MinorSignaturesWellFormed();
    forall k | k in KeySignatures ensures WellFormedSignature(KeySignatures[k]) {
      var i :| 0 <= i < |SignatureKeys| && SignatureKeys[i] == k;
    }
  }

  lemma CircleMinorKeysAreRelativeMinors()
    ensures forall i :: 0 <= i < 12 ==>
              CircleOfFifthsMajor[i] in RelativeMinor && RelativeMinor[CircleOfFifthsMajor[i]] + "m" == CircleMinorKeys[i]
  {
  }

  lemma CircleMinorSignaturesFirstHalf()
    ensures forall i :: 0 <= i < 6 ==>
              CircleMinorKeys[i] in KeySignatures && CircleOfFifthsMajor[i] in KeySignatures
              && KeySignatures[CircleMinorKeys[i]] == KeySignatures[CircleOfFifthsMajor[i]]
  {
  }

  lemma CircleMinorSignaturesSecondHalf()
    ensures forall i :: 6 <= i < 12 ==>
              CircleMinorKeys[i] in KeySignatures && CircleOfFifthsMajor[i] in KeySignatures
              && KeySignatures[CircleMinorKeys[i]] == KeySignatures[CircleOfFifthsMajor[i]]
  {
  }

  /** Every circle key has a signature, and its relative minor (with the "m"
      suffix) has the same one. */
  lemma RelativeMinorSharesSignature()
    ensures forall i :: 0 <= i < 12 ==>
              CircleOfFifthsMajor[i] in KeySignatures && CircleOfFifthsMajor[i] in RelativeMinor
              && RelativeMinor[CircleOfFifthsMajor[i]] + "m" in KeySignatures
              && KeySignatures[RelativeMinor[CircleOfFifthsMajor[i]] + "m"] == KeySignatures[CircleOfFifthsMajor[i]]
  {
    CircleMinorKeysAreRelativeMinors();
    CircleMinorSignaturesFirstHalf();
    CircleMinorSignaturesSecondHalf();
  }

  /** C, at the top of the circle, has no accidental... */
  lemma TopOfCircle()
    ensures CircleOfFifthsMajor[0] in KeySignatures && KeySignatures[CircleOfFifthsMajor[0]] == KeySignature(NoAccidental, 0)
  {
  }

  /** ... each step clockwise up to F# adds a sharp (F# has 6)... */
  lemma SharpSideOfCircle()
    ensures forall i :: 1 <= i <= 6 ==>
              CircleOfFifthsMajor[i] in KeySignatures && KeySignatures[CircleOfFifthsMajor[i]] == KeySignature(Sharp, i)
  {
    forall i | 1 <= i <= 6
      ensures CircleOfFifthsMajor[i] in KeySignatures && KeySignatures[CircleOfFifthsMajor[i]] == KeySignature(Sharp, i)
    {
      assert i in {1, 2, 3, 4, 5, 6};
    }
  }

  /** ... and from Db (5 flats) each step removes a flat, down to F (1 flat). */
  lemma FlatSideOfCircle()
    ensures forall i :: 7 <= i < 12 ==>
              CircleOfFifthsMajor[i] in KeySignatures && KeySignatures[CircleOfFifthsMajor[i]] == KeySignature(Flat, 12 - i)
  {
    forall i | 7 <= i < 12
      ensures CircleOfFifthsMajor[i] in KeySignatures && KeySignatures[CircleOfFifthsMajor[i]] == KeySignature(Flat, 12 - i)
    {
      assert i in {7, 8, 9, 10, 11};
    }
  }

  // ---------------------------------------------------------------------------
  // How the staff reads the signatures

  /** The signature drawn for a key: the table's entry, or no accidentals
      for a key the table does not hold. Whatever the key, the signature is
      well formed. */
  function SignatureOrDefault(key: string): (sig: KeySignature)
    ensures WellFormedSignature(sig)
    ensures key in KeySignatures ==> sig == KeySignatures[key]
    ensures key !in KeySignatures ==> sig == KeySignature(NoAccidental, 0)
  {
    KeySignaturesWellFormed();
    if key in KeySignatures then KeySignatures[key] else KeySignature(NoAccidental, 0)
  }

  /** Two of the circle's relative minors, D# (of F#) and G# (of B), are not
      keys of the signature table as bare names, so a key looked up by either
      falls back to no accidentals; every other relative minor is. */
  lemma RelativeMinorFallback()
    ensures forall i :: 0 <= i < 12 ==> CircleOfFifthsMajor[i] in RelativeMinor
    ensures forall i :: 0 <= i < 12 ==>
              (RelativeMinor[CircleOfFifthsMajor[i]] in KeySignatures <==> i != 5 && i != 6)
    ensures RelativeMinor["B"] == "G#" && RelativeMinor["F#"] == "D#"
    ensures SignatureOrDefault("D#") == KeySignature(NoAccidental, 0)
    ensures SignatureOrDefault("G#") == KeySignature(NoAccidental, 0)
  {
    forall i | 0 <= i < 12
      ensures RelativeMinor[CircleOfFifthsMajor[i]] in KeySignatures <==> i != 5 && i != 6
    {
      assert i in {0, 1, 2, 3, 4, 5, 6, 7, 8, 9, 10, 11};
    }
  }

  /** The heights of the accidentals drawn for a key: the first `count`
      slots of the sharp or the flat placement table, none for a key without
      accidentals. Every index stays inside the seven slots. */
  function AccidentalYPositions(key: string): (ys: seq<int>)
    ensures |ys| == SignatureOrDefault(key).count <= |SharpYPositions| == |FlatYPositions|
    ensures SignatureOrDefault(key).accidental == Sharp ==> ys == SharpYPositions[..|ys|]
    ensures SignatureOrDefault(key).accidental == Flat ==> ys == FlatYPositions[..|ys|]
    ensures forall i :: 0 <= i < |ys| ==> 0 <= ys[i] <= 80 && ys[i] % 10 == 0
  {
    var sig := SignatureOrDefault(key);
    if sig.accidental == NoAccidental then []
    else if sig.accidental == Sharp then SharpYPositions[..sig.count]
    else FlatYPositions[..sig.count]
  }

  /** On the sharp side of the circle the i-th key draws the first i sharp
      slots, and on the flat side the i-th key draws the first 12 - i flat
      slots. */
  lemma CircleKeyAccidentals(i: int)
    requires 0 <= i < 12
    ensures 1 <= i <= 6 ==> AccidentalYPositions(CircleOfFifthsMajor[i]) == SharpYPositions[..i]
    ensures 7 <= i ==> AccidentalYPositions(CircleOfFifthsMajor[i]) == FlatYPositions[..12 - i]
    ensures i == 0 ==> AccidentalYPositions(CircleOfFifthsMajor[i]) == []
  {
    TopOfCircle();
    SharpSideOfCircle();
    FlatSideOfCircle();
  }
}
