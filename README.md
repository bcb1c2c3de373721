# Chord explorer music-theory engine in Dafny

This project models the music-theory engine of an interactive chord explorer. The app
lets the user pick a root note and a chord quality. It then shows the chord on a treble
staff, on a piano keyboard and on a circle of fifths, and plays it. The engine behind
those views has two parts:

- **The static tables** (`constants.ts`). They are:
  - the chromatic scale, spelled with sharps;
  - the circle of fifths and its relative minors;
  - the key signatures of 15 major and 15 minor keys;
  - the seven staff slots for sharps and for flats;
  - the interval set and display symbol of each of the seven chord qualities;
  - the 17-name map from note name to MIDI number, anchored at middle C = 60;
  - the 24-entry map from MIDI number (60..83) back to a sharp-biased name.
- **Three pure functions** (`utils/musicLogic.ts`):
  - the chord resolver `getChordNotes`, here `MusicLogic.ChordNotes`;
  - the staff position mapper `getStaffYPosition`, here `MusicLogic.StaffYPosition`;
  - the black-key test `isBlackKey`, here `MusicLogic.IsBlackKey`.

Files:

- `types.dfy`: module `Types`, the chord quality and chord definition values.
- `constants.dfy`: module `Constants`, the tables and the facts proved about them. It
  also holds the two lines by which the staff view reads the signature table: the
  fallback for an unknown key and the indexing into the slot tables.
- `music_logic.dfy`: module `MusicLogic`, the three functions and their lemmas. It also
  holds the extended staff table described under "## Findings".

Note names are strings, because the source keys its maps by string and builds chord
symbols by concatenation. Tables keyed by chord quality are total functions over the
`ChordType` datatype. Lookups into string- or number-keyed tables are Dafny maps, and
their preconditions say which keys exist.

The resolver accepts any of the 17 names of the note-to-MIDI map, flat names included.
The typed signature takes only the 12 sharp or natural names, but the circle of fifths
passes its flat labels (Db, Ab, Eb, Bb) straight in (`components/CircleOfFifths.tsx:50`).

## Model

| member | source | states |
|---|---|---|
| Constants.ChordIntervals | constants.ts:57-65 | Every interval set starts at 0, rises strictly in steps of a minor or major third (3 or 4), ends at most at 11 and has 3 notes, or 4 exactly for the three seventh chords. |
| Constants.ChordTypeSymbol | constants.ts:79-87 | Every one of the seven qualities has a symbol of at most 4 characters, and no symbol starts with '#' or 'b', so a symbol cannot be read as part of the root. |
| Constants.NotesAreChromatic | constants.ts:5 | The scale has 12 distinct names, and the i-th is mapped to 60 + i. |
| Constants.NoteToMidiVocabulary | constants.ts:67-70 | The note-to-MIDI map is defined on exactly the 12 scale names and the 5 flat names, 17 keys in all. |
| Constants.NoteToMidiRange | constants.ts:67-70 | Every name maps into the octave 60..71. |
| Constants.FlatsMatchSharpTwins | constants.ts:67-70 | Db, Eb, Gb, Ab and Bb map to the same number as C#, D#, F#, G# and A#. |
| Constants.FlatSpellingPitches | constants.ts:67-70 | The k-th flat name sounds at the k-th black pitch class (1, 3, 6, 8, 10), where the scale holds its sharp twin. |
| Constants.NotesHaveNoFlatSign | constants.ts:5 | No scale name contains a 'b'. |
| Constants.MidiNameAt | constants.ts:72-77 | A number has a name exactly when it lies in 60..83, and that name is the scale name at its pitch class. |
| Constants.MidiToNoteNameIsChromatic | constants.ts:72-77 | The same for all numbers at once: the name table is defined exactly on 60..83 and equals the scale at (m - 60) mod 12. |
| Constants.MidiToNoteNamePeriodic | constants.ts:72-77 | Both octaves of the name table spell the scale, so the name of m + 12 is the name of m. |
| Constants.NoteNameRoundTrip | constants.ts:67-77 | Naming the number of any of the 17 names gives a scale name of the same pitch, and gives the name back exactly when it is a scale name. |
| Constants.CircleAscendsByFifths | constants.ts:8 | The i-th circle label is 7i semitones above C, reduced to the octave. |
| Constants.CircleCloses | constants.ts:8 | Each consecutive pair of labels, including the wrap from F back to C, is a fifth (7 semitones mod 12) apart. |
| Constants.CircleDistinctPitches | constants.ts:8 | No pitch appears twice on the circle. |
| Constants.CircleCoversPitchClasses | constants.ts:8 | Every pitch of the scale has a circle label, found 7p places round. |
| Constants.RelativeMinorKeys | constants.ts:11-14 | The relative-minor table is defined on exactly the 12 circle labels. |
| Constants.RelativeMinorIsMajorSixthUp | constants.ts:11-14 | Every relative minor is a note name 9 semitones (mod 12) above its major. |
| Constants.KeySignaturesWellFormed | constants.ts:19-51 | The signature table has 30 keys, and each signature counts 0..7 accidentals and is 'none' exactly when the count is 0. |
| Constants.RelativeMinorSharesSignature | constants.ts:11-51 | For every circle key K, the key formed by K's relative minor and "m" has a signature, and it equals K's. |
| Constants.TopOfCircle | constants.ts:8-20 | C, at the top of the circle, has no accidentals. |
| Constants.SharpSideOfCircle | constants.ts:8-27 | The circle keys at places 1..6 have i sharps. |
| Constants.FlatSideOfCircle | constants.ts:8-34 | The circle keys at places 7..11 have 12 - i flats. |
| Constants.RelativeMinorFallback | constants.ts:11-51 | Of the 12 relative minors, exactly D# (of F#) and G# (of B) are not keys of the signature table as bare names, and the staff's lookup gives them no accidentals. |
| Constants.SignatureOrDefault | components/Staff.tsx:13 | The signature the staff draws is the table's entry for a known key and no accidentals for an unknown one, so it is always well formed. |
| Constants.AccidentalYPositions | components/Staff.tsx:27-28 | The accidental heights drawn for a key are the first `count` slots of the sharp or the flat table, none for 'none'. The count never exceeds the 7 slots, so no index is out of range. |
| Constants.CircleKeyAccidentals | constants.ts:19-55 | A circle key on the sharp side draws the first i sharp slots, and one on the flat side the first 12 - i flat slots. |
| MusicLogic.ChordNotes | utils/musicLogic.ts:5-21 | Root and quality are returned unchanged. There is one MIDI number per interval, equal to the root's number plus the interval, and all lie in 60..82. So every name lookup succeeds, and each note is the scale name at its pitch class. The symbol is the root followed by the quality's symbol. |
| MusicLogic.ChordStacksThirds | utils/musicLogic.ts:10 | The MIDI numbers of a resolved chord rise strictly, each a minor or major third above the one before. |
| MusicLogic.ChordRootSpelling | utils/musicLogic.ts:7-11 | The first note sounds the root, and it is the root's own spelling exactly when the root is a scale name. |
| MusicLogic.ChordNotesNeverFlat | utils/musicLogic.ts:11 | No note of any resolved chord contains a flat sign, whatever the root. |
| MusicLogic.FlatRootRespelled | utils/musicLogic.ts:7-11 | A flat root comes back as its sharp twin in the first note (Db gives C#). |
| MusicLogic.FlatKeyChordKeepsSharps | utils/musicLogic.ts:10-11 | F has a flat signature, yet F minor seventh holds G#, a black key. |
| MusicLogic.GMinorThirdSpelledSharp | utils/musicLogic.ts:10-11 | G minor resolves to exactly G A# D: its third is spelled A#, not the Bb that the comment over the note breakdown gives as its example (App.tsx:99); the breakdown itself shows A#. |
| MusicLogic.SymbolChordType | constants.ts:79-87 | Reference inverse (not in the source): reads a quality's symbol back: any quality found has that symbol. |
| MusicLogic.SymbolReadsBack | constants.ts:79-87 | Reference inverse (not in the source): every quality's symbol reads back as that quality, so the seven symbols are distinct. |
| MusicLogic.ParseChordSymbol | utils/musicLogic.ts:12 | Reference inverse (not in the source): splits a chord symbol into root and quality; whatever it returns glues back into the input. |
| MusicLogic.SpellingShape | constants.ts:67-70 | Every one of the 17 names is a letter, optionally followed by one '#' or 'b'. |
| MusicLogic.NotationRoundTrip | utils/musicLogic.ts:12 | Parsing the chord symbol of a resolved chord gives back its root and quality. |
| MusicLogic.NotationDeterminesChord | utils/musicLogic.ts:12 | Two resolved chords with the same symbol have the same root and quality. |
| MusicLogic.IsBlackKey | utils/musicLogic.ts:56 | A name is black exactly when it contains a '#' somewhere. |
| MusicLogic.BlackKeysOfScale | utils/musicLogic.ts:56 | Among the 12 scale names exactly 5 are black: those at the pitch classes 1, 3, 6, 8 and 10. |
| MusicLogic.FlatNamesAreNotBlack | utils/musicLogic.ts:56 | The five flat names sound a black pitch class but the test calls them not black. |
| MusicLogic.BlackKeyByPitch | utils/musicLogic.ts:56 | Across the whole name table, a name is black exactly when its number's pitch class is black. |
| MusicLogic.StaffYPosition | utils/musicLogic.ts:23-54 | Every position is a multiple of 10 in 0..120, middle C gets 120 (the ledger line), and every number outside 60..81 gets the default 60. |
| MusicLogic.DiatonicStep | utils/musicLogic.ts:29-52 | Reference rule (not in the source): staff steps above middle C of a named number: 7 per octave plus the position of its letter. |
| MusicLogic.DiatonicStepByPitch | utils/musicLogic.ts:29-52 | The letter step of a named number follows from its octave and pitch class alone. |
| MusicLogic.StepOfSemitone | utils/musicLogic.ts:29-52 | A semitone up adds a staff step exactly when the new pitch class is not black. |
| MusicLogic.StaffYPositionFollowsLetters | utils/musicLogic.ts:29-52 | On 60..81 the staff table is 120 less 10 per letter step above middle C. |
| MusicLogic.StaffStep | utils/musicLogic.ts:29-52 | A semitone up inside 60..81 keeps the slot when the new note is black and rises one slot (10) when it is natural. |
| MusicLogic.BlackKeysShareSlot | utils/musicLogic.ts:29-52 | 61, 63, 66, 68, 70, 73, 75, 78 and 80 share the slot of the number below. |
| MusicLogic.SharpSlotsFollowLetters | constants.ts:53-55 | Each of the seven sharp slots lies one staff step (10) above the head position of its natural F5 C5 G5 D5 A4 E5 B4, so the table places the sharps on their own letters. |
| MusicLogic.FlatSlotsFollowLetters | constants.ts:53-55 | Each of the seven flat slots lies one staff step (10) above the head position of its natural B4 E5 A4 D5 G4 C5 F4. |
| MusicLogic.SharpSlotLetters | constants.ts:53-55 | The naturals under the sharp slots are named F C G D A E B, the order in which sharps are added. |
| MusicLogic.FlatSlotLetters | constants.ts:53-55 | The naturals under the flat slots are named B E A D G C F, the order in which flats are added. |
| MusicLogic.StaffYPositionNonIncreasing | utils/musicLogic.ts:29-52 | Inside 60..81 a higher number is never drawn lower. |
| MusicLogic.StaffYPositionMissesMajorSeventhOfB | utils/musicLogic.ts:29-53 | B major seventh resolves to 71 75 78 82. 82 gets the default 60, level with the root B4 and below the fifth F#5, while its letter calls for slot 0. |
| MusicLogic.ChordStaffYPosition | utils/musicLogic.ts:29-53 | The table extended to 82 and 83 by the letter rule: positions are multiples of 10 in -10..120, the default 60 applies outside 60..83, and it agrees with the source's table on 60..81. |
| MusicLogic.ChordStaffYPositionFollowsLetters | utils/musicLogic.ts:29-52 | On every named number 60..83 the extended table is 120 less 10 per letter step. |
| MusicLogic.ThirdRaisesStaffPosition | utils/musicLogic.ts:29-52 | With the extended table, a minor or major third up inside 60..83 is always drawn strictly higher. |
| MusicLogic.StackedThirdsDrawnAscending | utils/musicLogic.ts:29-52 | Any stack of thirds inside 60..83 is drawn strictly rising. |
| MusicLogic.ChordDrawnAscending | utils/musicLogic.ts:5-53 | With the extended table, every resolved chord is drawn strictly rising on the staff. |

## Left out

- React rendering, SVG layout, the piano and circle views, Web Audio synthesis and the call to the language-model service. These are UI, floating point, timers and the network.
- The unused `rootIndex` (utils/musicLogic.ts:6) has no effect and is not modelled.
- The display names of the chord qualities (types.ts:4-12) are not modelled. Only their identity and their symbols matter to the engine.
- MusicLogic.ChordNotes: the resolver requires its root to be one of the 17 names of the note-to-MIDI map. The source does not handle other roots; it would produce NaN numbers and undefined names.
- Flat-key respelling is not modelled because the code does not do it. The application itself promises it: its header says accidentals are shown correctly as flats and sharps (App.tsx:76), and the comment over the note breakdown gives G minor as G - Bb - D (App.tsx:99), while the breakdown itself shows the resolver's A#. The resolver never rewrites sharps as flats. The model follows the code: `MusicLogic.ChordNotesNeverFlat`, `MusicLogic.GMinorThirdSpelledSharp` and `MusicLogic.FlatKeyChordKeepsSharps` state what it does.
- Clicking the inner (minor) ring of the circle selects the bare note name as root (components/CircleOfFifths.tsx:64). The staff then draws that name's major signature where the table has one, not the "m" entry. For D# (the relative minor of F#) and G# (of B) the table has no entry, so the staff draws no accidentals; `Constants.RelativeMinorFallback` states this. Choosing the root this way is view logic and is not modelled; `Constants.SignatureOrDefault` models the lookup and its fallback for any key.
- The accidental slots sit a uniform staff step (10) above the head position of their letter, and the glyph is drawn 5 below its slot (components/Staff.tsx:34). That offset is a matter of glyph placement in the drawing; the model states the slots relative to the head positions (`MusicLogic.SharpSlotsFollowLetters`, `MusicLogic.FlatSlotsFollowLetters`) and does not model the drawing.

## Findings

| source | as written | input that shows it | evidently intended | confidence | as-written member | corrected member |
|---|---|---|---|---|---|---|
| utils/musicLogic.ts:29-53 | The staff table covers only 60..81, while the resolver produces numbers up to 82. | B major seventh resolves to 71 75 78 82. 82 (A#5) falls to the default 60, level with the root B4 and below the fifth F#5. | Every note the resolver can produce is placed by its letter. 82 goes on the A5 slot (0), so every chord is drawn rising. | medium, not executed | MusicLogic.StaffYPositionMissesMajorSeventhOfB | MusicLogic.ChordDrawnAscending |
