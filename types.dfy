/** The value types shared by the music-theory engine. */
module Types {

  /** The seven chord qualities the application offers. */
  datatype ChordType =
    | Major
    | Minor
    | Diminished
    | Augmented
    | Dominant7
    | Major7
    | Minor7

  /** The result of resolving a root and a chord quality: the root and quality
      as given, the spelled note names, their MIDI numbers (same order, one per
      interval) and the compact chord symbol such as "Gm7". */
  datatype ChordDefinition = ChordDefinition(
    root: string,
    chordType: ChordType,
    notes: seq<string>,
    midiNotes: seq<int>,
    americanNotation: string
  )

  datatype Option<T> = None | Some(value: T)
}
