/** The records that flow through the transform. */
module Notes {

  /** A transcribed note: MIDI pitch, onset and release in seconds. */
  datatype Note = Note(pitch: int, startTime: real, endTime: real)

  /** How long a note sounds, in seconds: end_time - start_time, negative when it ends before it starts. */
  function Duration(n: Note): real {
    n.endTime - n.startTime
  }

  /** A time signature of the sequence: beats per bar over beat unit. */
  datatype TimeSignature = TimeSignature(numerator: int, denominator: int)

  /**
   * The parsed MIDI file: its notes, and its tempo (quarter notes per minute) and
   * time-signature events, either list possibly empty.
   */
  datatype NoteSequence = NoteSequence(notes: seq<Note>, tempos: seq<real>, timeSignatures: seq<TimeSignature>)

  /** One entry of the tabulature: times copied from the note, its fingering and its value's label. */
  datatype TabNote = TabNote(startTime: real, endTime: real, stringNumber: int, fret: int, durationName: string)

  /** The result of midi_to_tab: the meter and the notes grouped by bar. */
  datatype Tablature = Tablature(numerator: int, denominator: int, bars: seq<seq<TabNote>>)
}
