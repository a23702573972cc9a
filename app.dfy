/**
 * The note-to-tablature transform of app.py: meter defaults, per-note fingering and rhythmic
 * value, and grouping into a dense list of bars (app.py:64-91). The MIDI file is already
 * parsed: the transform receives the NoteSequence.
 */
module App {
  import opened Wrappers
  import opened Notes
  import opened Fretboard
  import opened Rhythm
  import opened Grouping

  /** The tempo: the first tempo event's, else 120 quarter notes per minute. */
  function TempoOf(ns: NoteSequence): real {
    if ns.tempos != [] then ns.tempos[0] else 120.0
  }

  /** Beats per bar: the first time signature's numerator, else 4. */
  function NumeratorOf(ns: NoteSequence): int {
    if ns.timeSignatures != [] then ns.timeSignatures[0].numerator else 4
  }

  /** The beat unit: the first time signature's denominator, else 4; carried to the output only. */
  function DenominatorOf(ns: NoteSequence): int {
    if ns.timeSignatures != [] then ns.timeSignatures[0].denominator else 4
  }

  /** The length of a beat in seconds, 60 / tempo: positive for a positive tempo. */
  function SecondsPerBeat(ns: NoteSequence): (r: real)
    requires TempoOf(ns) != 0.0
    ensures TempoOf(ns) > 0.0 ==> r > 0.0
  {
    60.0 / TempoOf(ns)
  }

  /** The length of a bar in seconds, numerator * seconds per beat: positive for a positive tempo and numerator. */
  function BarDuration(ns: NoteSequence): (r: real)
    requires TempoOf(ns) != 0.0
    ensures TempoOf(ns) > 0.0 && NumeratorOf(ns) > 0 ==> r > 0.0
  {
    NumeratorOf(ns) as real * SecondsPerBeat(ns)
  }

  /** Which labels the rhythmic values get: app.py's English or display_midi_info.py's Polish. */
  datatype Language = English | Polish

  /** The label a rhythmic value gets in each language. */
  function Label(lang: Language, b: DurationName): string {
    match lang
    case English => EnglishName(b)
    case Polish => PolishName(b)
  }

  /** The tabulature entry of one note, or None when no string can play its pitch. */
  function Annotate(n: Note, secondsPerBeat: real, lang: Language): Option<TabNote>
    requires secondsPerBeat != 0.0
  {
    var fingering := MapPitch(n.pitch);
    if fingering.None? then None
    else
      Some(TabNote(n.startTime, n.endTime, fingering.value.stringNumber, fingering.value.fret,
                   Label(lang, Classify(Duration(n), secondsPerBeat))))
  }

  /** The entries a single note contributes: none or one. */
  function Entries(n: Note, secondsPerBeat: real, lang: Language): seq<TabNote>
    requires secondsPerBeat != 0.0
  {
    var a := Annotate(n, secondsPerBeat, lang);
    if a.None? then [] else [a.value]
  }

  /** The tabulature of a note list: the entries of its playable notes, in input order. */
  function Annotated(notes: seq<Note>, secondsPerBeat: real, lang: Language): (r: seq<TabNote>)
    requires secondsPerBeat != 0.0
    ensures |r| <= |notes|
  {
    if notes == [] then []
    else Annotated(notes[..|notes| - 1], secondsPerBeat, lang) + Entries(notes[|notes| - 1], secondsPerBeat, lang)
  }

  /** Every entry of the tabulature is the entry of one of the notes. */
  lemma {:induction false} AnnotatedFrom(notes: seq<Note>, secondsPerBeat: real, lang: Language)
    requires secondsPerBeat != 0.0
    ensures forall t :: t in Annotated(notes, secondsPerBeat, lang) ==>
      exists i :: 0 <= i < |notes| && Annotate(notes[i], secondsPerBeat, lang) == Some(t)
  {
    if notes != [] {
      var init := notes[..|notes| - 1];
      AnnotatedFrom(init, secondsPerBeat, lang);
      forall t | t in Annotated(notes, secondsPerBeat, lang)
        ensures exists i :: 0 <= i < |notes| && Annotate(notes[i], secondsPerBeat, lang) == Some(t)
      {
        if t in Annotated(init, secondsPerBeat, lang) {
          var i :| 0 <= i < |init| && Annotate(init[i], secondsPerBeat, lang) == Some(t);
          assert init[i] == notes[i];
        } else {
          assert Annotate(notes[|notes| - 1], secondsPerBeat, lang) == Some(t);
        }
      }
    }
  }

  lemma EntriesOf(n: Note, secondsPerBeat: real, lang: Language, fingering: Option<Position>, name: string)
    requires secondsPerBeat != 0.0
    requires fingering == MapPitch(n.pitch) && name == Label(lang, Classify(Duration(n), secondsPerBeat))
    ensures Entries(n, secondsPerBeat, lang)
      == if fingering.Some? then [TabNote(n.startTime, n.endTime, fingering.value.stringNumber, fingering.value.fret, name)] else []
  {
  }

  lemma AnnotatedExtend(notes: seq<Note>, secondsPerBeat: real, lang: Language, i: int)
    requires secondsPerBeat != 0.0 && 0 <= i < |notes|
    ensures Annotated(notes[..i + 1], secondsPerBeat, lang)
      == Annotated(notes[..i], secondsPerBeat, lang) + Entries(notes[i], secondsPerBeat, lang)
  {
    assert notes[..i + 1][..i] == notes[..i];
  }

  /**
   * The loop of midi_to_tab (and of display_midi_as_tab): finger each note, name its value,
   * and append an entry for it when a string can play it.
   */
  method BuildTabulature(notes: seq<Note>, secondsPerBeat: real, lang: Language) returns (tabulature: seq<TabNote>)
    requires secondsPerBeat != 0.0
    ensures tabulature == Annotated(notes, secondsPerBeat, lang)
  {
    tabulature := [];
    for i := 0 to |notes|
      invariant tabulature == Annotated(notes[..i], secondsPerBeat, lang)
    {
      var note := notes[i];
      var fingering := PitchToStringAndFret(note.pitch);
      var duration := Duration(note);
      // app.py's classifier labels in English, display_midi_info.py's in Polish
      var noteDurationName := if lang == English then NoteDurationName(duration, secondsPerBeat)
                              else NoteDurationNamePolish(duration, secondsPerBeat);
      AnnotatedExtend(notes, secondsPerBeat, lang, i);
      EntriesOf(note, secondsPerBeat, lang, fingering, noteDurationName);
      if fingering.Some? {
        tabulature := tabulature + [TabNote(note.startTime, note.endTime,
                                            fingering.value.stringNumber, fingering.value.fret, noteDurationName)];
      }
    }
    assert notes[..|notes|] == notes;
  }

  /** A note gets an entry exactly when its pitch lies in 40..88; the entry keeps its times. */
  lemma AnnotateSomeIff(n: Note, secondsPerBeat: real, lang: Language)
    requires secondsPerBeat != 0.0
    ensures Annotate(n, secondsPerBeat, lang).Some? <==> LowestPitch <= n.pitch <= HighestPitch
    ensures Annotate(n, secondsPerBeat, lang).Some? ==>
      var t := Annotate(n, secondsPerBeat, lang).value;
      && t.startTime == n.startTime && t.endTime == n.endTime
      && Position(t.stringNumber, t.fret) == MapPitch(n.pitch).value
      && t.durationName == Label(lang, Classify(Duration(n), secondsPerBeat))
  {
    MapPitchNoneIff(n.pitch);
  }

  /** Annotation distributes over concatenation: the entries keep the order of their notes. */
  lemma {:induction false} AnnotatedAppend(a: seq<Note>, b: seq<Note>, secondsPerBeat: real, lang: Language)
    requires secondsPerBeat != 0.0
    ensures Annotated(a + b, secondsPerBeat, lang) == Annotated(a, secondsPerBeat, lang) + Annotated(b, secondsPerBeat, lang)
  {
    if b == [] {
      assert a + b == a;
    } else {
      var init, last := b[..|b| - 1], b[|b| - 1];
      var e := Entries(last, secondsPerBeat, lang);
      assert (a + b)[..|a + b| - 1] == a + init;
      assert (a + b)[|a + b| - 1] == last;
      AnnotatedAppend(a, init, secondsPerBeat, lang);
      assert Annotated(a + b, secondsPerBeat, lang) == Annotated(a + init, secondsPerBeat, lang) + e;
      assert Annotated(b, secondsPerBeat, lang) == Annotated(init, secondsPerBeat, lang) + e;
      assert (Annotated(a, secondsPerBeat, lang) + Annotated(init, secondsPerBeat, lang)) + e
          == Annotated(a, secondsPerBeat, lang) + (Annotated(init, secondsPerBeat, lang) + e);
    }
  }

  /** Every playable note has its entry in the tabulature. */
  lemma AnnotatedContains(notes: seq<Note>, secondsPerBeat: real, lang: Language, i: int)
    requires secondsPerBeat != 0.0 && 0 <= i < |notes|
    requires LowestPitch <= notes[i].pitch <= HighestPitch
    ensures Annotate(notes[i], secondsPerBeat, lang).Some?
    ensures Annotate(notes[i], secondsPerBeat, lang).value in Annotated(notes, secondsPerBeat, lang)
  {
    AnnotateSomeIff(notes[i], secondsPerBeat, lang);
    assert notes == notes[..i] + [notes[i]] + notes[i + 1..];
    AnnotatedAppend(notes[..i] + [notes[i]], notes[i + 1..], secondsPerBeat, lang);
    AnnotatedAppend(notes[..i], [notes[i]], secondsPerBeat, lang);
    assert [notes[i]][..0] == [];
  }

  /** The tabulature is empty exactly when no note is playable. */
  lemma AnnotatedEmptyIff(notes: seq<Note>, secondsPerBeat: real, lang: Language)
    requires secondsPerBeat != 0.0
    ensures Annotated(notes, secondsPerBeat, lang) == [] <==>
      forall i :: 0 <= i < |notes| ==> notes[i].pitch < LowestPitch || notes[i].pitch > HighestPitch
  {
    if exists i :: 0 <= i < |notes| && LowestPitch <= notes[i].pitch <= HighestPitch {
      var i :| 0 <= i < |notes| && LowestPitch <= notes[i].pitch <= HighestPitch;
      AnnotatedContains(notes, secondsPerBeat, lang, i);
    } else if Annotated(notes, secondsPerBeat, lang) != [] {
      var t := Annotated(notes, secondsPerBeat, lang)[0];
      AnnotatedFrom(notes, secondsPerBeat, lang);
      var i :| 0 <= i < |notes| && Annotate(notes[i], secondsPerBeat, lang) == Some(t);
      AnnotateSomeIff(notes[i], secondsPerBeat, lang);
    }
  }

  predicate NotesStartAtOrAfterZero(notes: seq<Note>) {
    forall i :: 0 <= i < |notes| ==> notes[i].startTime >= 0.0
  }

  /** Entries copy their notes' onsets, so non-negative onsets stay non-negative. */
  lemma AnnotatedStarts(notes: seq<Note>, secondsPerBeat: real, lang: Language)
    requires secondsPerBeat != 0.0 && NotesStartAtOrAfterZero(notes)
    ensures NonNegativeStarts(Annotated(notes, secondsPerBeat, lang))
  {
    var tab := Annotated(notes, secondsPerBeat, lang);
    AnnotatedFrom(notes, secondsPerBeat, lang);
    forall j | 0 <= j < |tab|
      ensures tab[j].startTime >= 0.0
    {
      assert tab[j] in tab;
      var i :| 0 <= i < |notes| && Annotate(notes[i], secondsPerBeat, lang) == Some(tab[j]);
    }
  }

  /**
   * What app.py's midi_to_tab admits: a positive tempo, a positive numerator, and no negative
   * onset among the playable notes (the others are dropped before any bar number is computed).
   * App.AnnotatedStarts shows that non-negative onsets for all notes are enough.
   */
  predicate AppInput(ns: NoteSequence) {
    && TempoOf(ns) > 0.0 && NumeratorOf(ns) > 0
    && NonNegativeStarts(Annotated(ns.notes, SecondsPerBeat(ns), English))
  }

  /** midi_to_tab as a value: the meter, and the English tabulature grouped into dense bars. */
  function TabulatureOf(ns: NoteSequence): Result<Tablature, GroupError>
    requires AppInput(ns)
  {
    var tab := Annotated(ns.notes, SecondsPerBeat(ns), English);
    if tab == [] then Err(EmptyTabulature)
    else Ok(Tablature(NumeratorOf(ns), DenominatorOf(ns), DenseBars(tab, BarDuration(ns))))
  }

  /**
   * midi_to_tab: apply the meter defaults, build the tabulature note by note, and group it into
   * bars of numerator beats.
   */
  method MidiToTab(ns: NoteSequence) returns (r: Result<Tablature, GroupError>)
    requires AppInput(ns)
    ensures r == TabulatureOf(ns)
    ensures r.Err? <==> forall i :: 0 <= i < |ns.notes| ==> ns.notes[i].pitch < LowestPitch || ns.notes[i].pitch > HighestPitch
    ensures r.Ok? ==> r.value.numerator == NumeratorOf(ns) && r.value.denominator == DenominatorOf(ns)
  {
    var tempo := if ns.tempos != [] then ns.tempos[0] else 120.0;
    var numerator := if ns.timeSignatures != [] then ns.timeSignatures[0].numerator else 4;
    var denominator := if ns.timeSignatures != [] then ns.timeSignatures[0].denominator else 4;
    var secondsPerBeat := 60.0 / tempo;
    var barDuration := numerator as real * secondsPerBeat;
    assert tempo == TempoOf(ns) && numerator == NumeratorOf(ns) && denominator == DenominatorOf(ns);
    assert secondsPerBeat == SecondsPerBeat(ns) && barDuration == BarDuration(ns);
    var tabulature := BuildTabulature(ns.notes, secondsPerBeat, English);
    var bars := GroupNotesIntoBars(tabulature, barDuration);
    TabulatureOfErrIff(ns);
    match bars
    case Err(e) => r := Err(e);
    case Ok(b) => r := Ok(Tablature(numerator, denominator, b));
  }

  /** midi_to_tab fails exactly when no note is playable, as the grouper then takes the max of nothing. */
  lemma TabulatureOfErrIff(ns: NoteSequence)
    requires AppInput(ns)
    ensures TabulatureOf(ns).Err? <==>
      forall i :: 0 <= i < |ns.notes| ==> ns.notes[i].pitch < LowestPitch || ns.notes[i].pitch > HighestPitch
  {
    AnnotatedEmptyIff(ns.notes, SecondsPerBeat(ns), English);
  }

  /** The bars hold exactly the entries of the tabulature, each once. */
  lemma TabulatureOfPartition(ns: NoteSequence)
    requires AppInput(ns) && TabulatureOf(ns).Ok?
    ensures multiset(Flatten(TabulatureOf(ns).value.bars)) == multiset(Annotated(ns.notes, SecondsPerBeat(ns), English))
  {
    var tab := Annotated(ns.notes, SecondsPerBeat(ns), English);
    assert TabulatureOf(ns).value.bars == DenseBars(tab, BarDuration(ns));
    DenseBarsPartition(tab, BarDuration(ns));
  }

  /**
   * Every note of the result is the entry of a playable input note, and sits in the bar its
   * onset falls in.
   */
  lemma TabulatureOfPlacement(ns: NoteSequence, k: int, t: TabNote)
    requires AppInput(ns) && TabulatureOf(ns).Ok?
    requires 0 <= k < |TabulatureOf(ns).value.bars| && t in TabulatureOf(ns).value.bars[k]
    ensures BarDuration(ns) > 0.0
    ensures BarIndex(t.startTime, BarDuration(ns)) == k
    ensures exists i :: 0 <= i < |ns.notes| && Annotate(ns.notes[i], SecondsPerBeat(ns), English) == Some(t)
  {
    var tab := Annotated(ns.notes, SecondsPerBeat(ns), English);
    var bars := DenseBars(tab, BarDuration(ns));
    assert TabulatureOf(ns).value.bars == bars;
    assert t in BarOf(tab, BarDuration(ns), k);
    BarOfSound(tab, BarDuration(ns), k);
    assert t in tab;
    AnnotatedFrom(ns.notes, SecondsPerBeat(ns), English);
    var i :| 0 <= i < |ns.notes| && Annotate(ns.notes[i], SecondsPerBeat(ns), English) == Some(t);
  }

  /** At the default tempo the low E sounds open for a beat: a quarter note. */
  lemma LowEExample()
    ensures Annotate(Note(40, 0.0, 0.5), 0.5, English) == Some(TabNote(0.0, 0.5, 6, 0, EnglishName(Quarter)))
    ensures EnglishName(Quarter) == "quarter_note"
  {
    MapPitchOfLowestFret(40, Tuning[0]);
    ClassifyAt120();
  }

  /** A 0.2 s E (MIDI 52) at the default tempo is fingered on the D string's second fret: a sixteenth. */
  lemma SixteenthExample()
    ensures Annotate(Note(52, 0.6, 0.8), 0.5, English) == Some(TabNote(0.6, 0.8, 4, 2, EnglishName(Sixteenth)))
    ensures EnglishName(Sixteenth) == "sixteenth_note"
  {
    MapPitchOfLowestFret(52, Tuning[2]);
    assert 0.8 - 0.6 == 0.2;
    ClassifyAt120();
  }

  /** The two notes' tabulature at the default tempo: both entries, in input order. */
  lemma TwoNoteTabulature(n1: Note, n2: Note, t1: TabNote, t2: TabNote)
    requires Annotate(n1, 0.5, English) == Some(t1) && Annotate(n2, 0.5, English) == Some(t2)
    ensures Annotated([n1, n2], 0.5, English) == [t1, t2]
  {
    assert [n1, n2][..1] == [n1];
    assert [n1][..0] == [];
  }

  /** When every entry starts within the first bar, midi_to_tab returns one bar holding them all. */
  lemma TabulatureOfSingleBar(ns: NoteSequence, tab: seq<TabNote>)
    requires AppInput(ns) && tab == Annotated(ns.notes, SecondsPerBeat(ns), English) && tab != []
    requires forall i :: 0 <= i < |tab| ==> tab[i].startTime < BarDuration(ns)
    ensures TabulatureOf(ns) == Ok(Tablature(NumeratorOf(ns), DenominatorOf(ns), [tab]))
  {
    SingleBar(tab, BarDuration(ns));
  }

  /**
   * Two notes with no tempo or meter events: pitch 40 held for a beat and pitch 52 held for
   * 0.2 s give 4/4 and one bar holding the quarter note and the sixteenth, in input order.
   */
  lemma TwoNoteExample()
    ensures var ns := NoteSequence([Note(40, 0.0, 0.5), Note(52, 0.6, 0.8)], [], []);
            AppInput(ns)
            && TabulatureOf(ns)
               == Ok(Tablature(4, 4, [[TabNote(0.0, 0.5, 6, 0, EnglishName(Quarter)),
                                       TabNote(0.6, 0.8, 4, 2, EnglishName(Sixteenth))]]))
  {
    var ns := NoteSequence([Note(40, 0.0, 0.5), Note(52, 0.6, 0.8)], [], []);
    var tab := [TabNote(0.0, 0.5, 6, 0, EnglishName(Quarter)), TabNote(0.6, 0.8, 4, 2, EnglishName(Sixteenth))];
    LowEExample();
    SixteenthExample();
    TwoNoteTabulature(ns.notes[0], ns.notes[1], tab[0], tab[1]);
    assert SecondsPerBeat(ns) == 0.5 && BarDuration(ns) == 2.0;
    TabulatureOfSingleBar(ns, tab);
  }
}
