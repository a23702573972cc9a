# Guitar tablature transform

This project models the note-to-tablature transform of a guitar-transcription backend. A
transcribed MIDI file becomes a guitar tablature in four steps:

1. The fretboard mapper, `pitch_to_string_and_fret`, places each MIDI pitch on a string and fret
   of a standard-tuned six-string guitar (open pitches 40, 45, 50, 55, 59, 64; frets 0..24). It
   picks the lowest fret and drops pitches no string can reach.
2. The duration classifier, `get_note_duration_name`, names each note's length in beats as a
   rhythmic value, from whole note down to thirty-second.
3. The bar grouper splits the annotated notes into bars of `numerator` beats.
4. The transform takes its tempo and meter from the first tempo and time-signature events. The
   defaults are 120 quarter notes per minute and 4/4.

The transform exists twice. `app.py` has `midi_to_tab`, which uses English labels and a dense
list of bars. `display_midi_info.py` has `display_midi_as_tab`, which uses Polish labels and a
map from bar number to notes. It lists the bars in ascending order and the notes of each bar by
onset.

Modules, one file each:

- `Notes`: the records.
  - `Note`: a pitch with onset and release in seconds.
  - `NoteSequence`: the parsed file, holding the notes, the tempo events and the time-signature
    events.
  - `TabNote`: one tabulature entry.
  - `Tablature`: the result of `midi_to_tab`.
- `Fretboard`: the tuning table and the mapper.
  - `MapPitch` is the mapper as a value.
  - `PitchToStringAndFret` is the source's two loops, proved equal to it.
- `Rhythm`: the classifier.
  - `Classify` is the chain of thresholds.
  - `InBand` describes each value independently, by its nominal length in beats.
  - The English and Polish label tables are here too.
- `Division`: facts about dividing by a positive real, shared by the classifier and the grouper.
- `Grouping`: both groupers.
  - Dense: `DenseBars` as a value, and `GroupNotesIntoBars`, which fills an array of bars in
    place.
  - Sparse: `SparseBars` as a value, and `GroupNotesIntoBarMap`, which grows a map note by note.
- `Listing`: the order in which `display_midi_as_tab` lists bars and notes.
- `App`: `midi_to_tab` on an already-parsed `NoteSequence`.
  - `Annotated` is the tabulature as a value.
  - `BuildTabulature` is the annotation loop.
  - `MidiToTab` is the whole transform.
- `Display`: `display_midi_as_tab` without the console output.

Times are exact reals. Python's `//` on times is `.Floor` of the real quotient.

Behaviour of the code worth knowing, which the model reproduces:

- A 0.2 s note at 120 quarter notes per minute lasts 0.4 beats. That is below the 0.5-beat
  threshold of an eighth, so it is named `sixteenth_note` (`Rhythm.ClassifyAt120`,
  `App.SixteenthExample`).
- Notes and meters are not validated. A negative duration is classified as a thirty-second, and
  a time signature present in the file is used as it is.
- An input with no playable note makes `midi_to_tab` fail only because the dense grouper takes
  `max` of an empty list, which raises. The model returns `Err(EmptyTabulature)` there.
  `display_midi_as_tab` lists nothing in that case and does not fail.

## Model

| member | source | states |
|---|---|---|
| Fretboard.OptionsExactly | app.py:31-35 | A fingering is among the options exactly when some string of the tuning reaches the pitch at a fret in 0..24 and the fingering is that string with fret pitch minus its open pitch. |
| Fretboard.FirstMinFretIsFirstMinimum | app.py:36 | `min(options, key=fret)` returns an option whose fret no option undercuts. It is the first such option: every earlier option has a strictly higher fret. |
| Fretboard.PitchToStringAndFret | app.py:30-36 | The accumulate-then-min loops return exactly the mapper's answer: the first lowest-fret option, or None when there is no option. The same function is display_midi_info.py:15-23. |
| Fretboard.MapPitchSound | app.py:30-35 | A returned (string, fret) names a string of the tuning that reaches the pitch. The fret equals pitch minus that string's open pitch and lies in 0..24. |
| Fretboard.MapPitchMinimal | app.py:36 | The returned fret is at most the fret of every string that reaches the pitch. |
| Fretboard.MapPitchUnique | app.py:21-28 | A string that reaches the pitch at the returned fret is the returned string, since the open pitches are distinct. |
| Fretboard.MapPitchNoneIff | app.py:34-36 | The mapper returns (None, None) exactly when the pitch is below 40 or above 88. |
| Fretboard.MapPitchOfLowestFret | app.py:21-36 | When a string reaches the pitch at a fret no other string undercuts, the mapper returns that string and fret. |
| Rhythm.Classify | app.py:38-51 | The threshold chain on duration / seconds_per_beat: 4, 2, 1, 0.5 and 0.25 beats, tested longest first with `>=`, else a thirty-second. What it means is stated by Rhythm.ClassifyInBand. |
| Rhythm.ClassifyInBand | app.py:38-51 | The name is the value whose band holds duration / seconds_per_beat. The band is at least its nominal beats and below twice that. Whole is unbounded above. Thirty-second takes everything below a quarter beat, including zero and negative lengths. |
| Rhythm.BandUnique | app.py:40-51 | The bands do not overlap, so each length has exactly one name. |
| Rhythm.ClassifyMonotone | app.py:39-51 | For a positive beat length, a longer duration never gets a shorter value. |
| Rhythm.LabelsDistinct | app.py:40-51 | The six English labels differ from each other, and so do the six Polish labels of display_midi_info.py:28-39. |
| Rhythm.NoteDurationNamePolish | display_midi_info.py:25-39 | Its own chain of thresholds returns the Polish label of the band the app.py classifier picks. |
| Rhythm.ClassifyAt120 | app.py:38-51 | With a half-second beat: 2.0 s is a whole note, 0.5 s a quarter, 0.25 s an eighth and 0.2 s a sixteenth. 0 s and -1 s are thirty-seconds. |
| Grouping.BarOfSound | app.py:58-60 | Bar k holds only notes of the tabulature whose onset // bar_duration is k. |
| Grouping.MaxStart | app.py:54 | The largest onset of a non-empty tabulature is at least every onset, and it is one of them. |
| Grouping.DenseBars | app.py:54-56 | The dense grouping has floor(max onset / bar_duration) + 1 bars, at least one, and bar k holds the notes of bar k. |
| Grouping.BarIndexMonotone | app.py:59 | A later onset never lands in an earlier bar, and a non-negative onset lands in a bar numbered 0 or more. |
| Grouping.BarIndexInRange | app.py:54-59 | With non-negative onsets, every computed bar number indexes the allocated list. |
| Grouping.GroupNotesIntoBars | app.py:53-62 | Filling the allocated bars in place yields the dense grouping. An empty tabulature fails, as `max` of nothing raises. |
| Grouping.BarOfAppend | app.py:58-60 | Notes join their bar in input order: the bar of a concatenation is the bar of the first part followed by the bar of the second. |
| Grouping.BarOfContains | app.py:58-60 | Every note is in the bar its onset falls in. |
| Grouping.BarOfEmptyIff | app.py:58-60 | A bar is empty exactly when no onset falls in it. |
| Grouping.DenseBarsPlacement | app.py:58-60 | In the dense result each note sits in bar onset // bar_duration, and every note of bar k has bar number k. |
| Grouping.DenseBarsPartition | app.py:58-61 | Concatenating the dense bars gives a permutation of the tabulature, so each note appears exactly once and the count is kept. |
| Grouping.SingleBar | app.py:54-60 | When every onset falls before the first bar's end, the result is one bar holding the whole tabulature in order. |
| Grouping.GroupNotesIntoBarMap | display_midi_info.py:41-49 | Inserting keys on demand and appending yields the sparse grouping. An empty tabulature gives an empty map and no error. |
| Grouping.SparseBarsExtend | display_midi_info.py:44-48 | One more note adds its bar number as a key if it is missing, and appends the note to that bar only. |
| Grouping.SparseBarsKeys | display_midi_info.py:43-48 | The keys are exactly the bar numbers of the notes' onsets, and no key maps to an empty bar. |
| Grouping.SparseRefinesDense | display_midi_info.py:41-49 | With non-negative onsets, each key k of the map indexes the dense list and maps to dense bar k. Every dense bar that is not a key is empty. |
| Grouping.SparseBarsSound | display_midi_info.py:44-48 | A note filed under bar k of the map is a note of the tabulature whose onset // bar_duration is k. |
| Grouping.BarsJoinedPartition | display_midi_info.py:44-48 | The bars of any list of distinct bar numbers that covers every onset, joined, hold each note of the tabulature exactly once. Any non-zero bar length, any sign of onset. |
| Grouping.SparseBarsPartition | display_midi_info.py:44-48 | The map's bars, joined in any order that names each key once, are a permutation of the tabulature: every note is appended exactly once and the count is kept. |
| Listing.SortedKeys | display_midi_info.py:83 | `sorted(bars.keys())` lists each bar number once, strictly ascending. |
| Listing.SortByStart | display_midi_info.py:85 | `sorted(bar, key=start_time)` is ordered by onset and is a permutation of the bar. |
| Listing.SortByStartStable | display_midi_info.py:85 | The sort is stable: notes with equal onsets keep the order the bar gives them. |
| Listing.ListingOrder | display_midi_info.py:83-85 | The listing has one entry per bar number, ascending. Each entry shows that bar's notes sorted by onset, as a stable permutation of the bar. |
| Listing.ListingOrderSound | display_midi_info.py:83-85 | Every listed note is a note of the bar its entry is numbered with. |
| Listing.ListingOrderNotes | display_midi_info.py:83-85 | The listed notes, entry after entry, are a permutation of the bars joined in ascending key order: nothing is shown twice or dropped. |
| App.AnnotatedFrom | app.py:73-84 | Every tabulature entry is the entry of some input note. |
| App.BuildTabulature | app.py:73-84 | The loop yields the entries of the playable notes, in input order. It calls app.py's classifier for English labels and display_midi_info.py:66-77's for Polish ones. |
| App.AnnotateSomeIff | app.py:74-84 | A note gets an entry exactly when its pitch is in 40..88. The entry copies start_time and end_time, takes the mapper's string and fret, and carries its duration's label. |
| App.AnnotatedAppend | app.py:73-84 | The entries keep the order of their notes: the tabulature of a concatenation is the concatenation of the tabulatures. |
| App.AnnotatedContains | app.py:73-84 | Every playable note's entry is in the tabulature. |
| App.AnnotatedEmptyIff | app.py:73-84 | The tabulature is empty exactly when no note is playable. |
| App.AnnotatedStarts | app.py:78-79 | Entries copy their notes' onsets, so non-negative onsets stay non-negative. |
| App.TempoOf | app.py:67 | The qpm of the first tempo event, or 120 when the file has none. |
| App.NumeratorOf | app.py:68 | The numerator of the first time signature, or 4 when the file has none. |
| App.DenominatorOf | app.py:69 | The denominator of the first time signature, or 4 when the file has none. It is only carried to the result. |
| App.SecondsPerBeat | app.py:70 | seconds_per_beat = 60 / tempo is positive for a positive tempo. |
| App.BarDuration | app.py:71 | bar_duration = numerator * seconds_per_beat is positive for a positive tempo and numerator. |
| App.MidiToTab | app.py:64-91 | Applying the 120/4/4 defaults, annotating and grouping yields the meter with the dense bars of the English tabulature. It fails exactly when every pitch is outside 40..88. |
| App.TabulatureOfErrIff | app.py:54 | midi_to_tab fails exactly when no note is playable, because the grouper then takes `max` of nothing. |
| App.TabulatureOfPartition | app.py:86-91 | The returned bars hold exactly the entries of the tabulature, each once. |
| App.TabulatureOfPlacement | app.py:86-91 | Every returned note sits in the bar its onset falls in, and it is the entry of a playable input note. |
| App.TabulatureOfSingleBar | app.py:86-91 | When every entry starts before the end of the first bar, the result is one bar holding the whole tabulature in input order. |
| App.LowEExample | app.py:64-91 | At the default tempo, pitch 40 held 0.5 s is string 6, fret 0, labelled "quarter_note". |
| App.SixteenthExample | app.py:64-91 | At the default tempo, pitch 52 held 0.2 s is string 4, fret 2, labelled "sixteenth_note". |
| App.TwoNoteExample | app.py:64-91 | These two notes with no tempo or meter events give 4/4 and a single bar holding both entries in order. |
| Display.DisplayMidiAsTab | display_midi_info.py:51-85 | Applying the defaults, annotating with Polish labels, grouping into the map and listing yields the listing of the sparse grouping of the Polish tabulature. |
| Display.DisplayListingEmptyIff | display_midi_info.py:66-85 | Nothing is listed exactly when no note is playable, and that case is no error. |
| Display.DisplayListingSound | display_midi_info.py:79-85 | Every listed note is an entry of the Polish tabulature, listed under the bar its onset falls in. With App.AnnotatedFrom, it is the entry of an input note. |
| Display.DisplayListingPartition | display_midi_info.py:66-85 | The listed notes, joined entry after entry, are a permutation of the Polish tabulature: each entry is listed exactly once. |
| Display.DisplayListingComplete | display_midi_info.py:66-85 | Every playable note is listed, with its Polish entry, under the bar its onset falls in. |

## Left out

- The Flask app, its `/transcribe` route, file uploads, temporary paths, the transcription subprocess and `time.sleep` (app.py:1-18, app.py:93-124) are web and process plumbing.
- main.py is not part of this model. It only uploads, runs a subprocess and sends a file.
- MIDI parsing (`midi_io.midi_file_to_sequence_proto`) is a call into a library. Both transforms receive the parsed `NoteSequence` instead.
- The printed text of the listing is console output: the "Takt n" headings with 1-based numbers, and the two-decimal onsets. The hard-coded path and module-level call in display_midi_info.py are left out too. Only the order and content of what is listed are modelled.
- IEEE floating point: the model computes durations, `60 / tempo`, the duration ratios and `//` exactly on reals. It claims nothing about rounding at band or bar edges.
- The JSON encoding of the returned dictionary is left out. `Tablature` holds the same three fields.
- App.MidiToTab: requires a positive tempo, a positive numerator, and non-negative onsets for the notes that get a tabulature entry. Notes outside 40..88 are dropped before any bar number is computed, so their onsets are unconstrained. Otherwise the source raises `ZeroDivisionError` (zero tempo or numerator), or computes with a negative bar length, or indexes from the end of the list for a negative bar number. None of these is modelled.
- Grouping.GroupNotesIntoBars: requires a positive bar length and non-negative onsets, for the same reason. Python's negative-index wrap-around is not modelled.
- Display.DisplayMidiAsTab: requires a positive tempo and numerator. The source also runs with a zero numerator when no note is playable, and with a negative tempo or numerator. Those cases are not modelled.
- Display.DisplayMidiAsTab: the denominator it reads is never used by the source, so the model does not compute it.
