/**
 * The duration classifier: a note's length, measured in beats, named as a rhythmic value
 * (app.py:38-51; the same thresholds with Polish names in display_midi_info.py:25-39).
 */
module Rhythm {
  import opened Division

  /** The six rhythmic values the classifier can name, longest first. */
  datatype DurationName = Whole | Half | Quarter | Eighth | Sixteenth | ThirtySecond

  /** Nominal length of each value, in beats (quarter notes). */
  function Beats(b: DurationName): real {
    match b
    case Whole => 4.0
    case Half => 2.0
    case Quarter => 1.0
    case Eighth => 0.5
    case Sixteenth => 0.25
    case ThirtySecond => 0.125
  }

  /**
   * A length of `ratio` beats is named b when b is the longest value not longer than it:
   * at least Beats(b) and below twice that. A whole note has no upper bound, and a
   * thirty-second takes everything below a sixteenth, zero and negative lengths included.
   */
  predicate InBand(ratio: real, b: DurationName) {
    (b == ThirtySecond || Beats(b) <= ratio) && (b == Whole || ratio < 2.0 * Beats(b))
  }

  /**
   * get_note_duration_name: divide the duration by the length of a beat and take the first
   * threshold, from 4 beats down to a quarter beat, that the ratio reaches.
   */
  function Classify(duration: real, secondsPerBeat: real): DurationName
    requires secondsPerBeat != 0.0
  {
    var ratio := duration / secondsPerBeat;
    if ratio >= 4.0 then Whole
    else if ratio >= 2.0 then Half
    else if ratio >= 1.0 then Quarter
    else if ratio >= 0.5 then Eighth
    else if ratio >= 0.25 then Sixteenth
    else ThirtySecond
  }

  /** The classifier names every duration by the band its length in beats falls in. */
  lemma ClassifyInBand(duration: real, secondsPerBeat: real)
    requires secondsPerBeat != 0.0
    ensures InBand(duration / secondsPerBeat, Classify(duration, secondsPerBeat))
  {
  }

  /** The bands do not overlap, so every ratio has exactly one name. */
  lemma BandUnique(ratio: real, a: DurationName, b: DurationName)
    requires InBand(ratio, a) && InBand(ratio, b)
    ensures a == b
  {
  }

  /** A longer note never gets a shorter name (for a positive beat length). */
  lemma ClassifyMonotone(d1: real, d2: real, secondsPerBeat: real)
    requires secondsPerBeat > 0.0 && d1 <= d2
    ensures Beats(Classify(d1, secondsPerBeat)) <= Beats(Classify(d2, secondsPerBeat))
  {
    DivideMonotone(d1, d2, secondsPerBeat);
  }

  /** Position of each value in the longest-first order, which both label tables follow. */
  function Rank(b: DurationName): nat {
    match b
    case Whole => 0
    case Half => 1
    case Quarter => 2
    case Eighth => 3
    case Sixteenth => 4
    case ThirtySecond => 5
  }

  /** The labels app.py gives to the values, longest first. */
  const EnglishLabels: seq<string> :=
    ["whole_note", "half_note", "quarter_note", "eighth_note", "sixteenth_note", "thirty_second_note"]

  /** The labels display_midi_info.py gives to the values, longest first. */
  const PolishLabels: seq<string> :=
    ["cała nuta", "półnuta", "ćwierćnuta", "ósemka", "szesnastka", "trzydziestodwójka"]

  function EnglishName(b: DurationName): string {
    EnglishLabels[Rank(b)]
  }

  function PolishName(b: DurationName): string {
    PolishLabels[Rank(b)]
  }

  /** Each label set names the six values apart, so a label tells its value back. */
  lemma LabelsDistinct(a: DurationName, b: DurationName)
    ensures EnglishName(a) == EnglishName(b) ==> a == b
    ensures PolishName(a) == PolishName(b) ==> a == b
  {
  }

  /** app.py's get_note_duration_name: the English label of the band. */
  function NoteDurationName(duration: real, secondsPerBeat: real): string
    requires secondsPerBeat != 0.0
  {
    EnglishName(Classify(duration, secondsPerBeat))
  }

  /**
   * display_midi_info.py's get_note_duration_name, its own chain of thresholds with Polish
   * labels; it lands in the same band as the app.py classifier.
   */
  function NoteDurationNamePolish(duration: real, secondsPerBeat: real): (r: string)
    requires secondsPerBeat != 0.0
    ensures r == PolishName(Classify(duration, secondsPerBeat))
  {
    var ratio := duration / secondsPerBeat;
    if ratio >= 4.0 then "cała nuta"
    else if ratio >= 2.0 then "półnuta"
    else if ratio >= 1.0 then "ćwierćnuta"
    else if ratio >= 0.5 then "ósemka"
    else if ratio >= 0.25 then "szesnastka"
    else "trzydziestodwójka"
  }

  /** At 120 quarter notes per minute a beat lasts half a second. */
  lemma ClassifyAt120()
    ensures Classify(2.0, 0.5) == Whole
    ensures Classify(0.5, 0.5) == Quarter
    ensures Classify(0.25, 0.5) == Eighth
    ensures Classify(0.2, 0.5) == Sixteenth
    ensures Classify(0.0, 0.5) == ThirtySecond && Classify(-1.0, 0.5) == ThirtySecond
  {
  }
}
