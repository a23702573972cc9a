/**
 * The fretboard mapper: which string and fret play a MIDI pitch
 * (app.py:21-36, repeated in display_midi_info.py:6-23).
 */
module Fretboard {
  import opened Wrappers

  /** One entry of the tuning table: a string (1 = high E ... 6 = low E) and its open pitch. */
  datatype GuitarString = GuitarString(number: int, openPitch: int)

  /** A fingering: the string to pluck and the fret to hold down (0 = open string). */
  datatype Position = Position(stringNumber: int, fret: int)

  /** The highest fret the mapper will use. */
  const MaxFret := 24

  /** Standard tuning, in the order the table lists (and iterates) its strings: low E first. */
  const Tuning: seq<GuitarString> :=
    [GuitarString(6, 40), GuitarString(5, 45), GuitarString(4, 50),
     GuitarString(3, 55), GuitarString(2, 59), GuitarString(1, 64)]

  /** Lowest and highest pitch any string of the tuning can reach. */
  const LowestPitch := 40
  const HighestPitch := 64 + MaxFret

  /** The fret at which string g sounds `pitch` lies on the fretboard. */
  predicate Reaches(g: GuitarString, pitch: int) {
    0 <= pitch - g.openPitch <= MaxFret
  }

  /** The fingering of `pitch` on string g. */
  function Fingering(g: GuitarString, pitch: int): Position {
    Position(g.number, pitch - g.openPitch)
  }

  /** The candidate fingerings of `pitch` on the strings of t, in table order. */
  function Options(pitch: int, t: seq<GuitarString>): seq<Position> {
    if t == [] then []
    else
      var g := t[|t| - 1];
      Options(pitch, t[..|t| - 1]) + (if Reaches(g, pitch) then [Fingering(g, pitch)] else [])
  }

  /** The options are exactly the fingerings of the strings that reach the pitch. */
  lemma {:induction false} OptionsExactly(pitch: int, t: seq<GuitarString>)
    ensures forall p :: p in Options(pitch, t) <==> exists g :: g in t && Reaches(g, pitch) && p == Fingering(g, pitch)
  {
    if t != [] {
      var g := t[|t| - 1];
      assert forall h :: h in t <==> h in t[..|t| - 1] || h == g;
      OptionsExactly(pitch, t[..|t| - 1]);
    }
  }

  /**
   * The option with the smallest fret; of several with that fret, the first one,
   * as Python's min with a key function keeps the first of equal minima.
   */
  function FirstMinFret(opts: seq<Position>): Position
    requires opts != []
  {
    if |opts| == 1 then opts[0]
    else
      var m := FirstMinFret(opts[..|opts| - 1]);
      var last := opts[|opts| - 1];
      if last.fret < m.fret then last else m
  }

  /** FirstMinFret picks an option whose fret no option undercuts, and the first such. */
  lemma {:induction false} FirstMinFretIsFirstMinimum(opts: seq<Position>)
    requires opts != []
    ensures FirstMinFret(opts) in opts
    ensures forall q :: q in opts ==> FirstMinFret(opts).fret <= q.fret
    ensures exists j :: 0 <= j < |opts| && opts[j] == FirstMinFret(opts)
                        && forall i :: 0 <= i < j ==> FirstMinFret(opts).fret < opts[i].fret
  {
    if |opts| == 1 {
      assert opts[0] == FirstMinFret(opts);
    } else {
      var init, last := opts[..|opts| - 1], opts[|opts| - 1];
      assert opts == init + [last];
      FirstMinFretIsFirstMinimum(init);
      var m := FirstMinFret(init);
      var j :| 0 <= j < |init| && init[j] == m && forall i :: 0 <= i < j ==> m.fret < init[i].fret;
      if last.fret < m.fret {
        assert FirstMinFret(opts) == last;
        assert forall i :: 0 <= i < |opts| - 1 ==> opts[i] == init[i];
        assert forall q :: q in opts ==> q in init || q == last;
      } else {
        assert FirstMinFret(opts) == m;
        assert opts[j] == m;
        assert forall i :: 0 <= i < j ==> opts[i] == init[i];
        assert forall q :: q in opts ==> q in init || q == last;
      }
    }
  }

  /** The mapper as a function: the first fingering with the lowest fret, or none. */
  function MapPitch(pitch: int): Option<Position> {
    var opts := Options(pitch, Tuning);
    if opts == [] then None else Some(FirstMinFret(opts))
  }

  /**
   * pitch_to_string_and_fret: collect every reachable fingering in table order,
   * then keep the first one with the smallest fret; (None, None) becomes None.
   */
  method PitchToStringAndFret(pitch: int) returns (r: Option<Position>)
    ensures r == MapPitch(pitch)
  {
    var options: seq<Position> := [];
    for i := 0 to |Tuning|
      invariant options == Options(pitch, Tuning[..i])
    {
      var g := Tuning[i];
      var fret := pitch - g.openPitch;
      assert Tuning[..i + 1][..i] == Tuning[..i];
      if 0 <= fret <= MaxFret {
        options := options + [Position(g.number, fret)];
      }
    }
    assert Tuning[..|Tuning|] == Tuning;
    if options == [] {
      return None;
    }
    var best := options[0];
    for j := 1 to |options|
      invariant best == FirstMinFret(options[..j])
    {
      assert options[..j + 1][..j] == options[..j];
      if options[j].fret < best.fret {
        best := options[j];
      }
    }
    assert options[..|options|] == options;
    return Some(best);
  }

  /** A mapped pitch is played on a string of the tuning, at a fret on the board. */
  lemma MapPitchSound(pitch: int)
    requires MapPitch(pitch).Some?
    ensures exists g :: g in Tuning && Reaches(g, pitch) && MapPitch(pitch).value == Fingering(g, pitch)
    ensures 0 <= MapPitch(pitch).value.fret <= MaxFret
  {
    OptionsExactly(pitch, Tuning);
    FirstMinFretIsFirstMinimum(Options(pitch, Tuning));
  }

  /** No string of the tuning offers a lower fret than the mapper's choice. */
  lemma MapPitchMinimal(pitch: int, g: GuitarString)
    requires g in Tuning && Reaches(g, pitch)
    ensures MapPitch(pitch).Some?
    ensures MapPitch(pitch).value.fret <= pitch - g.openPitch
  {
    OptionsExactly(pitch, Tuning);
    assert Fingering(g, pitch) in Options(pitch, Tuning);
    FirstMinFretIsFirstMinimum(Options(pitch, Tuning));
  }

  /** The choice is unique: no other string reaches the pitch at the same fret. */
  lemma MapPitchUnique(pitch: int, g: GuitarString)
    requires g in Tuning && Reaches(g, pitch)
    requires MapPitch(pitch).Some? && MapPitch(pitch).value.fret == pitch - g.openPitch
    ensures MapPitch(pitch).value == Fingering(g, pitch)
  {
    MapPitchSound(pitch);
  }

  /** A pitch has no fingering exactly when it lies outside 40..88. */
  lemma MapPitchNoneIff(pitch: int)
    ensures MapPitch(pitch).None? <==> pitch < LowestPitch || pitch > HighestPitch
  {
    OptionsExactly(pitch, Tuning);
    if LowestPitch <= pitch <= HighestPitch {
      var g := if pitch <= 64 then Tuning[0] else Tuning[5];
      assert g in Tuning && Reaches(g, pitch);
      assert Fingering(g, pitch) in Options(pitch, Tuning);
    } else if Options(pitch, Tuning) != [] {
      assert Options(pitch, Tuning)[0] in Options(pitch, Tuning);
    }
  }

  /**
   * When a string reaches the pitch at a fret no other string can undercut, that string and fret
   * are the mapper's answer: 40 on the open low E, 52 at the second fret of the D string.
   */
  lemma MapPitchOfLowestFret(pitch: int, g: GuitarString)
    requires g in Tuning && Reaches(g, pitch)
    requires forall h :: h in Tuning && Reaches(h, pitch) ==> pitch - g.openPitch <= pitch - h.openPitch
    ensures MapPitch(pitch) == Some(Fingering(g, pitch))
  {
    MapPitchMinimal(pitch, g);
    MapPitchSound(pitch);
    MapPitchUnique(pitch, g);
  }
}
