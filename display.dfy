/**
 * display_midi_as_tab of display_midi_info.py without the console: the same annotation loop
 * with Polish labels, the sparse grouper, and the order in which bars and notes are listed
 * (display_midi_info.py:51-85).
 */
module Display {
  import opened Wrappers
  import opened Notes
  import opened Fretboard
  import opened Grouping
  import opened Listing
  import opened App

  /** What the listing needs: a positive tempo and a positive numerator. */
  predicate DisplayInput(ns: NoteSequence) {
    TempoOf(ns) > 0.0 && NumeratorOf(ns) > 0
  }

  /** The listing as a value: the Polish tabulature, grouped by bar number, in listing order. */
  function DisplayListing(ns: NoteSequence): seq<BarListing>
    requires DisplayInput(ns)
  {
    ListingOrder(SparseBars(Annotated(ns.notes, SecondsPerBeat(ns), Polish), BarDuration(ns)))
  }

  /**
   * display_midi_as_tab: apply the meter defaults, build the tabulature note by note, group it
   * into a map from bar number to notes, and list the bars as they are printed.
   */
  method DisplayMidiAsTab(ns: NoteSequence) returns (listing: seq<BarListing>)
    requires DisplayInput(ns)
    ensures listing == DisplayListing(ns)
  {
    var tempo := if ns.tempos != [] then ns.tempos[0] else 120.0;
    var numerator := if ns.timeSignatures != [] then ns.timeSignatures[0].numerator else 4;
    var secondsPerBeat := 60.0 / tempo;
    var barDuration := numerator as real * secondsPerBeat;
    assert tempo == TempoOf(ns) && numerator == NumeratorOf(ns);
    assert secondsPerBeat == SecondsPerBeat(ns) && barDuration == BarDuration(ns);
    var tabulature := BuildTabulature(ns.notes, secondsPerBeat, Polish);
    var bars := GroupNotesIntoBarMap(tabulature, barDuration);
    listing := ListingOrder(bars);
  }

  /** Nothing is listed exactly when no note is playable; unlike midi_to_tab this is no error. */
  lemma DisplayListingEmptyIff(ns: NoteSequence)
    requires DisplayInput(ns)
    ensures DisplayListing(ns) == [] <==>
      forall i :: 0 <= i < |ns.notes| ==> ns.notes[i].pitch < LowestPitch || ns.notes[i].pitch > HighestPitch
  {
    var tab := Annotated(ns.notes, SecondsPerBeat(ns), Polish);
    var bars := SparseBars(tab, BarDuration(ns));
    AnnotatedEmptyIff(ns.notes, SecondsPerBeat(ns), Polish);
    SparseBarsKeys(tab, BarDuration(ns));
    if tab != [] {
      assert BarIndex(tab[0].startTime, BarDuration(ns)) in bars;
    } else {
      assert bars.Keys == {};
    }
  }

  /**
   * Every listed note is an entry of the Polish tabulature (so, by App.AnnotatedFrom, the
   * entry of an input note), listed under the bar its onset falls in.
   */
  lemma {:induction false} DisplayListingSound(ns: NoteSequence)
    requires DisplayInput(ns)
    ensures BarDuration(ns) > 0.0
    ensures forall j, t :: 0 <= j < |DisplayListing(ns)| && t in DisplayListing(ns)[j].notes ==>
      && t in Annotated(ns.notes, SecondsPerBeat(ns), Polish)
      && BarIndex(t.startTime, BarDuration(ns)) == DisplayListing(ns)[j].barNumber
  {
    var tab := Annotated(ns.notes, SecondsPerBeat(ns), Polish);
    var bars := SparseBars(tab, BarDuration(ns));
    ListingOrderSound(bars);
    SparseBarsSound(tab, BarDuration(ns));
  }

  /**
   * The listing shows every entry of the Polish tabulature exactly once: its notes, joined
   * entry after entry, are a permutation of the tabulature.
   */
  lemma DisplayListingPartition(ns: NoteSequence)
    requires DisplayInput(ns)
    ensures multiset(ListedNotes(DisplayListing(ns))) == multiset(Annotated(ns.notes, SecondsPerBeat(ns), Polish))
  {
    var tab := Annotated(ns.notes, SecondsPerBeat(ns), Polish);
    var bars := SparseBars(tab, BarDuration(ns));
    ListingOrderNotes(bars);
    SparseBarsPartition(tab, BarDuration(ns), SortedKeys(bars.Keys));
  }

  /** Every playable note is listed, with its Polish entry, under the bar its onset falls in. */
  lemma DisplayListingComplete(ns: NoteSequence, i: int)
    requires DisplayInput(ns) && 0 <= i < |ns.notes|
    requires LowestPitch <= ns.notes[i].pitch <= HighestPitch
    ensures BarDuration(ns) > 0.0
    ensures Annotate(ns.notes[i], SecondsPerBeat(ns), Polish).Some?
    ensures exists j :: && 0 <= j < |DisplayListing(ns)|
                        && DisplayListing(ns)[j].barNumber == BarIndex(ns.notes[i].startTime, BarDuration(ns))
                        && Annotate(ns.notes[i], SecondsPerBeat(ns), Polish).value in DisplayListing(ns)[j].notes
  {
    var tab := Annotated(ns.notes, SecondsPerBeat(ns), Polish);
    var bd := BarDuration(ns);
    var bars := SparseBars(tab, bd);
    var listing := DisplayListing(ns);
    AnnotatedContains(ns.notes, SecondsPerBeat(ns), Polish, i);
    var t := Annotate(ns.notes[i], SecondsPerBeat(ns), Polish).value;
    AnnotateSomeIff(ns.notes[i], SecondsPerBeat(ns), Polish);
    var p :| 0 <= p < |tab| && tab[p] == t;
    BarOfContains(tab, bd, p);
    var k := BarIndex(t.startTime, bd);
    assert k in BarKeys(tab, bd);
    assert k in bars;
    var j :| 0 <= j < |listing| && listing[j].barNumber == k;
    assert ShowsBar(listing[j], bars);
    assert t in multiset(bars[k]);
  }
}
