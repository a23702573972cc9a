/**
 * The bar grouper, in its two versions: a dense list with one slot per bar up to the last
 * note's (app.py:53-62) and a map holding only the bars that received a note
 * (display_midi_info.py:41-49).
 */
module Grouping {
  import opened Wrappers
  import opened Notes
  import opened Division

  /** The grouper's one failure: max() over an empty tabulature. */
  datatype GroupError = EmptyTabulature

  /** The bar a time falls in: the floor division `start_time // bar_duration`. */
  function BarIndex(t: real, barDuration: real): int
    requires barDuration != 0.0
  {
    (t / barDuration).Floor
  }

  predicate NonNegativeStarts(tab: seq<TabNote>) {
    forall i :: 0 <= i < |tab| ==> tab[i].startTime >= 0.0
  }

  /** The notes of tab whose bar is k, in the order tab lists them. */
  function BarOf(tab: seq<TabNote>, barDuration: real, k: int): (r: seq<TabNote>)
    requires barDuration != 0.0
    ensures |r| <= |tab|
  {
    if tab == [] then []
    else
      var last := tab[|tab| - 1];
      BarOf(tab[..|tab| - 1], barDuration, k) + (if BarIndex(last.startTime, barDuration) == k then [last] else [])
  }

  /** Bar k holds only notes of tab whose onset falls in bar k. */
  lemma {:induction false} BarOfSound(tab: seq<TabNote>, barDuration: real, k: int)
    requires barDuration != 0.0
    ensures forall n :: n in BarOf(tab, barDuration, k) ==> n in tab && BarIndex(n.startTime, barDuration) == k
  {
    if tab != [] {
      var init := tab[..|tab| - 1];
      BarOfSound(init, barDuration, k);
      assert forall n :: n in init ==> n in tab;
    }
  }

  /** The latest onset of a non-empty tabulature. */
  function MaxStart(tab: seq<TabNote>): (m: real)
    requires tab != []
    ensures forall i :: 0 <= i < |tab| ==> tab[i].startTime <= m
    ensures exists i :: 0 <= i < |tab| && tab[i].startTime == m
  {
    if |tab| == 1 then tab[0].startTime
    else
      var m := MaxStart(tab[..|tab| - 1]);
      var t := tab[|tab| - 1].startTime;
      if t > m then t else m
  }

  /** How many bars the dense grouper allocates: up to and including the bar of the latest onset. */
  function NumBars(tab: seq<TabNote>, barDuration: real): int
    requires tab != [] && barDuration != 0.0
  {
    BarIndex(MaxStart(tab), barDuration) + 1
  }

  /** Bars 0 .. n-1 of tab. */
  function BarsUpTo(tab: seq<TabNote>, barDuration: real, n: nat): (r: seq<seq<TabNote>>)
    requires barDuration != 0.0
    ensures |r| == n
    ensures forall k :: 0 <= k < n ==> r[k] == BarOf(tab, barDuration, k)
  {
    if n == 0 then [] else BarsUpTo(tab, barDuration, n - 1) + [BarOf(tab, barDuration, n - 1)]
  }

  /** Later onsets never land in earlier bars, and non-negative onsets land in bars >= 0. */
  lemma BarIndexMonotone(s: real, t: real, barDuration: real)
    requires barDuration > 0.0 && s <= t
    ensures BarIndex(s, barDuration) <= BarIndex(t, barDuration)
    ensures s >= 0.0 ==> BarIndex(s, barDuration) >= 0
  {
    DivideMonotone(s, t, barDuration);
    if s >= 0.0 {
      DivideNonNegative(s, barDuration);
    }
  }

  /** The dense bar list as a value: bar k holds the notes whose onset falls in it. */
  function DenseBars(tab: seq<TabNote>, barDuration: real): (r: seq<seq<TabNote>>)
    requires tab != [] && barDuration > 0.0 && NonNegativeStarts(tab)
    ensures |r| == NumBars(tab, barDuration) >= 1
    ensures forall k :: 0 <= k < |r| ==> r[k] == BarOf(tab, barDuration, k)
  {
    BarIndexInRange(tab, barDuration, 0);
    BarsUpTo(tab, barDuration, NumBars(tab, barDuration))
  }

  /** Every note's bar is a slot of the dense list. */
  lemma BarIndexInRange(tab: seq<TabNote>, barDuration: real, i: int)
    requires tab != [] && barDuration > 0.0 && NonNegativeStarts(tab) && 0 <= i < |tab|
    ensures 0 <= BarIndex(tab[i].startTime, barDuration) < NumBars(tab, barDuration)
  {
    BarIndexMonotone(tab[i].startTime, MaxStart(tab), barDuration);
  }

  /** A list of bars that agrees with DenseBars slot by slot is DenseBars. */
  lemma DenseBarsExtensional(tab: seq<TabNote>, barDuration: real, bars: seq<seq<TabNote>>)
    requires tab != [] && barDuration > 0.0 && NonNegativeStarts(tab)
    requires |bars| == NumBars(tab, barDuration)
    requires forall k :: 0 <= k < |bars| ==> bars[k] == BarOf(tab, barDuration, k)
    ensures bars == DenseBars(tab, barDuration)
  {
  }

  /** Taking one more note of tab adds it to its own bar and to no other. */
  lemma BarOfExtend(tab: seq<TabNote>, barDuration: real, i: int)
    requires barDuration != 0.0 && 0 <= i < |tab|
    ensures forall k ::
      BarOf(tab[..i + 1], barDuration, k)
        == BarOf(tab[..i], barDuration, k) + (if BarIndex(tab[i].startTime, barDuration) == k then [tab[i]] else [])
  {
    assert tab[..i + 1][..i] == tab[..i];
  }

  /**
   * group_notes_into_bars (app.py): allocate one empty bar per slot up to the bar of the latest
   * onset, then append every note, in input order, to the bar its onset falls in.
   * An empty tabulature fails, as max() of an empty sequence raises.
   */
  method GroupNotesIntoBars(tab: seq<TabNote>, barDuration: real) returns (r: Result<seq<seq<TabNote>>, GroupError>)
    requires barDuration > 0.0 && NonNegativeStarts(tab)
    ensures tab == [] ==> r == Err(EmptyTabulature)
    ensures tab != [] ==> r == Ok(DenseBars(tab, barDuration))
  {
    if tab == [] {
      return Err(EmptyTabulature);
    }
    var numBars := BarIndex(MaxStart(tab), barDuration) + 1;
    BarIndexInRange(tab, barDuration, 0);
    var bars := new seq<TabNote>[numBars](_ => []);
    for i := 0 to |tab|
      invariant forall k :: 0 <= k < numBars ==> bars[k] == BarOf(tab[..i], barDuration, k)
    {
      var barNumber := BarIndex(tab[i].startTime, barDuration);
      BarIndexInRange(tab, barDuration, i);
      BarOfExtend(tab, barDuration, i);
      bars[barNumber] := bars[barNumber] + [tab[i]];
    }
    assert tab[..|tab|] == tab;
    DenseBarsExtensional(tab, barDuration, bars[..]);
    return Ok(bars[..]);
  }

  /** Grouping distributes over concatenation: the notes of an earlier stretch of input precede those of a later one. */
  lemma {:induction false} BarOfAppend(a: seq<TabNote>, b: seq<TabNote>, barDuration: real, k: int)
    requires barDuration != 0.0
    ensures BarOf(a + b, barDuration, k) == BarOf(a, barDuration, k) + BarOf(b, barDuration, k)
  {
    if b == [] {
      assert a + b == a;
    } else {
      var init, last := b[..|b| - 1], b[|b| - 1];
      var e := if BarIndex(last.startTime, barDuration) == k then [last] else [];
      assert (a + b)[..|a + b| - 1] == a + init;
      assert (a + b)[|a + b| - 1] == last;
      BarOfAppend(a, init, barDuration, k);
      assert BarOf(a + b, barDuration, k) == BarOf(a + init, barDuration, k) + e;
      assert BarOf(b, barDuration, k) == BarOf(init, barDuration, k) + e;
      assert (BarOf(a, barDuration, k) + BarOf(init, barDuration, k)) + e
          == BarOf(a, barDuration, k) + (BarOf(init, barDuration, k) + e);
    }
  }

  /** Every note is in the bar its onset falls in. */
  lemma BarOfContains(tab: seq<TabNote>, barDuration: real, i: int)
    requires barDuration != 0.0 && 0 <= i < |tab|
    ensures tab[i] in BarOf(tab, barDuration, BarIndex(tab[i].startTime, barDuration))
  {
    var k := BarIndex(tab[i].startTime, barDuration);
    BarOfExtend(tab, barDuration, i);
    assert tab[i] in BarOf(tab[..i + 1], barDuration, k);
    assert tab == tab[..i + 1] + tab[i + 1..];
    BarOfAppend(tab[..i + 1], tab[i + 1..], barDuration, k);
  }

  /** A bar is empty exactly when no note's onset falls in it. */
  lemma BarOfEmptyIff(tab: seq<TabNote>, barDuration: real, k: int)
    requires barDuration != 0.0
    ensures BarOf(tab, barDuration, k) == [] <==> forall i :: 0 <= i < |tab| ==> BarIndex(tab[i].startTime, barDuration) != k
  {
    if exists i :: 0 <= i < |tab| && BarIndex(tab[i].startTime, barDuration) == k {
      var i :| 0 <= i < |tab| && BarIndex(tab[i].startTime, barDuration) == k;
      BarOfContains(tab, barDuration, i);
    }
  }

  /** The dense grouper files each note under the bar its onset falls in, and only there. */
  lemma DenseBarsPlacement(tab: seq<TabNote>, barDuration: real, i: int, k: int)
    requires tab != [] && barDuration > 0.0 && NonNegativeStarts(tab) && 0 <= i < |tab|
    requires 0 <= k < NumBars(tab, barDuration)
    ensures 0 <= BarIndex(tab[i].startTime, barDuration) < |DenseBars(tab, barDuration)|
    ensures tab[i] in DenseBars(tab, barDuration)[BarIndex(tab[i].startTime, barDuration)]
    ensures forall n :: n in DenseBars(tab, barDuration)[k] ==> n in tab && BarIndex(n.startTime, barDuration) == k
  {
    BarIndexInRange(tab, barDuration, i);
    BarOfContains(tab, barDuration, i);
    BarOfSound(tab, barDuration, k);
  }

  /** The concatenation of a list of bars, first bar first. */
  function Flatten(bars: seq<seq<TabNote>>): (r: seq<TabNote>)
    ensures forall n :: n in r <==> exists k :: 0 <= k < |bars| && n in bars[k]
  {
    if bars == [] then []
    else
      var init := bars[..|bars| - 1];
      assert forall k :: 0 <= k < |init| ==> init[k] == bars[k];
      Flatten(init) + bars[|bars| - 1]
  }

  /** The notes of tab whose bar lies in 0 .. n-1, in input order. */
  function InBars(tab: seq<TabNote>, barDuration: real, n: int): seq<TabNote>
    requires barDuration != 0.0
  {
    if tab == [] then []
    else
      var last := tab[|tab| - 1];
      var b := BarIndex(last.startTime, barDuration);
      InBars(tab[..|tab| - 1], barDuration, n) + (if 0 <= b < n then [last] else [])
  }

  lemma {:induction false} InBarsStep(tab: seq<TabNote>, barDuration: real, n: nat)
    requires barDuration != 0.0
    ensures multiset(InBars(tab, barDuration, n + 1))
      == multiset(InBars(tab, barDuration, n)) + multiset(BarOf(tab, barDuration, n))
  {
    if tab != [] {
      InBarsStep(tab[..|tab| - 1], barDuration, n);
    }
  }

  lemma {:induction false} InBarsAll(tab: seq<TabNote>, barDuration: real, n: int)
    requires barDuration != 0.0
    requires forall i :: 0 <= i < |tab| ==> 0 <= BarIndex(tab[i].startTime, barDuration) < n
    ensures InBars(tab, barDuration, n) == tab
  {
    if tab != [] {
      InBarsAll(tab[..|tab| - 1], barDuration, n);
      assert tab[..|tab| - 1] + [tab[|tab| - 1]] == tab;
    }
  }

  lemma {:induction false} InBarsZero(tab: seq<TabNote>, barDuration: real)
    requires barDuration != 0.0
    ensures InBars(tab, barDuration, 0) == []
  {
    if tab != [] {
      InBarsZero(tab[..|tab| - 1], barDuration);
    }
  }

  lemma {:induction false} FlattenBarsUpTo(tab: seq<TabNote>, barDuration: real, n: nat)
    requires barDuration != 0.0
    ensures multiset(Flatten(BarsUpTo(tab, barDuration, n))) == multiset(InBars(tab, barDuration, n))
  {
    if n > 0 {
      var prev, last := BarsUpTo(tab, barDuration, n - 1), BarOf(tab, barDuration, n - 1);
      var bars := prev + [last];
      assert BarsUpTo(tab, barDuration, n) == bars;
      assert bars[..|bars| - 1] == prev;
      assert Flatten(bars) == Flatten(prev) + last;
      FlattenBarsUpTo(tab, barDuration, n - 1);
      InBarsStep(tab, barDuration, n - 1);
    } else {
      InBarsZero(tab, barDuration);
    }
  }

  /**
   * The dense bars partition the tabulature: read bar after bar they hold every note
   * exactly as many times as the input does, so the note count is preserved.
   */
  lemma DenseBarsPartition(tab: seq<TabNote>, barDuration: real)
    requires tab != [] && barDuration > 0.0 && NonNegativeStarts(tab)
    ensures multiset(Flatten(DenseBars(tab, barDuration))) == multiset(tab)
    ensures |Flatten(DenseBars(tab, barDuration))| == |tab|
  {
    var n := NumBars(tab, barDuration);
    forall i | 0 <= i < |tab|
      ensures 0 <= BarIndex(tab[i].startTime, barDuration) < n
    {
      BarIndexInRange(tab, barDuration, i);
    }
    FlattenBarsUpTo(tab, barDuration, n);
    InBarsAll(tab, barDuration, n);
    assert |multiset(Flatten(DenseBars(tab, barDuration)))| == |multiset(tab)|;
  }

  /** Notes whose onsets all fall before the first bar line make a single bar holding all of them. */
  lemma SingleBar(tab: seq<TabNote>, barDuration: real)
    requires tab != [] && barDuration > 0.0 && NonNegativeStarts(tab)
    requires forall i :: 0 <= i < |tab| ==> tab[i].startTime < barDuration
    ensures DenseBars(tab, barDuration) == [tab]
  {
    forall i | 0 <= i < |tab|
      ensures BarIndex(tab[i].startTime, barDuration) == 0
    {
      DivideNonNegative(tab[i].startTime, barDuration);
      DivideBelowOne(tab[i].startTime, barDuration);
    }
    var i :| 0 <= i < |tab| && tab[i].startTime == MaxStart(tab);
    InBarsAll(tab, barDuration, 1);
    BarOfIsInBarsOne(tab, barDuration);
  }

  lemma {:induction false} BarOfIsInBarsOne(tab: seq<TabNote>, barDuration: real)
    requires barDuration != 0.0
    ensures BarOf(tab, barDuration, 0) == InBars(tab, barDuration, 1)
  {
    if tab != [] {
      BarOfIsInBarsOne(tab[..|tab| - 1], barDuration);
    }
  }

  /** The bar numbers the notes of tab fall in. */
  function BarKeys(tab: seq<TabNote>, barDuration: real): set<int>
    requires barDuration != 0.0
  {
    set i | 0 <= i < |tab| :: BarIndex(tab[i].startTime, barDuration)
  }

  /** The sparse grouping as a value: one entry per bar that received a note. */
  function SparseBars(tab: seq<TabNote>, barDuration: real): map<int, seq<TabNote>>
    requires barDuration != 0.0
  {
    map k | k in BarKeys(tab, barDuration) :: BarOf(tab, barDuration, k)
  }

  /** Taking one more note adds its bar number to the key set. */
  lemma BarKeysExtend(tab: seq<TabNote>, barDuration: real, i: int)
    requires barDuration != 0.0 && 0 <= i < |tab|
    ensures BarKeys(tab[..i + 1], barDuration) == BarKeys(tab[..i], barDuration) + {BarIndex(tab[i].startTime, barDuration)}
  {
    var before, after := tab[..i], tab[..i + 1];
    var b := BarIndex(tab[i].startTime, barDuration);
    forall k | k in BarKeys(after, barDuration)
      ensures k in BarKeys(before, barDuration) + {b}
    {
      var j :| 0 <= j < |after| && k == BarIndex(after[j].startTime, barDuration);
      if j < i {
        assert before[j] == after[j];
      }
    }
    forall k | k in BarKeys(before, barDuration) + {b}
      ensures k in BarKeys(after, barDuration)
    {
      if k == b {
        assert after[i] == tab[i];
      } else {
        var j :| 0 <= j < |before| && k == BarIndex(before[j].startTime, barDuration);
        assert after[j] == before[j];
      }
    }
  }

  /** Taking one more note creates its bar if needed and appends the note there. */
  lemma SparseBarsExtend(tab: seq<TabNote>, barDuration: real, i: int)
    requires barDuration != 0.0 && 0 <= i < |tab|
    ensures var before := SparseBars(tab[..i], barDuration);
            var b := BarIndex(tab[i].startTime, barDuration);
            SparseBars(tab[..i + 1], barDuration)
              == before[b := (if b in before then before[b] else []) + [tab[i]]]
  {
    var b := BarIndex(tab[i].startTime, barDuration);
    var before, after := SparseBars(tab[..i], barDuration), SparseBars(tab[..i + 1], barDuration);
    var expected := before[b := (if b in before then before[b] else []) + [tab[i]]];
    BarKeysExtend(tab, barDuration, i);
    BarOfExtend(tab, barDuration, i);
    assert after.Keys == expected.Keys;
    forall k | k in after
      ensures after[k] == expected[k]
    {
      if k == b && b !in before {
        BarOfEmptyIff(tab[..i], barDuration, b);
      }
    }
  }

  /**
   * group_notes_into_bars (display_midi_info.py): for each note in input order, create the
   * entry of its bar when it is missing, then append the note to it.
   */
  method GroupNotesIntoBarMap(tab: seq<TabNote>, barDuration: real) returns (bars: map<int, seq<TabNote>>)
    requires barDuration != 0.0
    ensures bars == SparseBars(tab, barDuration)
    ensures tab == [] ==> bars == map[]
  {
    bars := map[];
    for i := 0 to |tab|
      invariant bars == SparseBars(tab[..i], barDuration)
    {
      var barNumber := BarIndex(tab[i].startTime, barDuration);
      SparseBarsExtend(tab, barDuration, i);
      if barNumber !in bars {
        bars := bars[barNumber := []];
      }
      bars := bars[barNumber := bars[barNumber] + [tab[i]]];
    }
    assert tab[..|tab|] == tab;
  }

  /** The sparse grouping has exactly the bars that received a note, none of them empty. */
  lemma SparseBarsKeys(tab: seq<TabNote>, barDuration: real)
    requires barDuration != 0.0
    ensures forall k :: k in SparseBars(tab, barDuration) <==> exists i :: 0 <= i < |tab| && BarIndex(tab[i].startTime, barDuration) == k
    ensures forall k :: k in SparseBars(tab, barDuration) ==> SparseBars(tab, barDuration)[k] != []
  {
    forall k | k in SparseBars(tab, barDuration)
      ensures SparseBars(tab, barDuration)[k] != []
    {
      BarOfEmptyIff(tab, barDuration, k);
    }
  }

  /**
   * The map version refines the list version: each bar it holds is the list's bar of the same
   * number, and every bar of the list it does not hold is empty.
   */
  lemma SparseRefinesDense(tab: seq<TabNote>, barDuration: real)
    requires tab != [] && barDuration > 0.0 && NonNegativeStarts(tab)
    ensures forall k :: k in SparseBars(tab, barDuration) ==>
      0 <= k < |DenseBars(tab, barDuration)| && SparseBars(tab, barDuration)[k] == DenseBars(tab, barDuration)[k]
    ensures forall k :: 0 <= k < |DenseBars(tab, barDuration)| && k !in SparseBars(tab, barDuration) ==>
      DenseBars(tab, barDuration)[k] == []
  {
    var sparse, dense := SparseBars(tab, barDuration), DenseBars(tab, barDuration);
    forall k | k in sparse
      ensures 0 <= k < |dense| && sparse[k] == dense[k]
    {
      var i :| 0 <= i < |tab| && k == BarIndex(tab[i].startTime, barDuration);
      BarIndexInRange(tab, barDuration, i);
    }
    forall k | 0 <= k < |dense| && k !in sparse
      ensures dense[k] == []
    {
      BarOfEmptyIff(tab, barDuration, k);
    }
  }

  /** Every note the map files under bar k is a note of the tabulature whose onset falls in bar k. */
  lemma SparseBarsSound(tab: seq<TabNote>, barDuration: real)
    requires barDuration != 0.0
    ensures forall k, t :: k in SparseBars(tab, barDuration) && t in SparseBars(tab, barDuration)[k] ==>
      t in tab && BarIndex(t.startTime, barDuration) == k
  {
    forall k, t | k in SparseBars(tab, barDuration) && t in SparseBars(tab, barDuration)[k]
      ensures t in tab && BarIndex(t.startTime, barDuration) == k
    {
      BarOfSound(tab, barDuration, k);
    }
  }

  /** The bars of a map numbered ks, joined in that order. */
  function JoinBars(bars: map<int, seq<TabNote>>, ks: seq<int>): seq<TabNote>
    requires forall i :: 0 <= i < |ks| ==> ks[i] in bars
  {
    if ks == [] then [] else bars[ks[0]] + JoinBars(bars, ks[1..])
  }

  /** Bars ks of tab, joined in that order. */
  function BarsJoined(tab: seq<TabNote>, barDuration: real, ks: seq<int>): seq<TabNote>
    requires barDuration != 0.0
  {
    if ks == [] then [] else BarOf(tab, barDuration, ks[0]) + BarsJoined(tab, barDuration, ks[1..])
  }

  lemma {:induction false} BarsJoinedEmpty(barDuration: real, ks: seq<int>)
    requires barDuration != 0.0
    ensures BarsJoined([], barDuration, ks) == []
  {
    if ks != [] {
      BarsJoinedEmpty(barDuration, ks[1..]);
    }
  }

  /** No bar number appears twice in ks. */
  predicate Distinct(ks: seq<int>) {
    forall i, j :: 0 <= i < j < |ks| ==> ks[i] != ks[j]
  }

  lemma DistinctTail(ks: seq<int>)
    requires Distinct(ks) && ks != []
    ensures Distinct(ks[1..]) && ks[0] !in ks[1..]
  {
    var tail := ks[1..];
    forall i, j | 0 <= i < j < |tail| ensures tail[i] != tail[j] {
      assert tail[i] == ks[i + 1] && tail[j] == ks[j + 1];
    }
    forall j | 0 <= j < |tail| ensures tail[j] != ks[0] {
      assert tail[j] == ks[j + 1];
    }
  }

  /** Appending a note adds it to its own bar and to no other. */
  lemma BarOfSnoc(tab: seq<TabNote>, x: TabNote, barDuration: real, k: int)
    requires barDuration != 0.0
    ensures BarOf(tab + [x], barDuration, k)
      == BarOf(tab, barDuration, k) + (if BarIndex(x.startTime, barDuration) == k then [x] else [])
  {
    var longer := tab + [x];
    assert longer[..|longer| - 1] == tab && longer[|longer| - 1] == x;
  }

  /** One more note joins the joined bars exactly once when its bar number is among ks, else not at all. */
  lemma {:induction false} BarsJoinedExtend(tab: seq<TabNote>, x: TabNote, barDuration: real, ks: seq<int>)
    requires barDuration != 0.0 && Distinct(ks)
    ensures multiset(BarsJoined(tab + [x], barDuration, ks))
      == multiset(BarsJoined(tab, barDuration, ks))
         + (if BarIndex(x.startTime, barDuration) in ks then multiset{x} else multiset{})
  {
    if ks != [] {
      var k, rest := BarIndex(x.startTime, barDuration), ks[1..];
      DistinctTail(ks);
      BarsJoinedExtend(tab, x, barDuration, rest);
      BarOfSnoc(tab, x, barDuration, ks[0]);
      var head, tail := BarOf(tab, barDuration, ks[0]), BarsJoined(tab, barDuration, rest);
      var longHead, longTail := BarOf(tab + [x], barDuration, ks[0]), BarsJoined(tab + [x], barDuration, rest);
      assert BarsJoined(tab, barDuration, ks) == head + tail;
      assert BarsJoined(tab + [x], barDuration, ks) == longHead + longTail;
      assert k in ks <==> k == ks[0] || k in rest;
      if k == ks[0] {
        assert longHead == head + [x];
        assert multiset(longTail) == multiset(tail);
      } else {
        assert longHead == head;
      }
    }
  }

  /** Joined over bar numbers that each appear once and cover every onset, the bars hold every note exactly once. */
  lemma {:induction false} BarsJoinedPartition(tab: seq<TabNote>, barDuration: real, ks: seq<int>)
    requires barDuration != 0.0 && Distinct(ks)
    requires forall i :: 0 <= i < |tab| ==> BarIndex(tab[i].startTime, barDuration) in ks
    ensures multiset(BarsJoined(tab, barDuration, ks)) == multiset(tab)
  {
    if tab == [] {
      BarsJoinedEmpty(barDuration, ks);
    } else {
      var init, x := tab[..|tab| - 1], tab[|tab| - 1];
      assert init + [x] == tab;
      assert BarIndex(x.startTime, barDuration) in ks;
      assert forall i :: 0 <= i < |init| ==> BarIndex(init[i].startTime, barDuration) in ks by {
        forall i | 0 <= i < |init| ensures BarIndex(init[i].startTime, barDuration) in ks {
          assert init[i] == tab[i];
        }
      }
      BarsJoinedPartition(init, barDuration, ks);
      BarsJoinedExtend(init, x, barDuration, ks);
      assert multiset(tab) == multiset(init) + multiset{x};
    }
  }

  /**
   * Joined in any order that names each key once, the bars of the map hold every note of the
   * tabulature exactly once: the grouper appends each note to one bar and loses none.
   */
  lemma {:induction false} SparseBarsPartition(tab: seq<TabNote>, barDuration: real, ks: seq<int>)
    requires barDuration != 0.0 && Distinct(ks)
    requires forall i :: 0 <= i < |ks| ==> ks[i] in SparseBars(tab, barDuration)
    requires forall k :: k in SparseBars(tab, barDuration) ==> k in ks
    ensures multiset(JoinBars(SparseBars(tab, barDuration), ks)) == multiset(tab)
  {
    SparseJoinedIsBarsJoined(tab, barDuration, ks);
    forall i | 0 <= i < |tab|
      ensures BarIndex(tab[i].startTime, barDuration) in ks
    {
      assert BarIndex(tab[i].startTime, barDuration) in BarKeys(tab, barDuration);
    }
    BarsJoinedPartition(tab, barDuration, ks);
  }

  lemma {:induction false} SparseJoinedIsBarsJoined(tab: seq<TabNote>, barDuration: real, ks: seq<int>)
    requires barDuration != 0.0
    requires forall i :: 0 <= i < |ks| ==> ks[i] in SparseBars(tab, barDuration)
    ensures JoinBars(SparseBars(tab, barDuration), ks) == BarsJoined(tab, barDuration, ks)
  {
    if ks != [] {
      SparseJoinedIsBarsJoined(tab, barDuration, ks[1..]);
    }
  }
}
