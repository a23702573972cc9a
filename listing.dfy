/**
 * The order in which display_midi_info.py lists a grouped tabulature (display_midi_info.py:83-85):
 * bar numbers ascending, and within a bar the notes by onset, as Python's stable sort leaves them.
 */
module Listing {
  import opened Notes
  import opened Grouping

  lemma {:induction false} SmallestExists(keys: set<int>)
    requires keys != {}
    ensures exists m :: m in keys && forall y :: y in keys ==> m <= y
    decreases |keys|
  {
    if forall y :: y !in keys {
      assert false;
    }
    var x :| x in keys;
    var rest := keys - {x};
    assert forall y :: y in keys ==> y == x || y in rest;
    if rest == {} {
      assert forall y :: y in keys ==> x <= y;
    } else {
      SmallestExists(rest);
      var m :| m in rest && forall y :: y in rest ==> m <= y;
      var best := if x < m then x else m;
      assert best in keys && forall y :: y in keys ==> best <= y;
    }
  }

  /** The smallest bar number of a non-empty set. */
  function SmallestKey(keys: set<int>): (m: int)
    requires keys != {}
    ensures m in keys && forall x :: x in keys ==> m <= x
  {
    SmallestExists(keys);
    var m :| m in keys && forall x :: x in keys ==> m <= x;
    m
  }

  /** sorted(bars.keys()): the bar numbers, each once, in ascending order. */
  function SortedKeys(keys: set<int>): (r: seq<int>)
    ensures |r| == |keys|
    ensures forall k :: k in r <==> k in keys
    ensures forall i, j :: 0 <= i < j < |r| ==> r[i] < r[j]
    decreases |keys|
  {
    if keys == {} then []
    else
      var m := SmallestKey(keys);
      var rest := SortedKeys(keys - {m});
      SmallestFirst(keys, m, rest);
      [m] + rest
  }

  /** Putting the smallest key before the sorted others sorts them all. */
  lemma SmallestFirst(keys: set<int>, m: int, rest: seq<int>)
    requires m in keys && forall x :: x in keys ==> m <= x
    requires |rest| == |keys - {m}| && forall k :: k in rest <==> k in keys - {m}
    requires forall i, j :: 0 <= i < j < |rest| ==> rest[i] < rest[j]
    ensures |[m] + rest| == |keys|
    ensures forall k :: k in [m] + rest <==> k in keys
    ensures forall i, j :: 0 <= i < j < |[m] + rest| ==> ([m] + rest)[i] < ([m] + rest)[j]
  {
    var r := [m] + rest;
    forall i, j | 0 <= i < j < |r|
      ensures r[i] < r[j]
    {
      assert r[j] == rest[j - 1] && r[j] in keys - {m};
      if i > 0 {
        assert r[i] == rest[i - 1];
      }
    }
  }

  predicate SortedByStart(s: seq<TabNote>) {
    forall i, j :: 0 <= i < j < |s| ==> s[i].startTime <= s[j].startTime
  }

  /** Insert x into the sorted s ahead of the first note that does not start earlier. */
  function InsertByStart(x: TabNote, s: seq<TabNote>): (r: seq<TabNote>)
    requires SortedByStart(s)
    ensures SortedByStart(r)
    ensures multiset(r) == multiset(s) + multiset{x}
  {
    if s == [] || x.startTime <= s[0].startTime then
      assert SortedByStart([x] + s) by {
        forall i, j | 0 <= i < j < |s| + 1
          ensures ([x] + s)[i].startTime <= ([x] + s)[j].startTime
        {
          if i > 0 {
            assert ([x] + s)[i] == s[i - 1];
          }
        }
      }
      [x] + s
    else
      var rest := InsertByStart(x, s[1..]);
      PrependSorted(s[0], rest, s[1..], x);
      assert [s[0]] + s[1..] == s;
      [s[0]] + rest
  }

  /** Prepending a note no later than any note of a sorted permutation of s + [x] keeps it sorted. */
  lemma PrependSorted(y: TabNote, rest: seq<TabNote>, s: seq<TabNote>, x: TabNote)
    requires SortedByStart(rest) && multiset(rest) == multiset(s) + multiset{x}
    requires y.startTime <= x.startTime
    requires forall i :: 0 <= i < |s| ==> y.startTime <= s[i].startTime
    ensures SortedByStart([y] + rest)
    ensures multiset([y] + rest) == multiset([y] + s) + multiset{x}
  {
    forall j | 0 <= j < |rest|
      ensures y.startTime <= rest[j].startTime
    {
      assert rest[j] in multiset(rest);
      assert rest[j] == x || rest[j] in multiset(s);
    }
    forall i, j | 0 <= i < j < |rest| + 1
      ensures ([y] + rest)[i].startTime <= ([y] + rest)[j].startTime
    {
      assert ([y] + rest)[j] == rest[j - 1];
      if i > 0 {
        assert ([y] + rest)[i] == rest[i - 1];
      }
    }
  }

  /** sorted(notes, key=start_time): the notes ordered by onset, a permutation of the input. */
  function SortByStart(s: seq<TabNote>): (r: seq<TabNote>)
    ensures SortedByStart(r)
    ensures multiset(r) == multiset(s)
  {
    if s == [] then []
    else
      assert s == [s[0]] + s[1..];
      InsertByStart(s[0], SortByStart(s[1..]))
  }

  /** The notes of s that start at time t, in the order s lists them. */
  function StartingAt(s: seq<TabNote>, t: real): seq<TabNote> {
    if s == [] then []
    else (if s[0].startTime == t then [s[0]] else []) + StartingAt(s[1..], t)
  }

  lemma StartingAtCons(y: TabNote, s: seq<TabNote>, t: real)
    ensures StartingAt([y] + s, t) == (if y.startTime == t then [y] else []) + StartingAt(s, t)
  {
    assert ([y] + s)[1..] == s;
  }

  lemma {:induction false} InsertByStartStable(x: TabNote, s: seq<TabNote>, t: real)
    requires SortedByStart(s)
    ensures StartingAt(InsertByStart(x, s), t) == (if x.startTime == t then [x] else []) + StartingAt(s, t)
  {
    if s == [] || x.startTime <= s[0].startTime {
      StartingAtCons(x, s, t);
    } else {
      var rest := InsertByStart(x, s[1..]);
      var tail := StartingAt(s[1..], t);
      assert InsertByStart(x, s) == [s[0]] + rest;
      InsertByStartStable(x, s[1..], t);
      StartingAtCons(s[0], rest, t);
      StartingAtCons(s[0], s[1..], t);
      assert [s[0]] + s[1..] == s;
      if x.startTime == t {
        assert StartingAt(rest, t) == [x] + tail;
        assert StartingAt(s, t) == tail;
      } else {
        assert StartingAt(rest, t) == tail;
      }
    }
  }

  /** The sort is stable: notes with the same onset keep their input order. */
  lemma {:induction false} SortByStartStable(s: seq<TabNote>, t: real)
    ensures StartingAt(SortByStart(s), t) == StartingAt(s, t)
  {
    if s != [] {
      SortByStartStable(s[1..], t);
      InsertByStartStable(s[0], SortByStart(s[1..]), t);
    }
  }

  /** One printed bar: its number and its notes in the order they are printed. */
  datatype BarListing = BarListing(barNumber: int, notes: seq<TabNote>)

  /**
   * Entry e shows bar e.barNumber of bars: all of its notes, each as often as the bar holds it,
   * ordered by onset, and notes with equal onsets in the bar's own order.
   */
  ghost predicate ShowsBar(e: BarListing, bars: map<int, seq<TabNote>>) {
    && e.barNumber in bars
    && SortedByStart(e.notes)
    && multiset(e.notes) == multiset(bars[e.barNumber])
    && forall t :: StartingAt(e.notes, t) == StartingAt(bars[e.barNumber], t)
  }

  lemma SortedBarShown(k: int, bars: map<int, seq<TabNote>>)
    requires k in bars
    ensures ShowsBar(BarListing(k, SortByStart(bars[k])), bars)
  {
    forall t {
      SortByStartStable(bars[k], t);
    }
  }

  /** The listing entries for the bar numbers keys, in that order. */
  function ListingOf(keys: seq<int>, bars: map<int, seq<TabNote>>): (r: seq<BarListing>)
    requires forall k :: k in keys ==> k in bars
    ensures |r| == |keys|
    ensures forall i :: 0 <= i < |r| ==> r[i].barNumber == keys[i] && ShowsBar(r[i], bars)
  {
    if keys == [] then []
    else
      SortedBarShown(keys[0], bars);
      [BarListing(keys[0], SortByStart(bars[keys[0]]))] + ListingOf(keys[1..], bars)
  }

  lemma ListingOfFacts(keys: seq<int>, bars: map<int, seq<TabNote>>)
    requires forall k :: k in keys <==> k in bars
    requires forall i, j :: 0 <= i < j < |keys| ==> keys[i] < keys[j]
    ensures forall i, j :: 0 <= i < j < |ListingOf(keys, bars)| ==> ListingOf(keys, bars)[i].barNumber < ListingOf(keys, bars)[j].barNumber
    ensures forall k :: k in bars <==> exists i :: 0 <= i < |ListingOf(keys, bars)| && ListingOf(keys, bars)[i].barNumber == k
  {
    var r := ListingOf(keys, bars);
    forall k | k in bars
      ensures exists i :: 0 <= i < |r| && r[i].barNumber == k
    {
      var i :| 0 <= i < |keys| && keys[i] == k;
      assert r[i].barNumber == k;
    }
  }

  /**
   * The listing of a grouped tabulature: one entry per bar, bar numbers ascending, each bar's
   * notes sorted by onset.
   */
  function ListingOrder(bars: map<int, seq<TabNote>>): (r: seq<BarListing>)
    ensures |r| == |bars.Keys|
    ensures forall i, j :: 0 <= i < j < |r| ==> r[i].barNumber < r[j].barNumber
    ensures forall k :: k in bars <==> exists i :: 0 <= i < |r| && r[i].barNumber == k
    ensures forall i :: 0 <= i < |r| ==> ShowsBar(r[i], bars)
  {
    var keys := SortedKeys(bars.Keys);
    ListingOfFacts(keys, bars);
    ListingOf(keys, bars)
  }

  /** Every listed note is a note of the bar its entry is numbered with. */
  lemma ListingOrderSound(bars: map<int, seq<TabNote>>)
    ensures forall j, t :: 0 <= j < |ListingOrder(bars)| && t in ListingOrder(bars)[j].notes ==>
      ListingOrder(bars)[j].barNumber in bars && t in bars[ListingOrder(bars)[j].barNumber]
  {
    var r := ListingOrder(bars);
    forall j, t | 0 <= j < |r| && t in r[j].notes
      ensures r[j].barNumber in bars && t in bars[r[j].barNumber]
    {
      assert ShowsBar(r[j], bars);
      assert t in multiset(r[j].notes);
    }
  }

  /** The notes of a listing, entry after entry, in the order they are printed. */
  function ListedNotes(listing: seq<BarListing>): seq<TabNote> {
    if listing == [] then [] else listing[0].notes + ListedNotes(listing[1..])
  }

  /** Listing bars keys shows, counted with repetition, exactly the notes of those bars. */
  lemma {:induction false} ListingOfNotes(keys: seq<int>, bars: map<int, seq<TabNote>>)
    requires forall k :: k in keys ==> k in bars
    ensures multiset(ListedNotes(ListingOf(keys, bars))) == multiset(JoinBars(bars, keys))
  {
    if keys != [] {
      ListingOfNotes(keys[1..], bars);
      var r := ListingOf(keys, bars);
      assert r[1..] == ListingOf(keys[1..], bars);
    }
  }

  /** The listing shows every note of every bar exactly once: bar by bar, as the keys ascend. */
  lemma ListingOrderNotes(bars: map<int, seq<TabNote>>)
    ensures multiset(ListedNotes(ListingOrder(bars))) == multiset(JoinBars(bars, SortedKeys(bars.Keys)))
  {
    ListingOfNotes(SortedKeys(bars.Keys), bars);
  }
}
