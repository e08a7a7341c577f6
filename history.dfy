/**
 * The analysis history kept in local storage (`saveToHistory`): newest entry
 * first, at most `HistoryCap` entries, the oldest evicted from the back.
 */
module History {
  import opened Soil

  /** One saved analysis: the image as a data URL, its result and an ISO time stamp. */
  datatype Entry = Entry(image: string, result: Analysis, time: string)

  /** The list is trimmed once it grows past this length. */
  const HistoryCap: nat := 50

  /**
   * The stored list after one save: `unshift(e)`, then one `pop()` if the
   * list has grown past the cap. The new entry comes first, the old entries
   * follow in their order, and only the last old entry can be lost, and then
   * only when the list was already at or over the cap.
   */
  function AfterSave(h: seq<Entry>, e: Entry): (r: seq<Entry>)
    ensures |r| == if |h| < HistoryCap then |h| + 1 else |h|
    ensures r[0] == e
    ensures r[1..] == h[..|r| - 1]
  {
    var grown := [e] + h;
    if |grown| > HistoryCap then grown[..|grown| - 1] else grown
  }

  /** Below the cap nothing is lost; at or over the cap exactly the oldest entry is dropped. */
  lemma AfterSaveCases(h: seq<Entry>, e: Entry)
    ensures |h| < HistoryCap ==> AfterSave(h, e) == [e] + h
    ensures |h| >= HistoryCap ==> AfterSave(h, e) == [e] + h[..|h| - 1]
  {
    var r := AfterSave(h, e);
    assert r == [r[0]] + r[1..];
  }

  /** A list within the cap stays within it; a list over the cap is not trimmed back to it. */
  lemma AfterSaveBound(h: seq<Entry>, e: Entry)
    ensures |h| <= HistoryCap ==> |AfterSave(h, e)| <= HistoryCap
    ensures |h| > HistoryCap ==> |AfterSave(h, e)| == |h| > HistoryCap
  {
  }

  function Reverse<T>(s: seq<T>): (r: seq<T>)
    ensures |r| == |s|
    ensures forall i :: 0 <= i < |s| ==> r[i] == s[|s| - 1 - i]
  {
    if s == [] then [] else [s[|s| - 1]] + Reverse(s[..|s| - 1])
  }

  /** The stored list after saving each of es in turn, es[0] first. */
  function SaveAll(h: seq<Entry>, es: seq<Entry>): (r: seq<Entry>)
  {
    if es == [] then h else AfterSave(SaveAll(h, es[..|es| - 1]), es[|es| - 1])
  }

  function Min(a: int, b: int): (m: int) { if a <= b then a else b }

  /**
   * Starting from a list within the cap, any run of saves leaves the
   * min(`HistoryCap`, saved + old) most recent entries, newest first: the
   * entries saved, in reverse, followed by what was there before, cut to the cap.
   */
  lemma {:induction false} SaveAllKeepsMostRecent(h: seq<Entry>, es: seq<Entry>)
    requires |h| <= HistoryCap
    ensures SaveAll(h, es) == (Reverse(es) + h)[..Min(HistoryCap, |es| + |h|)]
    ensures |SaveAll(h, es)| <= HistoryCap
  {
    if es != [] {
      var init, last := es[..|es| - 1], es[|es| - 1];
      SaveAllKeepsMostRecent(h, init);
      var prev := SaveAll(h, init);
      var all := Reverse(init) + h;
      assert Reverse(es) + h == [last] + all;
      AfterSaveCases(prev, last);
      if |prev| < HistoryCap {
        assert prev == all;
      } else {
        assert prev[..|prev| - 1] == all[..HistoryCap - 1];
      }
    }
  }

  /** The history as the page keeps it: the parsed contents of the local-storage key. */
  class HistoryStore {
    var entries: seq<Entry>

    /** Nothing stored yet: the key is missing and `'[]'` is parsed. */
    constructor ()
      ensures entries == []
    {
      entries := [];
    }

    /** A list read back from local storage, whatever its length. */
    constructor Restore(stored: seq<Entry>)
      ensures entries == stored
    {
      entries := stored;
    }

    /**
     * `saveToHistory(entry)` when it succeeds: the list is updated in place
     * and nothing else changes. The paths on which the browser throws are
     * not modelled.
     */
    method Save(e: Entry)
      modifies this
      ensures entries == AfterSave(old(entries), e)
      ensures entries[0] == e && entries[1..] == old(entries)[..|entries| - 1]
      ensures |old(entries)| <= HistoryCap ==> |entries| <= HistoryCap
    {
      entries := [e] + entries;
      if |entries| > HistoryCap {
        entries := entries[..|entries| - 1];
      }
    }
  }
}
