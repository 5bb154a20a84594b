/**
 * The banknote counters that both dashboards build by tapping "+v" buttons: a map
 * from note value to count, where a missing key reads as 0 (`counts[v] || 0`), and
 * the value the counters stand for.
 */
module Denominations {

  /** The note values offered, in button order (`ALLOWED_AMOUNTS`, and the admin's literal list). */
  const Notes: seq<int> := [50, 100, 200, 500]

  predicate IsNote(v: int) { v in Notes }

  /** `counts[v] || 0` */
  function Count(counts: map<int, nat>, v: int): nat
  {
    if v in counts then counts[v] else 0
  }

  /** The functional update of one tap: `{...prev, [v]: (prev[v] || 0) + 1}`. */
  function AddNote(counts: map<int, nat>, v: int): (r: map<int, nat>)
    ensures r.Keys == counts.Keys + {v}
    ensures Count(r, v) == Count(counts, v) + 1
    ensures forall d :: d != v ==> Count(r, d) == Count(counts, d)
  {
    counts[v := Count(counts, v) + 1]
  }

  /** Sum of `d * Count(counts, d)` over the values `ds`. */
  function SumOver(ds: seq<int>, counts: map<int, nat>): int
  {
    if ds == [] then 0 else ds[0] * Count(counts, ds[0]) + SumOver(ds[1..], counts)
  }

  /** The amount the counters stand for: the sum of v * count[v] over the notes. */
  function Total(counts: map<int, nat>): int
  {
    SumOver(Notes, counts)
  }

  /** Every key is one of the offered notes. */
  predicate OnlyNotes(counts: map<int, nat>)
  {
    counts.Keys <= set d | d in Notes
  }

  /** A deposit request: a positive amount that the note counts add up to. */
  predicate ConsistentRequest(amount: int, denominations: map<int, nat>)
  {
    amount > 0 && OnlyNotes(denominations) && Total(denominations) == amount
  }

  predicate Distinct(ds: seq<int>)
  {
    forall i, j :: 0 <= i < j < |ds| ==> ds[i] != ds[j]
  }

  lemma {:induction false} SumOverAddNote(ds: seq<int>, counts: map<int, nat>, v: int)
    requires Distinct(ds)
    ensures SumOver(ds, AddNote(counts, v)) == SumOver(ds, counts) + (if v in ds then v else 0)
  {
    if ds != [] {
      var rest := ds[1..];
      assert Distinct(rest) by {
        forall i, j | 0 <= i < j < |rest| ensures rest[i] != rest[j] {
          assert rest[i] == ds[i + 1] && rest[j] == ds[j + 1];
        }
      }
      SumOverAddNote(rest, counts, v);
      if ds[0] == v {
        assert v !in rest by {
          forall k | 0 <= k < |rest| ensures rest[k] != v {
            assert rest[k] == ds[k + 1];
          }
        }
      } else {
        assert (v in ds) == (v in rest) by {
          assert ds == [ds[0]] + rest;
        }
      }
    }
  }

  /** One tap of an offered note v adds exactly v to the total. */
  lemma TotalAddNote(counts: map<int, nat>, v: int)
    requires IsNote(v)
    ensures Total(AddNote(counts, v)) == Total(counts) + v
  {
    assert Distinct(Notes);
    SumOverAddNote(Notes, counts, v);
  }

  lemma {:induction false} SumOverEmpty(ds: seq<int>)
    ensures SumOver(ds, map[]) == 0
  {
    if ds != [] {
      SumOverEmpty(ds[1..]);
    }
  }

  /** Cleared counters stand for 0. */
  lemma TotalEmpty()
    ensures Total(map[]) == 0
  {
    SumOverEmpty(Notes);
  }

  lemma {:induction false} SumOverZeroIff(ds: seq<int>, counts: map<int, nat>)
    requires forall k :: 0 <= k < |ds| ==> ds[k] > 0
    ensures SumOver(ds, counts) >= 0
    ensures SumOver(ds, counts) == 0 <==> forall k :: 0 <= k < |ds| ==> Count(counts, ds[k]) == 0
  {
    if ds != [] {
      var rest := ds[1..];
      SumOverZeroIff(rest, counts);
      var c := Count(counts, ds[0]);
      assert ds[0] * c >= 0 && (ds[0] * c == 0 <==> c == 0) by {
        if c > 0 {
          assert ds[0] * c >= ds[0] * 1;
        }
      }
      assert forall k :: 1 <= k < |ds| ==> ds[k] == rest[k - 1];
    }
  }

  /**
   * The total is never negative, and it is positive exactly when some offered note
   * has a positive count: a deposit amount of 0 means no note was tapped.
   */
  lemma TotalPositiveIff(counts: map<int, nat>)
    requires OnlyNotes(counts)
    ensures Total(counts) >= 0
    ensures Total(counts) > 0 <==> exists d :: d in counts && counts[d] > 0
  {
    SumOverZeroIff(Notes, counts);
    if exists d :: d in counts && counts[d] > 0 {
      var d :| d in counts && counts[d] > 0;
      assert d in Notes;
      var k :| 0 <= k < |Notes| && Notes[k] == d;
      assert Count(counts, Notes[k]) > 0;
    }
  }

  /** The counters after tapping the notes `taps` in order, starting from `{}`. */
  function TapAll(taps: seq<int>): map<int, nat>
  {
    if taps == [] then map[] else AddNote(TapAll(taps[..|taps| - 1]), taps[|taps| - 1])
  }

  function SeqSum(taps: seq<int>): int
  {
    if taps == [] then 0 else SeqSum(taps[..|taps| - 1]) + taps[|taps| - 1]
  }

  /** The counters record exactly the multiset of the notes tapped. */
  lemma {:induction false} TapAllCounts(taps: seq<int>)
    ensures forall d :: Count(TapAll(taps), d) == multiset(taps)[d]
    ensures TapAll(taps).Keys == set d | d in taps
  {
    if taps != [] {
      var init, last := taps[..|taps| - 1], taps[|taps| - 1];
      TapAllCounts(init);
      assert taps == init + [last];
      assert multiset(taps) == multiset(init) + multiset{last};
    }
  }

  /** The total of the counters is the sum of the notes tapped, and only offered notes appear. */
  lemma {:induction false} TapAllTotal(taps: seq<int>)
    requires forall k :: 0 <= k < |taps| ==> IsNote(taps[k])
    ensures OnlyNotes(TapAll(taps))
    ensures Total(TapAll(taps)) == SeqSum(taps)
  {
    if taps == [] {
      TotalEmpty();
    } else {
      var init, last := taps[..|taps| - 1], taps[|taps| - 1];
      TapAllTotal(init);
      TotalAddNote(TapAll(init), last);
    }
  }
}
