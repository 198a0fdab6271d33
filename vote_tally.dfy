/** The vote-count accumulator of the poll listing (app/api/polls/route.ts,
    the `votes.reduce` over the selected `option_id` column). */
module VoteTally {
  import opened Types
  import opened Seqs

  /** The accumulator loop: one pass over the vote rows' option ids,
      bumping `acc[option_id]` from `(acc[option_id] || 0)`. An option id is
      a key exactly when some row names it, and its value is the number of
      rows naming it. */
  method CountVotes(rows: seq<Id>) returns (acc: map<Id, nat>)
    ensures forall o :: o in acc <==> o in rows
    ensures forall o :: o in acc ==> acc[o] == Count(rows, o)
  {
    acc := map[];
    var i := 0;
    while i < |rows|
      invariant 0 <= i <= |rows|
      invariant forall o :: o in acc <==> o in rows[..i]
      invariant forall o :: o in acc ==> acc[o] == Count(rows[..i], o)
    {
      var o := rows[i];
      acc := acc[o := (if o in acc then acc[o] else 0) + 1];
      assert rows[..i + 1] == rows[..i] + [rows[i]];
      forall p
        ensures Count(rows[..i + 1], p) == Count(rows[..i], p) + (if p == o then 1 else 0)
      {
        CountConcat(rows[..i], [rows[i]], p);
      }
      i := i + 1;
    }
    assert rows[..|rows|] == rows;
  }

  /** `allVoteCounts[option.id] || 0`: the count of an option, 0 when the
      accumulator has no entry for it. */
  function VotesOf(acc: map<Id, nat>, o: Id): nat
  {
    if o in acc then acc[o] else 0
  }

  /** The counts of `ids`, summed. */
  function SumCounts(ids: seq<Id>, rows: seq<Id>): nat
  {
    if ids == [] then 0 else Count(rows, ids[0]) + SumCounts(ids[1..], rows)
  }

  lemma {:induction false} SumCountsConcat(a: seq<Id>, b: seq<Id>, rows: seq<Id>)
    ensures SumCounts(a + b, rows) == SumCounts(a, rows) + SumCounts(b, rows)
  {
    if a == [] {
      assert a + b == b;
    } else {
      assert (a + b)[1..] == a[1..] + b;
      SumCountsConcat(a[1..], b, rows);
    }
  }

  lemma {:induction false} SumCountsNoRows(ids: seq<Id>)
    ensures SumCounts(ids, []) == 0
  {
    if ids != [] {
      SumCountsNoRows(ids[1..]);
    }
  }

  /** One more row adds one to the sum exactly when its id is among `ids`
      (which holds no id twice). */
  lemma {:induction false} SumCountsAddRow(ids: seq<Id>, rows: seq<Id>, x: Id)
    requires Distinct(ids)
    ensures SumCounts(ids, rows + [x]) == SumCounts(ids, rows) + (if x in ids then 1 else 0)
  {
    if ids != [] {
      CountConcat(rows, [x], ids[0]);
      assert Count([x], ids[0]) == if x == ids[0] then 1 else 0;
      assert Distinct(ids[1..]);
      assert x in ids <==> x == ids[0] || x in ids[1..];
      if x == ids[0] {
        assert x !in ids[1..];
      }
      SumCountsAddRow(ids[1..], rows, x);
    }
  }

  /** No vote lost, none counted twice: when every row names one of the
      (distinct) ids, the counts of the ids add up to the number of rows. */
  lemma {:induction false} SumCountsIsRowCount(ids: seq<Id>, rows: seq<Id>)
    requires Distinct(ids)
    requires forall k :: 0 <= k < |rows| ==> rows[k] in ids
    ensures SumCounts(ids, rows) == |rows|
  {
    if rows == [] {
      SumCountsNoRows(ids);
    } else {
      var n := |rows| - 1;
      assert rows == rows[..n] + [rows[n]];
      SumCountsIsRowCount(ids, rows[..n]);
      SumCountsAddRow(ids, rows[..n], rows[n]);
    }
  }

  /** Restricting the rows to a filter that keeps every id in `ids` leaves
      their sum unchanged. */
  lemma {:induction false} SumCountsFilter(ids: seq<Id>, rows: seq<Id>, keep: Id -> bool)
    requires forall k :: 0 <= k < |ids| ==> keep(ids[k])
    ensures SumCounts(ids, Filter(rows, keep)) == SumCounts(ids, rows)
  {
    if ids != [] {
      CountFilter(rows, keep, ids[0]);
      SumCountsFilter(ids[1..], rows, keep);
    }
  }
}
