/** What the poll cards show for a listing the GET handler produced: each
    card's total (`totalVotes`) is the number of vote rows naming one of that
    poll's options, and the totals of all cards together are the number of
    vote rows the handler's vote query returned, so no vote is lost or
    counted twice on the way from the votes table to the screen. */
module ListingTally {
  import opened Types
  import opened Seqs
  import opened VoteTally
  import opened PollsApi
  import opened PollCard

  /** The card totals of a listing, added up. */
  function ListingTotal(ps: seq<Poll>): int
  {
    if ps == [] then 0 else TotalVotes(ps[0].options) + ListingTotal(ps[1..])
  }

  /** Options whose counts are the vote rows naming them total the summed
      counts of their ids. */
  lemma {:induction false} OptionsTotal(xs: seq<PollOption>, os: seq<OptionRow>, rows: seq<Id>)
    requires |xs| == |os|
    requires forall j :: 0 <= j < |os| ==> xs[j].votes == Count(rows, os[j].id)
    ensures TotalVotes(xs) == SumCounts(OptionIds(os), rows)
  {
    if xs == [] {
      assert OptionIds(os) == [];
    } else {
      var n := |xs| - 1;
      OptionsTotal(xs[..n], os[..n], rows);
      assert os == os[..n] + [os[n]];
      ProjectConcat(os[..n], [os[n]], OptionKey);
      SumCountsConcat(OptionIds(os[..n]), OptionIds([os[n]]), rows);
      assert OptionIds([os[n]]) == [os[n].id];
      assert SumCounts([os[n].id], rows) == Count(rows, os[n].id);
    }
  }

  /** The counts of distinct ids, taken over all vote rows, add up to the
      number of rows the vote query for those ids returns. */
  lemma QueriedVotesCount(ids: seq<Id>, vs: seq<VoteRow>)
    requires Distinct(ids)
    ensures SumCounts(ids, VoteOptionIds(vs)) == |QueriedVotes(vs, ids)|
  {
    var q := QueriedVotes(vs, ids);
    forall k | 0 <= k < |ids|
      ensures InIds(ids)(ids[k])
    {
    }
    SumCountsFilter(ids, VoteOptionIds(vs), InIds(ids));
    forall k | 0 <= k < |q|
      ensures q[k] in ids
    {
      assert q[k] in q;
    }
    SumCountsIsRowCount(ids, q);
  }

  /** A listed poll's card total is the number of vote rows naming one of
      its options. */
  lemma PollTotalIsItsVoteRows(p: Poll, row: PollRow, os: seq<OptionRow>, vs: seq<VoteRow>)
    requires Distinct(OptionIds(os))
    requires Lists(p, row, os, vs, false)
    ensures TotalVotes(p.options) == |QueriedVotes(vs, OptionIds(os))|
  {
    var ids := OptionIds(os);
    OptionsTotal(p.options, os, VoteOptionIds(vs));
    QueriedVotesCount(ids, vs);
  }

  /** When the vote query failed every card shows 0 votes. */
  lemma FailedVoteQueryShowsZero(p: Poll, row: PollRow, os: seq<OptionRow>, vs: seq<VoteRow>)
    requires Lists(p, row, os, vs, true)
    ensures TotalVotes(p.options) == 0
  {
    OptionsTotal(p.options, os, []);
    SumCountsNoRows(OptionIds(os));
  }

  lemma {:induction false} ListingSum(listed: seq<Poll>, ps: seq<PollRow>, os: seq<OptionRow>, vs: seq<VoteRow>)
    requires |listed| == |ps|
    requires forall i :: 0 <= i < |ps| ==> Lists(listed[i], ps[i], OptionsOf(os, ps[i].id), vs, false)
    ensures ListingTotal(listed) == SumCounts(AllOptionIds(ps, os), VoteOptionIds(vs))
  {
    if ps != [] {
      OptionsTotal(listed[0].options, OptionsOf(os, ps[0].id), VoteOptionIds(vs));
      assert forall i :: 0 <= i < |ps[1..]| ==> listed[1..][i] == listed[i + 1] && ps[1..][i] == ps[i + 1];
      ListingSum(listed[1..], ps[1..], os, vs);
      SumCountsConcat(OptionIds(OptionsOf(os, ps[0].id)), AllOptionIds(ps[1..], os), VoteOptionIds(vs));
    }
  }

  /** No vote lost or counted twice: over a listing of a store whose poll
      ids and option ids are unique, the card totals add up to the number of
      vote rows the vote query returned. */
  lemma ListedVotesAddUp(listed: seq<Poll>, ps: seq<PollRow>, os: seq<OptionRow>, vs: seq<VoteRow>)
    requires Distinct(PollIds(ps)) && Distinct(OptionIds(os))
    requires |listed| == |ps|
    requires forall i :: 0 <= i < |ps| ==> Lists(listed[i], ps[i], OptionsOf(os, ps[i].id), vs, false)
    ensures ListingTotal(listed) == |QueriedVotes(vs, AllOptionIds(ps, os))|
  {
    ListingSum(listed, ps, os, vs);
    AllOptionIdsDistinct(ps, os);
    QueriedVotesCount(AllOptionIds(ps, os), vs);
  }
}
