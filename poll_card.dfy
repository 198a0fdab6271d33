/** The voting card of one poll (components/polls/poll-card.tsx): whether
    the poll can be voted on, its vote total and per-option percentages,
    the ballot selection kept in the card's state, and when the Vote button
    is enabled. */
module PollCard {
  import opened Types
  import opened Seqs

  // ------------------------------------------------------- votability

  /** `canVote`: active, and not past its expiry instant. The comparison is
      strict, so voting is still open at exactly `expiresAt`. */
  predicate CanVote(p: Poll, now: Timestamp)
  {
    p.isActive && !(p.expiresAt.Some? && p.expiresAt.value < now)
  }

  /** `isExpired`: an expiry instant is set and lies before `now`. */
  predicate IsExpired(p: Poll, now: Timestamp)
  {
    p.expiresAt.Some? && p.expiresAt.value < now
  }

  /** The card's two expiry tests agree: it can be voted on exactly when it
      is active and not expired. */
  lemma CanVoteIsActiveAndNotExpired(p: Poll, now: Timestamp)
    ensures CanVote(p, now) <==> p.isActive && !IsExpired(p, now)
  {
  }

  /** The votability test stated the other way round: active, and either no
      expiry or `now` no later than it. At the expiry instant itself the
      poll is still open; one millisecond later it is not. */
  lemma CanVoteUntilExpiry(p: Poll, now: Timestamp)
    ensures CanVote(p, now) <==> p.isActive && (p.expiresAt.None? || now <= p.expiresAt.value)
    ensures p.expiresAt.Some? ==> (CanVote(p, p.expiresAt.value) <==> p.isActive)
    ensures p.expiresAt.Some? ==> !CanVote(p, p.expiresAt.value + 1)
  {
  }

  /** Once expired, a poll stays expired as the clock moves on. */
  lemma ExpiryIsPermanent(p: Poll, now: Timestamp, later: Timestamp)
    requires now <= later && IsExpired(p, now)
    ensures IsExpired(p, later) && !CanVote(p, later)
  {
  }

  // ------------------------------------------------- totals, percentages

  /** `options.reduce((sum, option) => sum + option.votes, 0)`, folded from
      the left. */
  function TotalVotes(os: seq<PollOption>): (r: int)
    ensures (forall j :: 0 <= j < |os| ==> os[j].votes >= 0) ==>
              r >= 0 && forall j :: 0 <= j < |os| ==> os[j].votes <= r
  {
    if os == [] then 0 else TotalVotes(os[..|os| - 1]) + os[|os| - 1].votes
  }

  /** The width of an option's bar: `totalVotes > 0 ? votes / totalVotes *
      100 : 0`. There is no division when the total is 0; a count between 0
      and the total gives a value between 0 and 100. */
  function Percentage(votes: int, total: int): (r: real)
    ensures total <= 0 ==> r == 0.0
    ensures 0 < total && 0 <= votes <= total ==> 0.0 <= r <= 100.0
    ensures 0 < total && votes == total ==> r == 100.0
  {
    if total > 0 then (votes as real / total as real) * 100.0 else 0.0
  }

  /** The percentages of all options against a common total, added up. */
  function SumPercentages(os: seq<PollOption>, total: int): real
  {
    if os == [] then 0.0
    else SumPercentages(os[..|os| - 1], total) + Percentage(os[|os| - 1].votes, total)
  }

  lemma {:induction false} SumPercentagesScales(os: seq<PollOption>, total: int)
    requires total > 0
    ensures SumPercentages(os, total) == (TotalVotes(os) as real / total as real) * 100.0
  {
    if os != [] {
      var n := |os| - 1;
      SumPercentagesScales(os[..n], total);
      AddShares(TotalVotes(os[..n]) as real, os[n].votes as real, total as real);
    }
  }

  lemma AddShares(a: real, v: real, t: real)
    requires t > 0.0
    ensures (a / t) * 100.0 + (v / t) * 100.0 == ((a + v) / t) * 100.0
  {
    assert a / t + v / t == (a + v) / t;
  }

  /** When any vote has been cast, the bars of a poll add up to 100%. */
  lemma PercentagesSumTo100(os: seq<PollOption>)
    requires TotalVotes(os) > 0
    ensures SumPercentages(os, TotalVotes(os)) == 100.0
  {
    SumPercentagesScales(os, TotalVotes(os));
    WholeShare(TotalVotes(os) as real);
  }

  lemma WholeShare(t: real)
    requires t > 0.0
    ensures (t / t) * 100.0 == 100.0
  {
  }

  /** With non-negative counts every bar lies between 0% and 100%. */
  lemma PercentageBounded(os: seq<PollOption>, j: nat)
    requires forall k :: 0 <= k < |os| ==> os[k].votes >= 0
    requires j < |os|
    ensures 0.0 <= Percentage(os[j].votes, TotalVotes(os)) <= 100.0
  {
  }

  // ------------------------------------------------ ballot selection

  function Not(id: Id): Id -> bool
  {
    (x: Id) => x != id
  }

  /** `prev.filter(id => id !== option.id)`. */
  function Without(s: seq<Id>, id: Id): seq<Id>
  {
    Filter(s, Not(id))
  }

  /** Unchecking removes every occurrence of the id and keeps every
      occurrence of every other id, in the same relative order. */
  lemma WithoutRemovesOnlyThatId(s: seq<Id>, id: Id, other: Id)
    requires other != id
    ensures Count(Without(s, id), id) == 0
    ensures Count(Without(s, id), other) == Count(s, other)
  {
    CountFilter(s, Not(id), id);
    CountFilter(s, Not(id), other);
  }

  lemma WithoutKeepsOrder(a: seq<Id>, b: seq<Id>, id: Id)
    ensures Without(a + b, id) == Without(a, id) + Without(b, id)
  {
    FilterConcat(a, b, Not(id));
  }

  lemma WithoutAbsent(s: seq<Id>, id: Id)
    requires id !in s
    ensures Without(s, id) == s
  {
    FilterAll(s, Not(id));
  }

  /** Whether the input of option `id` shows as checked:
      `selectedOptions.includes(id)` for checkboxes,
      `selectedOptions[0] === id` for radio buttons. */
  predicate ShowsChecked(selected: seq<Id>, id: Id, allowMultipleVotes: bool)
  {
    if allowMultipleVotes then id in selected else |selected| > 0 && selected[0] == id
  }

  /** The submit button's `disabled`: `!canVote || voteLoading ||
      selectedOptions.length === 0`. */
  predicate SubmitDisabled(canVote: bool, voteLoading: bool, selected: seq<Id>)
  {
    !canVote || voteLoading || |selected| == 0
  }

  /** The button is enabled exactly when the poll can be voted on, no vote
      is in flight and something is selected; right after a pick it is
      enabled whenever voting is open and idle. */
  lemma SubmitEnabledAfterPick(canVote: bool, voteLoading: bool, s: seq<Id>, id: Id)
    ensures !SubmitDisabled(canVote, voteLoading, s) <==> canVote && !voteLoading && s != []
    ensures !SubmitDisabled(canVote, voteLoading, [id]) <==> canVote && !voteLoading
    ensures !SubmitDisabled(canVote, voteLoading, s + [id]) <==> canVote && !voteLoading
  {
  }

  /** The React state of one card that the vote form reads. */
  class CardState {
    var selectedOptions: seq<Id>
    var voteLoading: bool

    constructor ()
      ensures selectedOptions == [] && !voteLoading
    {
      selectedOptions := [];
      voteLoading := false;
    }

    /** The `onChange` of option `id`'s input; `checked` is the input's new
        state. A radio (single-choice) replaces the selection; a checkbox
        appends on check and drops every occurrence on uncheck. */
    method OnOptionChange(id: Id, checked: bool, allowMultipleVotes: bool)
      modifies this
      ensures voteLoading == old(voteLoading)
      ensures !allowMultipleVotes ==> selectedOptions == [id]
      ensures allowMultipleVotes && checked ==> selectedOptions == old(selectedOptions) + [id]
      ensures allowMultipleVotes && !checked ==> selectedOptions == Without(old(selectedOptions), id)
      ensures !allowMultipleVotes ==>
                forall other :: ShowsChecked(selectedOptions, other, false) <==> other == id
      ensures allowMultipleVotes ==>
                && (ShowsChecked(selectedOptions, id, true) <==> checked)
                && forall other :: other != id ==>
                     (ShowsChecked(selectedOptions, other, true) <==> ShowsChecked(old(selectedOptions), other, true))
      ensures allowMultipleVotes && Distinct(old(selectedOptions)) && (checked ==> id !in old(selectedOptions)) ==>
                Distinct(selectedOptions)
      ensures (!allowMultipleVotes || checked) ==>
                forall canVote :: VoteDisabled(canVote) <==> !canVote || voteLoading
      ensures allowMultipleVotes && !checked && (forall x :: x in old(selectedOptions) ==> x == id) ==>
                forall canVote :: VoteDisabled(canVote)
    {
      if allowMultipleVotes {
        if checked {
          selectedOptions := selectedOptions + [id];
          assert selectedOptions[|selectedOptions| - 1] == id;
        } else {
          if Distinct(selectedOptions) {
            DistinctProjectFilterIds(selectedOptions, Not(id));
          }
          ghost var kept := Without(selectedOptions, id);
          assert kept == [] || kept[0] in kept;
          selectedOptions := Without(selectedOptions, id);
        }
      } else {
        selectedOptions := [id];
      }
    }

    /** Whether the Vote button is disabled, given the card's `canVote`. */
    function VoteDisabled(canVote: bool): bool
      reads this
    {
      SubmitDisabled(canVote, voteLoading, selectedOptions)
    }
  }

  /** Filtering keeps a duplicate-free selection duplicate-free. */
  lemma DistinctProjectFilterIds(s: seq<Id>, keep: Id -> bool)
    requires Distinct(s)
    ensures Distinct(Filter(s, keep))
  {
    var id := (x: Id) => x;
    assert Project(s, id) == s;
    DistinctProjectFilter(s, id, keep);
    assert Project(Filter(s, keep), id) == Filter(s, keep);
  }
}
