/** The poll collection endpoint (app/api/polls/route.ts): DELETE removes
    polls together with their options, GET lists every poll with per-option
    vote counts, POST creates a poll and its options.

    The database is a `Store` object holding the three tables as sequences
    of rows. Each database call the route makes may fail; whether it does is
    a parameter of the method (`...Fails`), so every outcome is covered. */
module PollsApi {
  import opened Types
  import opened Seqs
  import opened VoteTally

  /** A row of the `polls` table. */
  datatype PollRow = PollRow(
    id: Id,
    title: string,
    description: Option<string>,
    userId: Option<string>,
    userName: Option<string>,
    allowMultipleVotes: bool,
    requireLogin: bool,
    expiresAt: Option<Timestamp>,
    isActive: bool,
    createdAt: Timestamp,
    updatedAt: Timestamp)

  /** A row of the `options` table; `pollId` is its owning poll. */
  datatype OptionRow = OptionRow(id: Id, pollId: Id, text: string)

  /** A row of the `votes` table. */
  datatype VoteRow = VoteRow(pollId: Id, optionId: Id, userId: Option<string>)

  /** A JSON value of a request body; a missing field is `Undefined`. */
  datatype Json = Undefined | Null | Bool(b: bool) | Number(n: real) | Str(s: string) | Array(items: seq<Json>) | Object

  /** JavaScript truthiness, which `!!x` turns into a boolean. */
  predicate Truthy(v: Json)
  {
    match v
    case Undefined => false
    case Null => false
    case Bool(b) => b
    case Number(n) => n != 0.0
    case Str(s) => s != ""
    case Array(_) => true
    case Object => true
  }

  /** The body of a POST. `options` is `None` when the field is missing or
      not an array; an empty `title` is the falsy one. */
  datatype CreateRequest = CreateRequest(
    title: string,
    description: Option<string>,
    options: Option<seq<string>>,
    allowMultipleVotes: Json,
    requireLogin: Json,
    expiresAt: Option<Timestamp>,
    userId: Option<string>,
    userName: Option<string>)

  /** The error responses of the three handlers. */
  datatype ApiError =
    | NoPollIds            // DELETE: "No poll IDs provided."
    | DeleteOptionsFailed  // DELETE: "Failed to delete poll options."
    | DeletePollsFailed    // DELETE: "Failed to delete polls."
    | FetchPollsFailed     // GET: "Failed to fetch polls"
    | InvalidPollData      // POST: "Invalid poll data"
    | CreatePollFailed     // POST: "Failed to create poll"
    | CreateOptionsFailed  // POST: "Failed to create poll options"

  datatype Response<T> = Ok(data: T) | Fail(error: ApiError)

  function PollKey(p: PollRow): Id { p.id }
  function OptionKey(o: OptionRow): Id { o.id }
  function VoteOption(v: VoteRow): Id { v.optionId }

  function PollIds(ps: seq<PollRow>): seq<Id> { Project(ps, PollKey) }
  function OptionIds(os: seq<OptionRow>): seq<Id> { Project(os, OptionKey) }

  /** The `option_id` column of the votes table, in row order. */
  function VoteOptionIds(vs: seq<VoteRow>): seq<Id> { Project(vs, VoteOption) }

  ghost predicate HasPoll(ps: seq<PollRow>, pollId: Id)
  {
    exists p :: p in ps && p.id == pollId
  }

  /** What the database keeps true of its tables: ids are unique and below
      the next id to hand out, every option belongs to a stored poll, and
      every vote names an option id handed out before. */
  ghost predicate WellFormed(ps: seq<PollRow>, os: seq<OptionRow>, vs: seq<VoteRow>, nextId: Id)
  {
    && (forall p :: p in ps ==> p.id < nextId)
    && (forall o :: o in os ==> o.id < nextId && HasPoll(ps, o.pollId))
    && (forall v :: v in vs ==> v.optionId < nextId)
    && Distinct(PollIds(ps))
    && Distinct(OptionIds(os))
  }

  // ---------------------------------------------------------------- GET

  function BelongsTo(pollId: Id): OptionRow -> bool
  {
    (o: OptionRow) => o.pollId == pollId
  }

  /** The nested `options(*)` of one poll: its option rows in table order. */
  function OptionsOf(os: seq<OptionRow>, pollId: Id): seq<OptionRow>
  {
    Filter(os, BelongsTo(pollId))
  }

  /** `allOptionIds`: the option ids of every poll, poll by poll. */
  function AllOptionIds(ps: seq<PollRow>, os: seq<OptionRow>): seq<Id>
  {
    if ps == [] then [] else OptionIds(OptionsOf(os, ps[0].id)) + AllOptionIds(ps[1..], os)
  }

  function InIds(ids: seq<Id>): Id -> bool
  {
    (x: Id) => x in ids
  }

  /** The vote query `.select("option_id").in("option_id", ids)`. */
  function QueriedVotes(vs: seq<VoteRow>, ids: seq<Id>): seq<Id>
  {
    Filter(VoteOptionIds(vs), InIds(ids))
  }

  /** `poll.user_id || "Anonymous"`: the owner label of a listed poll. */
  function Owner(userId: Option<string>): (r: string)
    ensures r != ""
    ensures userId.Some? && userId.value != "" ==> r == userId.value
    ensures (userId.None? || userId.value == "") ==> r == "Anonymous"
  {
    if userId.Some? && userId.value != "" then userId.value else "Anonymous"
  }

  function FormatOption(o: OptionRow, acc: map<Id, nat>): PollOption
  {
    PollOption(o.id, o.text, VotesOf(acc, o.id))
  }

  function FormatPoll(p: PollRow, os: seq<OptionRow>, acc: map<Id, nat>): Poll
  {
    Poll(p.id, p.title, p.description,
         seq(|os|, j requires 0 <= j < |os| => FormatOption(os[j], acc)),
         Owner(p.userId), p.isActive, p.allowMultipleVotes, p.expiresAt,
         p.createdAt, p.updatedAt)
  }

  /** `formattedPolls`: one Poll per stored poll, in table order. */
  function FormatPolls(ps: seq<PollRow>, os: seq<OptionRow>, acc: map<Id, nat>): seq<Poll>
  {
    seq(|ps|, i requires 0 <= i < |ps| => FormatPoll(ps[i], OptionsOf(os, ps[i].id), acc))
  }

  /** `p` is the listing of poll row `row` whose option rows are `os`: the
      row's fields, the owner label, and per option its id, text and the
      number of vote rows naming it (0 for all when the vote query failed). */
  ghost predicate Lists(p: Poll, row: PollRow, os: seq<OptionRow>, vs: seq<VoteRow>, votesFailed: bool)
  {
    && p.id == row.id && p.title == row.title && p.description == row.description
    && p.createdBy == Owner(row.userId)
    && p.isActive == row.isActive && p.allowMultipleVotes == row.allowMultipleVotes
    && p.expiresAt == row.expiresAt && p.createdAt == row.createdAt && p.updatedAt == row.updatedAt
    && |p.options| == |os|
    && forall j :: 0 <= j < |os| ==>
         && p.options[j].id == os[j].id
         && p.options[j].text == os[j].text
         && p.options[j].votes == (if votesFailed then 0 else Count(VoteOptionIds(vs), os[j].id))
  }

  /** A poll's nested options are exactly its own option rows. */
  lemma OptionsOfAreOwn(os: seq<OptionRow>, pollId: Id)
    ensures forall o :: o in OptionsOf(os, pollId) <==> o in os && o.pollId == pollId
    ensures forall o :: o in os && o.pollId == pollId ==>
              Count(OptionsOf(os, pollId), o) == Count(os, o)
  {
    forall o | o in os && o.pollId == pollId
      ensures Count(OptionsOf(os, pollId), o) == Count(os, o)
    {
      CountFilter(os, BelongsTo(pollId), o);
    }
  }

  /** Every option of every listed poll is among the queried option ids. */
  lemma {:induction false} OptionIdInAll(ps: seq<PollRow>, os: seq<OptionRow>, i: nat, j: nat)
    requires i < |ps| && j < |OptionsOf(os, ps[i].id)|
    ensures OptionsOf(os, ps[i].id)[j].id in AllOptionIds(ps, os)
  {
    if i == 0 {
      assert OptionIds(OptionsOf(os, ps[0].id))[j] == OptionsOf(os, ps[0].id)[j].id;
    } else {
      assert ps[1..][i - 1] == ps[i];
      OptionIdInAll(ps[1..], os, i - 1, j);
    }
  }

  /** Every queried option id is the id of an option row of one of the polls. */
  lemma {:induction false} AllOptionIdsOrigin(ps: seq<PollRow>, os: seq<OptionRow>, x: Id)
    requires x in AllOptionIds(ps, os)
    ensures exists o :: o in os && o.id == x && HasPoll(ps, o.pollId)
  {
    var mine := OptionIds(OptionsOf(os, ps[0].id));
    if x in mine {
      var j :| 0 <= j < |mine| && mine[j] == x;
      var o := OptionsOf(os, ps[0].id)[j];
      assert o in OptionsOf(os, ps[0].id);
      assert o in os && o.id == x && ps[0] in ps && ps[0].id == o.pollId;
    } else {
      AllOptionIdsOrigin(ps[1..], os, x);
      var o :| o in os && o.id == x && HasPoll(ps[1..], o.pollId);
      var p :| p in ps[1..] && p.id == o.pollId;
      assert p in ps;
    }
  }

  /** With unique poll ids and unique option ids, no option id is queried twice. */
  lemma {:induction false} AllOptionIdsDistinct(ps: seq<PollRow>, os: seq<OptionRow>)
    requires Distinct(PollIds(ps)) && Distinct(OptionIds(os))
    ensures Distinct(AllOptionIds(ps, os))
  {
    if ps != [] {
      var mine := OptionIds(OptionsOf(os, ps[0].id));
      var rest := AllOptionIds(ps[1..], os);
      assert PollIds(ps[1..]) == PollIds(ps)[1..];
      AllOptionIdsDistinct(ps[1..], os);
      DistinctProjectFilter(os, OptionKey, BelongsTo(ps[0].id));
      forall x | x in mine
        ensures x !in rest
      {
        var j :| 0 <= j < |mine| && mine[j] == x;
        var o1 := OptionsOf(os, ps[0].id)[j];
        assert o1 in OptionsOf(os, ps[0].id);
        forall y | y in rest
          ensures y != x
        {
          AllOptionIdsOrigin(ps[1..], os, y);
          var o2 :| o2 in os && o2.id == y && HasPoll(ps[1..], o2.pollId);
          var p :| p in ps[1..] && p.id == o2.pollId;
          var m :| 0 <= m < |ps[1..]| && ps[1..][m] == p;
          assert PollIds(ps)[0] != PollIds(ps)[m + 1];
          DistinctOptionsDiffer(os, o1, o2);
        }
      }
      DistinctConcat(mine, rest);
    }
  }

  /** Two different option rows of a table with unique ids have different ids. */
  lemma DistinctOptionsDiffer(os: seq<OptionRow>, o1: OptionRow, o2: OptionRow)
    requires Distinct(OptionIds(os))
    requires o1 in os && o2 in os && o1 != o2
    ensures o1.id != o2.id
  {
    var i :| 0 <= i < |os| && os[i] == o1;
    var k :| 0 <= k < |os| && os[k] == o2;
    assert OptionIds(os)[i] == o1.id && OptionIds(os)[k] == o2.id;
  }

  // --------------------------------------------------------------- POST

  /** The validation `!title || !options || !Array.isArray(options) ||
      options.length < 2`, negated. */
  predicate AcceptsCreate(req: CreateRequest)
  {
    req.title != "" && req.options.Some? && |req.options.value| >= 2
  }

  /** The inserted poll row: flags coerced with `!!`, `is_active = true`;
      `now` is the store's clock for the timestamp columns. */
  function NewPollRow(req: CreateRequest, id: Id, now: Timestamp): PollRow
  {
    PollRow(id, req.title, req.description, req.userId, req.userName,
            Truthy(req.allowMultipleVotes), Truthy(req.requireLogin),
            req.expiresAt, true, now, now)
  }

  /** `optionInserts`: one row per submitted text, in order, owned by
      `pollId`; the store numbers them from `firstId`. */
  function NewOptionRows(texts: seq<string>, pollId: Id, firstId: Id): seq<OptionRow>
  {
    seq(|texts|, k requires 0 <= k < |texts| => OptionRow(firstId + k, pollId, texts[k]))
  }

  /** `pollData.user_name || pollData.user_id || "Anonymous"`. */
  function CreatorLabel(userName: Option<string>, userId: Option<string>): (r: string)
    ensures r != ""
    ensures userName.Some? && userName.value != "" ==> r == userName.value
    ensures (userName.None? || userName.value == "") ==> r == Owner(userId)
  {
    if userName.Some? && userName.value != "" then userName.value else Owner(userId)
  }

  /** The poll the POST responds with; every option starts at 0 votes. */
  function CreatedPoll(row: PollRow, rows: seq<OptionRow>): Poll
  {
    Poll(row.id, row.title, row.description,
         seq(|rows|, k requires 0 <= k < |rows| => PollOption(rows[k].id, rows[k].text, 0)),
         CreatorLabel(row.userName, row.userId), row.isActive, row.allowMultipleVotes,
         row.expiresAt, row.createdAt, row.updatedAt)
  }

  // ------------------------------------------------------------- DELETE

  function OptionOutside(ids: seq<Id>): OptionRow -> bool
  {
    (o: OptionRow) => o.pollId !in ids
  }

  function PollOutside(ids: seq<Id>): PollRow -> bool
  {
    (p: PollRow) => p.id !in ids
  }

  /** The options table after `.from("options").delete().in("poll_id", ids)`. */
  function OptionsOutside(os: seq<OptionRow>, ids: seq<Id>): seq<OptionRow>
  {
    Filter(os, OptionOutside(ids))
  }

  /** The polls table after `.from("polls").delete().in("id", ids)`. */
  function PollsOutside(ps: seq<PollRow>, ids: seq<Id>): seq<PollRow>
  {
    Filter(ps, PollOutside(ids))
  }

  /** The cascade removes exactly the options of the named polls and the
      named polls, keeps every other row and the order of what remains. */
  lemma CascadeRemovesExactlyTheIds(ps: seq<PollRow>, os: seq<OptionRow>, ids: seq<Id>)
    ensures forall o :: o in OptionsOutside(os, ids) <==> o in os && o.pollId !in ids
    ensures forall p :: p in PollsOutside(ps, ids) <==> p in ps && p.id !in ids
    ensures forall o :: o in os && o.pollId !in ids ==> Count(OptionsOutside(os, ids), o) == Count(os, o)
    ensures forall p :: p in ps && p.id !in ids ==> Count(PollsOutside(ps, ids), p) == Count(ps, p)
  {
    forall o | o in os && o.pollId !in ids
      ensures Count(OptionsOutside(os, ids), o) == Count(os, o)
    {
      CountFilter(os, OptionOutside(ids), o);
    }
    forall p | p in ps && p.id !in ids
      ensures Count(PollsOutside(ps, ids), p) == Count(ps, p)
    {
      CountFilter(ps, PollOutside(ids), p);
    }
  }

  /** Deleting in two batches whose tables are split in two keeps the
      survivors of each part in table order. */
  lemma CascadeKeepsOrder(a: seq<OptionRow>, b: seq<OptionRow>, ids: seq<Id>)
    ensures OptionsOutside(a + b, ids) == OptionsOutside(a, ids) + OptionsOutside(b, ids)
  {
    FilterConcat(a, b, OptionOutside(ids));
  }

  /** Appending a poll row with the next id keeps the tables well formed. */
  lemma AppendPollKeepsWellFormed(ps: seq<PollRow>, os: seq<OptionRow>, vs: seq<VoteRow>, nextId: Id, row: PollRow)
    requires WellFormed(ps, os, vs, nextId) && row.id == nextId
    ensures nextId !in PollIds(ps)
    ensures WellFormed(ps + [row], os, vs, nextId + 1)
  {
    ProjectConcat(ps, [row], PollKey);
    DistinctConcat(PollIds(ps), [nextId]);
    forall o | o in os
      ensures HasPoll(ps + [row], o.pollId)
    {
      var p :| p in ps && p.id == o.pollId;
      assert p in ps + [row];
    }
  }

  /** Appending option rows of a stored poll, numbered from the next id,
      keeps the tables well formed. */
  lemma AppendOptionsKeepsWellFormed(ps: seq<PollRow>, os: seq<OptionRow>, vs: seq<VoteRow>, nextId: Id,
                                     texts: seq<string>, pollId: Id)
    requires WellFormed(ps, os, vs, nextId) && HasPoll(ps, pollId)
    ensures WellFormed(ps, os + NewOptionRows(texts, pollId, nextId), vs, nextId + |texts|)
  {
    var rows := NewOptionRows(texts, pollId, nextId);
    ProjectConcat(os, rows, OptionKey);
    assert Distinct(OptionIds(rows));
    forall x | x in OptionIds(os)
      ensures x !in OptionIds(rows)
    {
      var i :| 0 <= i < |os| && OptionIds(os)[i] == x;
      assert os[i] in os;
    }
    DistinctConcat(OptionIds(os), OptionIds(rows));
  }

  /** No vote row names an id handed out after the votes were cast. */
  lemma NoVotesForFreshId(vs: seq<VoteRow>, nextId: Id, id: Id)
    requires forall v :: v in vs ==> v.optionId < nextId
    requires nextId <= id
    ensures Count(VoteOptionIds(vs), id) == 0
  {
    forall m | 0 <= m < |vs|
      ensures VoteOptionIds(vs)[m] != id
    {
      assert vs[m] in vs;
    }
  }

  // -------------------------------------------------------------- Store

  /** The three tables the route reads and writes. `nextId` is how the
      model hands out fresh ids. */
  class Store {
    var polls: seq<PollRow>
    var options: seq<OptionRow>
    var votes: seq<VoteRow>
    var nextId: Id

    ghost predicate Valid()
      reads this
    {
      WellFormed(polls, options, votes, nextId)
    }

    constructor (ps: seq<PollRow>, os: seq<OptionRow>, vs: seq<VoteRow>, next: Id)
      requires WellFormed(ps, os, vs, next)
      ensures Valid()
      ensures polls == ps && options == os && votes == vs && nextId == next
    {
      polls, options, votes, nextId := ps, os, vs, next;
    }

    /** DELETE: refuses an empty (or missing) id list; otherwise deletes the
        options of the polls first and stops, polls untouched, when that
        fails; then deletes the polls. Votes are not touched. */
    method Delete(ids: Option<seq<Id>>, optionsDeleteFails: bool, pollsDeleteFails: bool)
      returns (r: Response<()>)
      requires Valid()
      modifies this
      ensures Valid()
      ensures votes == old(votes) && nextId == old(nextId)
      ensures (ids.None? || ids.value == []) ==>
                r == Fail(NoPollIds) && polls == old(polls) && options == old(options)
      ensures ids.Some? && ids.value != [] && optionsDeleteFails ==>
                r == Fail(DeleteOptionsFailed) && polls == old(polls) && options == old(options)
      ensures ids.Some? && ids.value != [] && !optionsDeleteFails ==>
                options == OptionsOutside(old(options), ids.value)
      ensures ids.Some? && ids.value != [] && !optionsDeleteFails && pollsDeleteFails ==>
                r == Fail(DeletePollsFailed) && polls == old(polls)
      ensures ids.Some? && ids.value != [] && !optionsDeleteFails && !pollsDeleteFails ==>
                r == Ok(()) && polls == PollsOutside(old(polls), ids.value)
    {
      if ids.None? || ids.value == [] {
        return Fail(NoPollIds);
      }
      if optionsDeleteFails {
        return Fail(DeleteOptionsFailed);
      }
      DistinctProjectFilter(options, OptionKey, OptionOutside(ids.value));
      options := OptionsOutside(options, ids.value);
      if pollsDeleteFails {
        return Fail(DeletePollsFailed);
      }
      DistinctProjectFilter(polls, PollKey, PollOutside(ids.value));
      ghost var before := polls;
      polls := PollsOutside(polls, ids.value);
      forall o | o in options
        ensures HasPoll(polls, o.pollId)
      {
        var p :| p in before && p.id == o.pollId;
        assert p in polls;
      }
      r := Ok(());
    }

    /** GET: lists every poll in table order with its options and their
        vote counts. When the vote query fails the counts are all 0. */
    method List(pollsQueryFails: bool, votesQueryFails: bool) returns (r: Response<seq<Poll>>)
      ensures r.Fail? <==> pollsQueryFails
      ensures r.Fail? ==> r.error == FetchPollsFailed
      ensures r.Ok? ==> |r.data| == |polls|
      ensures r.Ok? ==> forall i :: 0 <= i < |polls| ==>
                Lists(r.data[i], polls[i], OptionsOf(options, polls[i].id), votes, votesQueryFails)
    {
      if pollsQueryFails {
        return Fail(FetchPollsFailed);
      }
      var allIds := AllOptionIds(polls, options);
      var counts: map<Id, nat> := map[];
      if |allIds| > 0 && !votesQueryFails {
        counts := CountVotes(QueriedVotes(votes, allIds));
      }
      var listed := FormatPolls(polls, options, counts);
      forall i, j | 0 <= i < |polls| && 0 <= j < |OptionsOf(options, polls[i].id)|
        ensures listed[i].options[j].votes ==
                (if votesQueryFails then 0
                 else Count(VoteOptionIds(votes), OptionsOf(options, polls[i].id)[j].id))
      {
        var o := OptionsOf(options, polls[i].id)[j].id;
        OptionIdInAll(polls, options, i, j);
        CountFilter(VoteOptionIds(votes), InIds(allIds), o);
      }
      r := Ok(listed);
    }

    /** POST: validates, inserts the poll row, then the option rows. A
        failed option insert leaves the poll row in place. */
    method Create(req: CreateRequest, pollInsertFails: bool, optionsInsertFails: bool, now: Timestamp)
      returns (r: Response<Poll>)
      requires Valid()
      modifies this
      ensures Valid()
      ensures votes == old(votes)
      ensures !AcceptsCreate(req) ==>
                && r == Fail(InvalidPollData)
                && polls == old(polls) && options == old(options) && nextId == old(nextId)
      ensures AcceptsCreate(req) && pollInsertFails ==>
                && r == Fail(CreatePollFailed)
                && polls == old(polls) && options == old(options) && nextId == old(nextId)
      ensures AcceptsCreate(req) && !pollInsertFails ==>
                && old(nextId) !in PollIds(old(polls))
                && polls == old(polls) + [NewPollRow(req, old(nextId), now)]
      ensures AcceptsCreate(req) && !pollInsertFails && optionsInsertFails ==>
                r == Fail(CreateOptionsFailed) && options == old(options)
      ensures AcceptsCreate(req) && !pollInsertFails && !optionsInsertFails ==>
                var rows := NewOptionRows(req.options.value, old(nextId), old(nextId) + 1);
                && options == old(options) + rows
                && r == Ok(CreatedPoll(NewPollRow(req, old(nextId), now), rows))
      ensures r.Ok? ==> forall k :: 0 <= k < |r.data.options| ==>
                r.data.options[k].votes == 0 == Count(VoteOptionIds(votes), r.data.options[k].id)
    {
      if !AcceptsCreate(req) {
        return Fail(InvalidPollData);
      }
      if pollInsertFails {
        return Fail(CreatePollFailed);
      }
      var pollId := nextId;
      var row := NewPollRow(req, pollId, now);
      AppendPollKeepsWellFormed(polls, options, votes, nextId, row);
      polls := polls + [row];
      nextId := nextId + 1;
      if optionsInsertFails {
        return Fail(CreateOptionsFailed);
      }
      var rows := NewOptionRows(req.options.value, pollId, nextId);
      assert row in polls;
      AppendOptionsKeepsWellFormed(polls, options, votes, nextId, req.options.value, pollId);
      options := options + rows;
      nextId := nextId + |rows|;
      r := Ok(CreatedPoll(row, rows));
      forall k | 0 <= k < |r.data.options|
        ensures Count(VoteOptionIds(votes), r.data.options[k].id) == 0
      {
        NoVotesForFreshId(votes, pollId, r.data.options[k].id);
      }
    }
  }
}
