# Polling app core, modelled in Dafny

This project models the core of a small polling web application. The model has three parts:

- the poll collection endpoint `app/api/polls/route.ts`, with three handlers:
  - DELETE removes polls together with their options;
  - GET lists every poll with per-option vote counts;
  - POST validates a new poll, then inserts it and its options;
- the voting card `components/polls/poll-card.tsx`: votability, vote total, bar percentages, the ballot selection and the Vote button guard;
- the option list of the creation form `components/forms/create-poll-form.tsx`.

Modules:

- `Types` holds the shared records `Poll` and `PollOption` (`types/index.ts`). Ids are `nat`, timestamps are `int` and optional fields use `Option`.
- `Seqs` holds `Filter`, `Project` (map) and `Count` over sequences, with their algebra. The TypeScript code uses `Array.filter`, `Array.map` and counting.
- `VoteTally` holds the `votes.reduce` tally of the GET handler. It is a method with a loop, proved against `Count`.
- `PollsApi` models the database as a `Store` class with three tables as sequences of rows and a fresh-id counter. `Delete`, `List` and `Create` are its methods. Every database call may fail, and each failure is a boolean parameter, so every store call's success and failure is modelled. `WellFormed`, the store invariant, is preserved by every method. It requires unique ids, options that belong to a stored poll and votes that name issued option ids.
- `PollCard` holds the card's derived values as functions. The card's React state (`selectedOptions`, `voteLoading`) is the `CardState` class, and `onChange` is its method.
- `CreatePollForm` holds the form's `options` state as the `PollDraft` class, with one method per handler. It also holds a value-level `ApplyEdit`/`Replay` model of the same handlers and the submit filter, with `String.prototype.trim` written out.
- `ListingTally` connects GET to the card. Each card's total is the number of vote rows naming one of that poll's options. Over a whole listing, the card totals add up to the number of vote rows the vote query returned.

Where the code's behaviour is surprising, the model follows the code:

- DELETE deletes no vote rows.
- POST does not remove the poll row when the option insert fails.
- POST does not check the option texts: blank texts are inserted.
- GET reports 0 votes for every option when the vote query fails, and still answers with success.

## Model

| member | source | states |
|---|---|---|
| VoteTally.CountVotes | app/api/polls/route.ts:72-75 | The tally's keys are exactly the option ids that occur in the vote rows. Each key maps to the number of rows naming it. |
| VoteTally.SumCountsIsRowCount | app/api/polls/route.ts:66-75 | For distinct ids that cover every row, the per-id counts add up to the number of rows. No row is lost or counted twice. |
| PollsApi.Owner | app/api/polls/route.ts:88 | The owner label of a listed poll is never empty. It is the `user_id` when that is non-empty, else "Anonymous". |
| PollsApi.CreatorLabel | app/api/polls/route.ts:170 | The creator label of a created poll is never empty. It is the user name when non-empty, else the owner label of the user id. |
| PollsApi.OptionsOfAreOwn | app/api/polls/route.ts:55 | A poll's nested options are exactly the option rows with its `poll_id`. Each appears as often as in the table. |
| PollsApi.OptionIdInAll | app/api/polls/route.ts:64 | The id of every option of every listed poll is in `allOptionIds`. |
| PollsApi.AllOptionIdsOrigin | app/api/polls/route.ts:64 | Every id in `allOptionIds` is the id of an option row of one of the listed polls. |
| PollsApi.AllOptionIdsDistinct | app/api/polls/route.ts:64 | With unique poll ids and unique option ids, `allOptionIds` holds no id twice. |
| PollsApi.CascadeRemovesExactlyTheIds | app/api/polls/route.ts:19-32 | After the two deletes, a row remains exactly when it is not named by the id list. Every surviving row keeps its multiplicity. |
| PollsApi.CascadeKeepsOrder | app/api/polls/route.ts:19-22 | The surviving option rows keep their table order. |
| PollsApi.Store.Delete | app/api/polls/route.ts:7-43 | A missing or empty id list gives "No poll IDs provided." and changes nothing. A failed option delete gives its error and changes nothing. A failed poll delete leaves the options deleted and the polls kept. Otherwise both tables lose exactly the named rows. Votes are never touched, and the store invariant is kept. |
| PollsApi.Store.List | app/api/polls/route.ts:47-107 | The result fails exactly when the poll query fails. Otherwise there is one listed poll per stored poll, in table order. Each has the row's fields, the owner label and the poll's own options in order. Each option's count is the number of vote rows naming it, or 0 for every option when the vote query failed. |
| PollsApi.Store.Create | app/api/polls/route.ts:110-185 | An empty title, missing options or fewer than two options give "Invalid poll data" and change no table and no id counter. A failed poll insert changes nothing either. Otherwise a poll row with a fresh id, `!!`-coerced flags and `is_active` true is appended. If the option insert then fails, the poll row stays and the options are unchanged. Otherwise one option row per text is appended, in order and owned by the new poll. The response is that poll with every option at 0 votes, which equals its vote-row count. |
| PollCard.CanVoteIsActiveAndNotExpired | components/polls/poll-card.tsx:30 | `canVote` holds exactly when the poll is active and `isExpired` does not hold. |
| PollCard.CanVoteUntilExpiry | components/polls/poll-card.tsx:30 | An active poll can be voted on up to and including its expiry instant, and not one millisecond after it. |
| PollCard.ExpiryIsPermanent | components/polls/poll-card.tsx:70 | Once expired, a poll stays expired and unvotable as time moves on. |
| PollCard.TotalVotes | components/polls/poll-card.tsx:69 | With non-negative counts, the total is non-negative and at least each option's count. |
| PollCard.Percentage | components/polls/poll-card.tsx:113 | The percentage is 0 when the total is 0. A count between 0 and a positive total gives a value between 0 and 100, and the whole total gives exactly 100. |
| PollCard.SumPercentagesScales | components/polls/poll-card.tsx:112-113 | Against a positive common total, the options' percentages add up to the options' total as a percentage of it. |
| PollCard.PercentagesSumTo100 | components/polls/poll-card.tsx:112-113 | Once any vote is cast, the bars of a poll add up to exactly 100%. |
| PollCard.PercentageBounded | components/polls/poll-card.tsx:112-113 | With non-negative counts, every bar is between 0% and 100%. |
| PollCard.WithoutRemovesOnlyThatId | components/polls/poll-card.tsx:129 | Unchecking removes every occurrence of the id. Every other id keeps its number of occurrences. |
| PollCard.WithoutKeepsOrder | components/polls/poll-card.tsx:129 | Unchecking keeps the remaining selection in its order. |
| PollCard.WithoutAbsent | components/polls/poll-card.tsx:129 | Unchecking an id that is not selected leaves the selection as it was. |
| PollCard.SubmitEnabledAfterPick | components/polls/poll-card.tsx:152 | The Vote button is enabled exactly when voting is open, no vote is in flight and something is selected. Right after a pick, it is enabled whenever voting is open and idle. |
| PollCard.CardState.constructor | components/polls/poll-card.tsx:24-25 | The card starts with nothing selected and no vote in flight. |
| PollCard.CardState.OnOptionChange | components/polls/poll-card.tsx:121-152 | A radio change makes the picked option the only one shown checked. A checkbox change appends on check and removes every occurrence on uncheck. After it, that box shows checked exactly when the change checked it, and every other box shows checked as before. A duplicate-free selection stays duplicate-free, and the loading flag is unchanged. After a pick (a radio change or a check), the Vote button of line 152 is disabled exactly when voting is closed or a vote is loading. Unchecking the only selected id disables it. |
| CreatePollForm.TrimStart | components/forms/create-poll-form.tsx:42 | The result is the text after an all-white-space prefix. It is empty exactly when the text is all white space, and otherwise starts with a non-space. |
| CreatePollForm.TrimEnd | components/forms/create-poll-form.tsx:42 | The result is the text before an all-white-space suffix. It is empty exactly when the text is all white space, and otherwise ends with a non-space. |
| CreatePollForm.Trim | components/forms/create-poll-form.tsx:42 | `trim()` is the slice of the text between an all-white-space prefix and an all-white-space suffix. It is empty exactly for an all-white-space text, and otherwise neither starts nor ends with white space. |
| CreatePollForm.SubmittedAreTheFilledEntries | components/forms/create-poll-form.tsx:42 | The submitted entries are exactly the entries with a non-space character, untrimmed. Each appears as often as it was entered, and blank ones not at all. |
| CreatePollForm.SubmittedKeepsOrder | components/forms/create-poll-form.tsx:42 | The submitted entries keep the order in which they were entered. |
| CreatePollForm.AddAppendsBlank | components/forms/create-poll-form.tsx:18-20 | `addOption` appends one blank entry and keeps every other entry. |
| CreatePollForm.RemoveDropsOneEntry | components/forms/create-poll-form.tsx:22-26 | With more than two entries, `removeOption(i)` drops entry `i` and shifts the rest. With two or fewer, it changes nothing. |
| CreatePollForm.UpdateSetsOneEntry | components/forms/create-poll-form.tsx:28-32 | `updateOption(i, v)` sets entry `i` to `v` and leaves the length and every other entry unchanged. |
| CreatePollForm.ReplayKeepsTwoOptions | components/forms/create-poll-form.tsx:13-32 | Starting from `["", ""]`, any sequence of add, remove and update calls leaves at least two entries. |
| CreatePollForm.PollDraft.constructor | components/forms/create-poll-form.tsx:13 | The form starts with two blank entries. |
| CreatePollForm.PollDraft.AddOption | components/forms/create-poll-form.tsx:18-20 | The state becomes the previous entries plus one blank entry, and keeps at least two entries. |
| CreatePollForm.PollDraft.RemoveOption | components/forms/create-poll-form.tsx:22-26 | The state becomes the previous entries without entry `index`, only when there were more than two. It never drops below two. |
| CreatePollForm.PollDraft.UpdateOption | components/forms/create-poll-form.tsx:28-32 | The state becomes the previous entries with entry `index` replaced. |
| CreatePollForm.PollDraft.Submitted | components/forms/create-poll-form.tsx:42 | The submitted options are exactly the state's entries that are not all white space. |
| ListingTally.QueriedVotesCount | app/api/polls/route.ts:66-75 | The per-id counts of distinct ids, over all vote rows, add up to the number of rows the vote query returns. |
| ListingTally.PollTotalIsItsVoteRows | components/polls/poll-card.tsx:69 | A listed poll's card total is the number of vote rows that name one of its options. |
| ListingTally.FailedVoteQueryShowsZero | app/api/polls/route.ts:71-76 | When the vote query failed, every listed card shows a total of 0. |
| ListingTally.ListedVotesAddUp | app/api/polls/route.ts:64-94 | With unique poll ids and option ids, the card totals of a whole listing add up to the number of vote rows the vote query returned. |

## Left out

- The database client is not modelled; `PollsApi.Store` stands in for the Supabase tables and their calls. Each call's failure is a parameter. The service-role configuration check and the `catch` branches, which only answer with a generic error, are not modelled.
- HTTP details are not modelled: status codes, JSON parsing and `NextResponse`. A request body is given already decoded, and a response is `Ok(data)` or `Fail(error)`. `CreateRequest.title` is a string, so a missing, `null` or other falsy `title` is taken as `""`, which fails validation the same way. A truthy non-string `title` is not modelled.
- The `order("created_at", descending)` of GET is not modelled: the listing is in table order. The nested `options(*)` join is modelled as the option rows with the poll's id, in table order.
- Date handling is not modelled: timestamps are integers, `new Date(...)` conversions are the identity, and a falsy `expiresAt` is `None`. The card reads the clock twice, for `canVote` and `isExpired`. The model takes one `now` for both.
- Floating point is not modelled: percentages are exact reals, so rounding is not covered.
- Concurrency is not modelled: the two DELETE calls and the two POST inserts are not atomic in the source. The model runs them one after the other with no interleaved requests.
- Vote submission is not modelled: `handleVote`'s fetch to the vote endpoint, the refresh of `pollData` and the `onVoted` callback are I/O outside the modelled core. The vote endpoint is not part of this model, so nothing here inserts vote rows.
- Rendering, the QR share, the delete and selection controls, and the other pages are not modelled.
- PollCard.CardState.OnOptionChange can be called in any state. The option inputs' `disabled={!canVote || voteLoading}` guard (poll-card.tsx line 135), which keeps the browser from firing `onChange` while voting is closed or a vote is loading, is not modelled.
- The form's title, description, expiry and loading fields are not modelled. The submit handler only logs its payload, so only the filtered option list is modelled.
- CreatePollForm.PollDraft.UpdateOption requires an index inside the list, because the form only calls it for a rendered entry. `ApplyEdit` takes every index outside the list to change nothing. For a negative index this matches JavaScript: it sets a property that is not an array entry. It does not match for `index == length`, where JavaScript appends one entry. It also does not match for `index > length`, where JavaScript grows the array and leaves holes before the new entry.
- PollsApi.Store.Create takes the store's fresh ids from a counter. The database's own id generation (uuid) is not modelled, only that the ids are unused.
