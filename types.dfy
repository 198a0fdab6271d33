/** The record shapes the API returns and the components render
    (types/index.ts): a Poll and its PollOptions. */
module Types {

  datatype Option<+T> = None | Some(value: T)

  /** Poll and option identities. The database hands out opaque ids; the
      model draws them from a counter, so they are naturals. */
  type Id = nat

  /** An instant, as integer milliseconds since the epoch (a JavaScript Date). */
  type Timestamp = int

  /** One answer of a poll with the number of votes reported for it. */
  datatype PollOption = PollOption(id: Id, text: string, votes: int)

  /** A poll as the API reports it. `createdBy` is a display label, never
      absent; `expiresAt` is optional. */
  datatype Poll = Poll(
    id: Id,
    title: string,
    description: Option<string>,
    options: seq<PollOption>,
    createdBy: string,
    isActive: bool,
    allowMultipleVotes: bool,
    expiresAt: Option<Timestamp>,
    createdAt: Timestamp,
    updatedAt: Timestamp)
}
