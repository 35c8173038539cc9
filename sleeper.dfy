/** The records the synchronisation code reads: league rows of the local store and the
    transaction feed of the league API. Field names follow the JSON keys. */
module Sleeper {
  import opened Wrappers

  /** A member's slot in a league. `co_owners` holds the co-owners' user ids. */
  datatype Roster = Roster(
    roster_id: int,
    user_id: Option<string>,
    username: Option<string>,
    avatar: Option<string>,
    co_owners: Option<seq<string>>,
    players: Option<seq<string>>)

  /** Draft metadata; `draft_order` maps a user id to a pick position. */
  datatype Draft = Draft(status: string, draft_order: Option<map<string, int>>)

  /** A stored league row. `users` holds the member user ids; `rosters` is None when the
      column is null. */
  datatype League = League(
    league_id: string,
    name: string,
    avatar: string,
    best_ball: int,
    league_type: string,
    roster_positions: seq<string>,
    scoring_settings: map<string, real>,
    users: seq<string>,
    rosters: Option<seq<Roster>>,
    drafts: seq<Draft>)

  /** A draft pick as the transaction feed reports it. */
  datatype Pick = Pick(
    season: string,
    round: int,
    roster_id: int,
    previous_owner_id: int,
    owner_id: int)

  /** A raw transaction. `adds` and `drops` map an asset key to a roster id. */
  datatype Txn = Txn(
    transaction_id: string,
    txn_type: string,
    status_updated: int,
    roster_ids: seq<int>,
    adds: Option<map<string, int>>,
    drops: Option<map<string, int>>,
    draft_picks: seq<Pick>)

  /** The outcome of one transactions request: the list it returned, or a failure after retries. */
  datatype Fetch = Fetched(txns: seq<Txn>) | FetchFailed
}
