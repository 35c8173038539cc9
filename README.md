# Trade sync and player shares, modelled in Dafny

This project models two parts of a fantasy-football companion server for the Sleeper platform:

- **Trade sync** (`app/controllers/sync.controller.js`). A timer fires and, unless a pass is
  already running (`syncing`), takes the next batch of at most 500 stored leagues, starting
  at the cursor `trades_sync_counter`. For each such league whose `rosters` column is present,
  it requests that league's transactions for the current period: the current week in the
  regular season, period 1 otherwise. A failed request reads as an empty list. Every
  transaction of type `trade` that carries an `adds` object becomes one denormalised trade
  record. In that record:
  - each roster id is resolved to its owner's user id: in `managers`, in `adds` and in
    `drops`;
  - each traded draft pick gets its original owner and, when a draft is still open, that
    owner's draft position;
  - a snapshot of the league is attached.

  After the batch, the cursor moves forward by 500, or returns to 0 when the batch was short.
- **Player shares** (`app/helpers/getPlayerShares.js`). Given a user's leagues, it builds a
  dictionary that maps each player id to the ids of the leagues where the user's roster holds
  that player. The user's roster in a league is the first roster they own or co-own.

Modules:

| module | file | contents |
|---|---|---|
| `Wrappers` | `wrappers.dfy` | `Option` |
| `Lookup` | `lookup.dfy` | `FindFirst`, which is JavaScript's `Array.prototype.find` on indices |
| `Lists` | `lists.dfy` | `ConcatMap`, the per-item lists of a sequence, concatenated, and its lemmas |
| `Sleeper` | `sleeper.dfy` | the league, roster, draft, pick and transaction records, and a fetch outcome |
| `TradeNormalizer` | `trade_normalizer.dfy` | the per-transaction mapping as total functions, the per-batch output `BatchTrades`, and the trade-filter lemmas |
| `TradeSync` | `trade_sync.dfy` | the cursor, the cycle lemmas, the loops of `updateTrades` as methods, and the `SyncState` class holding the busy flag and the cursor |
| `PlayerShares` | `player_shares.dfy` | the aggregation loop as methods, its specification `Shares`, an independent per-player reference `Occurrences`, and the lemmas that connect them |

JavaScript truthiness is modelled explicitly:

- an empty `rosters` array passes the `rosters` filter;
- an empty `adds` object still makes a trade a kept record;
- a roster's `user_id` selects a draft position only when it is present and non-empty.

A null or undefined field is `None`. Both the HTTP client and the league query are replaced
by inputs:

- `fetch(league_id, period)` gives each league's transactions request, as `Fetched(list)` or
  `FetchFailed`;
- the batch the league query returned is passed to each pass;
- `Slice` and `Cycle` describe how successive batches cover a fixed league list.

Where this code and the design description of the system disagree, the model follows the
code:

- The description calls a league eligible for trade sync only if its roster list is
  non-empty. The code's filter (`x.dataValues.rosters`) also keeps an empty array, and so does
  the model (`LeagueTrades`).
- The description has the busy flag released even when a pass fails. The code has no
  `try`/`finally`, so a pass that rejects before it finishes leaves `syncing` set for as long as the process runs.
  `SyncState.Tick`, with `batch == None`, models that path.
- The description says a cycle over `N` leagues takes `ceil(N/500)` passes. The code resets the
  cursor only after a batch shorter than 500, so a cycle from cursor 0 takes `N / 500 + 1`
  passes. When `N` is a multiple of 500, the last of those passes receives no leagues
  (`TradeSync.CycleLength`).

## Model

| member | source | states |
|---|---|---|
| Lookup.FindFirst | app/controllers/sync.controller.js:86 | The index `find` stops at: a match with no match before it. None only when no element matches. It models every `find` of the core: sync.controller.js lines 84, 86, 92, 107 and 113, and getPlayerShares.js line 21. |
| TradeNormalizer.RosterFor | app/controllers/sync.controller.js:92 | The roster `rosters.find(x => x.roster_id === id)` returns. It is None exactly when no roster has that id, and otherwise the first roster with that id. |
| TradeNormalizer.OwnerOf | app/controllers/sync.controller.js:86-88 | `roster?.user_id`: None when no roster has the id, otherwise the `user_id` of the first roster with that id. |
| TradeNormalizer.Managers | app/controllers/sync.controller.js:85-89 | One entry per roster id of the transaction, in the same order, each the owner of that roster id. |
| TradeNormalizer.ActiveDraftOrder | app/controllers/sync.controller.js:84 | The `draft_order` of the first draft that has one and is not complete (then present). None when no draft qualifies. |
| TradeNormalizer.TradedPicks | app/controllers/sync.controller.js:91-103 | One enriched pick per input pick, in order. Each keeps the input pick, gets the owner, username and avatar of the first roster with the pick's roster id as `original_user`, and gets `order` from that owner and the active draft order. |
| TradeNormalizer.NormalizeTxn | app/controllers/sync.controller.js:83-138 | The record of one transaction. It copies the transaction id, `status_updated`, the full league snapshot (`Summary`, all seven fields), and the league's users, rosters and drafts. `managers` resolves each roster id by its first roster, and is None where no roster matches. `adds` and `drops` keep exactly the transaction's keys, each mapped to the owner of its roster id, and `drops` is empty when absent. The picks are preserved, in order, each with the full `original_user` (user id, username, avatar) of its first matching roster. |
| TradeNormalizer.PickOrderResolution | app/controllers/sync.controller.js:101 | A pick's `order` is None when no draft is active. Otherwise it is the first active draft's entry for the pick's resolved owner, and None when that owner is missing, empty or not in the order. |
| TradeNormalizer.TxnTradesMembers | app/controllers/sync.controller.js:117-139 | Trade filter, both directions: a record comes out of a league's feed exactly when it is the record of a feed transaction of type `trade` that carries `adds`. |
| TradeNormalizer.BatchTradesMembers | app/controllers/sync.controller.js:68-70 | A record of the batch comes from one of the batch's leagues, and every league's records are in the batch output. |
| TradeNormalizer.TradeFilter | app/controllers/sync.controller.js:68-139 | A record is in the batch output exactly when some league of the batch has `rosters` and its feed holds a kept transaction whose record it is. |
| TradeNormalizer.BatchTradesSplit | app/controllers/sync.controller.js:68-70 | The batch output lists the records league by league: splitting the batch splits the output the same way. |
| TradeNormalizer.SkippedLeagueContributesNothing | app/controllers/sync.controller.js:69-80 | A league without `rosters`, or whose request failed, adds no records. The records of every other league are exactly those they would have without it. |
| TradeSync.NextCursor | app/controllers/sync.controller.js:147-151 | The cursor is 0 after a batch shorter than 500 and moves forward by 500 otherwise, so a multiple of 500 stays a multiple of 500. |
| TradeSync.Slice | app/controllers/sync.controller.js:55-62 | The league query returns at most 500 leagues, a contiguous run of the list from the offset. A short result runs to the end of the list. |
| TradeSync.CycleCoversUniverse | app/controllers/sync.controller.js:147-151 | Over a fixed league list, the passes from a cursor until it wraps to 0 receive every league from the cursor onward, once each and in order. |
| TradeSync.CycleLength | app/controllers/sync.controller.js:147-151 | Such a cycle takes `(N - i) / 500 + 1` passes. Every pass except the last receives a full 500, and the last receives fewer. |
| TradeSync.BuildAssets | app/controllers/sync.controller.js:105-115 | The `adds` or `drops` object the loop builds keeps exactly the input's keys, and maps each to the owner of its roster id. |
| TradeSync.TransactionRecord | app/controllers/sync.controller.js:83-139 | The map callback yields `NormalizeTxn` for a kept transaction and nothing otherwise. |
| TradeSync.CollectLeague | app/controllers/sync.controller.js:82-141 | The records pushed for one league, in feed order, are appended after what was already collected. |
| TradeSync.SyncState.constructor | app/controllers/sync.controller.js:52 | Starts not syncing, with the cursor at 0, the value an unset counter reads as. |
| TradeSync.SyncState.UpdateTrades | app/controllers/sync.controller.js:48-151 | One pass returns exactly `BatchTrades` of the batch for the current period. The cursor becomes `NextCursor` of the old cursor and the batch size, and stays a multiple of 500. |
| TradeSync.SyncState.Tick | app/controllers/sync.controller.js:31-38 | A tick runs a pass exactly when no pass is running. A skipped tick changes nothing. A finished pass clears the flag and moves the cursor. A pass that rejects leaves the flag set and the cursor unchanged. |
| PlayerShares.ChosenRoster | app/helpers/getPlayerShares.js:21 | None exactly when the user neither owns nor co-owns any roster. Otherwise it is the first roster they own or co-own. |
| PlayerShares.AddPlayers | app/helpers/getPlayerShares.js:23-29 | The inner loop's dictionary equals `AddLeague` of the roster's players, covering both the append branch and the create branch. |
| PlayerShares.AddLeaguePlayers | app/helpers/getPlayerShares.js:21-30 | One league's callback adds the players of the chosen roster, and adds nothing when there is no chosen roster or it has no `players`. |
| PlayerShares.GetPlayerShares | app/helpers/getPlayerShares.js:16-33 | Rejects (None) exactly when some league's `rosters` is null. Otherwise the result is `Shares` of the leagues. |
| PlayerShares.SharesStep | app/helpers/getPlayerShares.js:20-31 | One more league extends the dictionary with that league's chosen players. |
| PlayerShares.AddLeagueEntry | app/helpers/getPlayerShares.js:23-29 | Adding a league's players appends its id to a player's list once per occurrence of the player, after the ids already there. |
| PlayerShares.AddLeagueKeys | app/helpers/getPlayerShares.js:24-27 | After adding a league, a player is a key exactly when it was a key before or occurs in the added players. |
| PlayerShares.SharesEntry | app/helpers/getPlayerShares.js:18-33 | Each player's list equals the per-player reference `Occurrences`. A player is a key exactly when it occurs in some chosen roster. The list's length is the player's number of occurrences across the chosen rosters. |
| PlayerShares.AllChosenMember | app/helpers/getPlayerShares.js:20-22 | A player occurs in the concatenated chosen rosters exactly when it occurs in one league's chosen roster. |
| PlayerShares.OccurrencesFromInput | app/helpers/getPlayerShares.js:25-27 | Every id in a player's list is the id of an input league whose chosen roster holds that player. |
| PlayerShares.SharesSpec | app/helpers/getPlayerShares.js:18-33 | The keys are exactly the players of the user's chosen rosters. Each list holds the league ids in league order, once per occurrence, and is non-empty. Only input leagues appear. |
| TradeSync.Period | app/controllers/sync.controller.js:74 | Definition of the requested period: the week in the regular season, 1 otherwise. It is used by `UpdateTrades`. |
| TradeNormalizer.IsActiveDraft | app/controllers/sync.controller.js:84 | Definition of the `find` condition `d.draft_order && d.status !== 'complete'`. Its properties are in `ActiveDraftOrder`. |
| TradeNormalizer.PickOrder | app/controllers/sync.controller.js:101 | Definition of the `order` ternary. Its properties are in `PickOrderResolution`. |
| TradeNormalizer.OriginalUser | app/controllers/sync.controller.js:96-100 | Definition of `original_user` from `roster?.user_id`, `username` and `avatar`. Its properties are in `TradedPicks`. |
| TradeNormalizer.AssetMap | app/controllers/sync.controller.js:105-115 | Definition: an absent `adds` or `drops` reads as an empty object. Its properties are in `NormalizeTxn` and `BuildAssets`. |
| TradeNormalizer.ResolvedAssets | app/controllers/sync.controller.js:105-115 | Definition of the resolved `adds`/`drops` object. Its properties are in `NormalizeTxn` and `BuildAssets`. |
| TradeNormalizer.Kept | app/controllers/sync.controller.js:117 | Definition of the condition `transaction.type === 'trade' && transaction.adds`. Its properties are in `TxnTradesMembers` and `TransactionRecord`. |
| TradeNormalizer.Summary | app/controllers/sync.controller.js:125-134 | Definition of the embedded league snapshot. Its properties are in `NormalizeTxn`. |
| TradeNormalizer.FetchedTxns | app/controllers/sync.controller.js:73-80 | Definition: a failed request reads as an empty list. Its properties are in `SkippedLeagueContributesNothing`. |
| TradeNormalizer.LeagueTrades | app/controllers/sync.controller.js:69-82 | Definition of one league's contribution: nothing without `rosters`. Its properties are in `TradeFilter` and `SkippedLeagueContributesNothing`. |
| TradeNormalizer.BatchTrades | app/controllers/sync.controller.js:68-143 | Definition of the batch output, league by league. Its properties are in `BatchTradesMembers`, `TradeFilter`, `BatchTradesSplit` and `SkippedLeagueContributesNothing`, and `UpdateTrades` is proved equal to it. |
| PlayerShares.OwnedBy | app/helpers/getPlayerShares.js:21 | Definition of the `find` condition: the user owns or co-owns the roster. Its properties are in `ChosenRoster`. |
| PlayerShares.ChosenPlayers | app/helpers/getPlayerShares.js:21-22 | Definition of the players a league contributes. Its properties are in `AddLeaguePlayers` and `SharesSpec`. |
| PlayerShares.AddLeague | app/helpers/getPlayerShares.js:23-29 | Definition of the inner loop's effect. Its properties are in `AddLeagueEntry` and `AddLeagueKeys`, and `AddPlayers` is proved equal to it. |
| PlayerShares.Shares | app/helpers/getPlayerShares.js:18-31 | Definition of the dictionary, built league by league. Its properties are in `SharesEntry` and `SharesSpec`, and `GetPlayerShares` is proved equal to it. |
| PlayerShares.Occurrences | app/helpers/getPlayerShares.js:18-33 | The independent per-player reference: for one player, each league's id repeated once per occurrence of the player in that league's chosen roster, in league order. `SharesEntry` proves each entry equal to it. |
| TradeNormalizer.TxnTrades | app/controllers/sync.controller.js:82-141 | Definition of one league's records, in feed order. Its properties are in `TxnTradesMembers`; `CollectLeague` is proved equal to it. |
| TradeNormalizer.KeptRecord | app/controllers/sync.controller.js:117-139 | Definition of the callback's conditional push: a record for a kept transaction, nothing otherwise. `TransactionRecord` is proved equal to it. |
| TradeNormalizer.LeagueFeed | app/controllers/sync.controller.js:74-80 | Definition of the transactions request for the league id and the period. Its properties are in `TradeFilter` and `SkippedLeagueContributesNothing`. |
| TradeNormalizer.Truthy | app/controllers/sync.controller.js:101 | Definition of the truthiness of `roster?.user_id`: present and not empty. Its properties are in `PickOrderResolution`. |
| PlayerShares.HasRosters | app/helpers/getPlayerShares.js:21 | Definition: the league's `rosters` is not null; otherwise `league.rosters.find` throws. Its properties are in `GetPlayerShares`. |

## Left out

- The HTTP client, including its TLS agent, timeout and retry policy (sync.controller.js:6-26): a league's request is the `fetch` parameter, and a failure after retries is `FetchFailed`.
- The state request (line 51): the season type and week are the `SeasonState` input, and the pass that rejects when that request fails is `Tick` with `batch == None`.
- The database. The league query (lines 55-62) is replaced by the batch input; `Slice` states what the query returns from a fixed list.
- The bulk upsert (line 145): the model returns the records handed to it. The call is not awaited, so its failure does not affect the flag or the cursor.
- The user-leagues query of `getPlayerShares` (getPlayerShares.js:8-14): the leagues are the input.
- The timer, its one-minute period (line 29), the memory report (lines 40-43), and every log line: the only timing effect modelled is the busy flag.
- Concurrency: `Promise.all` runs the leagues' requests concurrently. After its request settles, each league's callback pushes all of its records at once, with no `await` in between (sync.controller.js:82-139). In the code's array, each league's records therefore form one contiguous block in feed order, but the blocks follow the order in which the requests settle. `BatchTrades` puts the same blocks in batch order. The set of records is the same either way (`TradeFilter`).
- CycleCoversUniverse and CycleLength assume the league query's order is total and the same on every pass. The query orders only by `createdAt` (line 59), which need not be unique. With OFFSET/LIMIT, leagues sharing a `createdAt` can come in a different order on different passes, so one of them could be skipped or fetched twice within a cycle.
- null and undefined are one value (`None`), including a missing key of `draft_order`.
- Transactions without `roster_ids` or `draft_picks`, whose mapping would throw: the model's transactions always have both lists.
- `co_owners` entries are modelled as user ids, standing for the `user_id` field of each co-owner object.
- Player ids that name properties inherited from `Object.prototype` (such as `constructor`) are not modelled: the code's `players_all[player_id]` lookup finds those even when the dictionary is empty.
- The leaguemate sync and the other controllers and routes of the server: they are not part of this model.
