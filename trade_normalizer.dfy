/** Turning one league's raw transaction feed into denormalised trade records: the
    per-transaction mapping inside `updateTrades`, as total functions. */
module TradeNormalizer {
  import opened Wrappers
  import opened Lookup
  import opened Sleeper
  import opened Lists

  /** The `league` snapshot embedded in every trade record. */
  datatype LeagueSummary = LeagueSummary(
    league_id: string,
    name: string,
    avatar: string,
    best_ball: int,
    league_type: string,
    roster_positions: seq<string>,
    scoring_settings: map<string, real>)

  /** The identity attached to a pick as `original_user`. */
  datatype UserRef = UserRef(user_id: Option<string>, username: Option<string>, avatar: Option<string>)

  /** A pick with every field of the feed's pick, plus `original_user` and `order`. */
  datatype TradedPick = TradedPick(pick: Pick, original_user: UserRef, order: Option<int>)

  /** The denormalised trade record. */
  datatype Trade = Trade(
    transaction_id: string,
    status_updated: int,
    managers: seq<Option<string>>,
    adds: map<string, Option<string>>,
    drops: map<string, Option<string>>,
    draft_picks: seq<TradedPick>,
    league: LeagueSummary,
    users: seq<string>,
    rosters: seq<Roster>,
    drafts: seq<Draft>)

  // ---------------------------------------------------------------- rosters

  /** Roster `j` is the one `rosters.find(x => x.roster_id === id)` returns. */
  ghost predicate IsFirstRoster(rosters: seq<Roster>, id: int, j: int)
  {
    0 <= j < |rosters| && rosters[j].roster_id == id
    && forall i :: 0 <= i < j ==> rosters[i].roster_id != id
  }

  /** The first roster carrying roster id `id`, if any. */
  function RosterFor(rosters: seq<Roster>, id: int): (r: Option<Roster>)
    ensures r.None? <==> forall j :: 0 <= j < |rosters| ==> rosters[j].roster_id != id
    ensures forall j :: IsFirstRoster(rosters, id, j) ==> r == Some(rosters[j])
  {
    var p := (x: Roster) => x.roster_id == id;
    match FindFirst(rosters, p)
    case Some(k) =>
      assert forall j :: IsFirstRoster(rosters, id, j) ==> IsFirst(rosters, p, j);
      Some(rosters[k])
    case None => None
  }

  /** `roster?.user_id` for the roster found by id: the owning user, or None when no roster
      has that id or the roster has no owner. */
  function OwnerOf(rosters: seq<Roster>, id: int): (u: Option<string>)
    ensures (forall j :: 0 <= j < |rosters| ==> rosters[j].roster_id != id) ==> u == None
    ensures forall j :: IsFirstRoster(rosters, id, j) ==> u == rosters[j].user_id
  {
    match RosterFor(rosters, id)
    case Some(r) => r.user_id
    case None => None
  }

  /** `managers`: the owner of each roster id of the transaction, position by position. */
  function Managers(rosters: seq<Roster>, roster_ids: seq<int>): (m: seq<Option<string>>)
    ensures |m| == |roster_ids|
    ensures forall k :: 0 <= k < |roster_ids| ==> m[k] == OwnerOf(rosters, roster_ids[k])
  {
    if roster_ids == [] then []
    else [OwnerOf(rosters, roster_ids[0])] + Managers(rosters, roster_ids[1..])
  }

  /** The `adds` or `drops` of a record: the same asset keys, each mapped to the owner of its
      roster id. */
  function ResolvedAssets(rosters: seq<Roster>, assets: map<string, int>): map<string, Option<string>>
  {
    map a | a in assets :: OwnerOf(rosters, assets[a])
  }

  /** An absent `adds` or `drops` leaves the record's object empty. */
  function AssetMap(assets: Option<map<string, int>>): map<string, int>
  {
    if assets.Some? then assets.value else map[]
  }

  // ---------------------------------------------------------------- draft picks

  /** The condition `d.draft_order && d.status !== 'complete'`. */
  predicate IsActiveDraft(d: Draft)
  {
    d.draft_order.Some? && d.status != "complete"
  }

  ghost predicate IsFirstActiveDraft(drafts: seq<Draft>, j: int)
  {
    0 <= j < |drafts| && IsActiveDraft(drafts[j])
    && forall i :: 0 <= i < j ==> !IsActiveDraft(drafts[i])
  }

  /** The `draft_order` of the first draft that has one and is not complete. */
  function ActiveDraftOrder(drafts: seq<Draft>): (o: Option<map<string, int>>)
    ensures (forall j :: 0 <= j < |drafts| ==> !IsActiveDraft(drafts[j])) ==> o == None
    ensures forall j :: IsFirstActiveDraft(drafts, j) ==> o == drafts[j].draft_order && o.Some?
  {
    match FindFirst(drafts, IsActiveDraft)
    case Some(k) =>
      assert forall j :: IsFirstActiveDraft(drafts, j) ==> IsFirst(drafts, IsActiveDraft, j);
      drafts[k].draft_order
    case None => None
  }

  /** JavaScript truthiness of an optional string: present and not empty. */
  predicate Truthy(s: Option<string>)
  {
    s.Some? && s.value != ""
  }

  /** `draft_order && roster?.user_id ? draft_order[roster?.user_id] : null`; a key missing from
      the order reads as undefined, which the model does not tell apart from null. */
  function PickOrder(draft_order: Option<map<string, int>>, owner: Option<string>): Option<int>
  {
    if draft_order.Some? && Truthy(owner) && owner.value in draft_order.value
    then Some(draft_order.value[owner.value])
    else None
  }

  function OriginalUser(r: Option<Roster>): UserRef
  {
    match r
    case Some(x) => UserRef(x.user_id, x.username, x.avatar)
    case None => UserRef(None, None, None)
  }

  /** `draft_picks`: one enriched pick per input pick, in the same order. */
  function TradedPicks(rosters: seq<Roster>, draft_order: Option<map<string, int>>, picks: seq<Pick>)
    : (r: seq<TradedPick>)
    ensures |r| == |picks|
    ensures forall k :: 0 <= k < |picks| ==>
      && r[k].pick == picks[k]
      && r[k].original_user == OriginalUser(RosterFor(rosters, picks[k].roster_id))
      && r[k].order == PickOrder(draft_order, OwnerOf(rosters, picks[k].roster_id))
  {
    if picks == [] then []
    else
      var owner := RosterFor(rosters, picks[0].roster_id);
      [TradedPick(picks[0], OriginalUser(owner), PickOrder(draft_order, OriginalUser(owner).user_id))]
      + TradedPicks(rosters, draft_order, picks[1..])
  }

  // ---------------------------------------------------------------- records

  /** The transactions that become records: trades that carry an `adds` object. */
  predicate Kept(t: Txn)
  {
    t.txn_type == "trade" && t.adds.Some?
  }

  function Summary(l: League): LeagueSummary
  {
    LeagueSummary(l.league_id, l.name, l.avatar, l.best_ball, l.league_type, l.roster_positions,
                  l.scoring_settings)
  }

  /** The record built for transaction `t` of league `l`. */
  function NormalizeTxn(l: League, t: Txn): (r: Trade)
    requires l.rosters.Some?
    ensures r.transaction_id == t.transaction_id && r.status_updated == t.status_updated
    ensures r.league == Summary(l) && r.league.league_id == l.league_id && r.users == l.users
    ensures r.rosters == l.rosters.value && r.drafts == l.drafts
    ensures |r.managers| == |t.roster_ids|
    ensures forall k :: 0 <= k < |t.roster_ids| ==>
      forall j :: IsFirstRoster(l.rosters.value, t.roster_ids[k], j) ==>
        r.managers[k] == l.rosters.value[j].user_id
    ensures forall k :: 0 <= k < |t.roster_ids| ==>
      (forall j :: 0 <= j < |l.rosters.value| ==> l.rosters.value[j].roster_id != t.roster_ids[k]) ==>
        r.managers[k] == None
    ensures r.adds.Keys == AssetMap(t.adds).Keys
    ensures forall a :: a in r.adds ==> r.adds[a] == OwnerOf(l.rosters.value, AssetMap(t.adds)[a])
    ensures r.drops.Keys == AssetMap(t.drops).Keys
    ensures forall a :: a in r.drops ==> r.drops[a] == OwnerOf(l.rosters.value, AssetMap(t.drops)[a])
    ensures t.drops.None? ==> r.drops == map[]
    ensures |r.draft_picks| == |t.draft_picks|
    ensures forall k :: 0 <= k < |t.draft_picks| ==>
      r.draft_picks[k].pick == t.draft_picks[k]
      && r.draft_picks[k].original_user == OriginalUser(RosterFor(l.rosters.value, t.draft_picks[k].roster_id))
      && r.draft_picks[k].original_user.user_id == OwnerOf(l.rosters.value, t.draft_picks[k].roster_id)
  {
    var rosters := l.rosters.value;
    Trade(t.transaction_id, t.status_updated,
          Managers(rosters, t.roster_ids),
          ResolvedAssets(rosters, AssetMap(t.adds)),
          ResolvedAssets(rosters, AssetMap(t.drops)),
          TradedPicks(rosters, ActiveDraftOrder(l.drafts), t.draft_picks),
          Summary(l), l.users, rosters, l.drafts)
  }

  /** The records one eligible league contributes, in feed order. */
  function TxnTrades(l: League, txns: seq<Txn>): seq<Trade>
    requires l.rosters.Some?
  {
    ConcatMap(txns, (t: Txn) => KeptRecord(l, t))
  }

  /** The record of one transaction, if it is kept; the callback's `filter`/`push` step. */
  function KeptRecord(l: League, t: Txn): seq<Trade>
    requires l.rosters.Some?
  {
    if Kept(t) then [NormalizeTxn(l, t)] else []
  }

  /** A failed request reads as an empty list. */
  function FetchedTxns(f: Fetch): seq<Txn>
  {
    if f.Fetched? then f.txns else []
  }

  /** The transactions a league's request yields for `period`. */
  function LeagueFeed(l: League, period: int, fetch: (string, int) -> Fetch): seq<Txn>
  {
    FetchedTxns(fetch(l.league_id, period))
  }

  /** What one league of the batch contributes: nothing unless its `rosters` is present. */
  function LeagueTrades(l: League, period: int, fetch: (string, int) -> Fetch): seq<Trade>
  {
    if l.rosters.Some? then TxnTrades(l, LeagueFeed(l, period, fetch)) else []
  }

  /** All records of a batch, league by league. */
  function BatchTrades(batch: seq<League>, period: int, fetch: (string, int) -> Fetch): seq<Trade>
  {
    ConcatMap(batch, (l: League) => LeagueTrades(l, period, fetch))
  }

  // ---------------------------------------------------------------- properties

  /** Trade filter: a record comes out exactly for each kept transaction of the feed. */
  lemma TxnTradesMembers(l: League, txns: seq<Txn>, r: Trade)
    requires l.rosters.Some?
    ensures r in TxnTrades(l, txns) <==>
      exists j :: 0 <= j < |txns| && Kept(txns[j]) && r == NormalizeTxn(l, txns[j])
  {
    ConcatMapMember(txns, (t: Txn) => KeptRecord(l, t), r);
  }

  /** The records of a batch split at any point into the records of the two parts. */
  lemma BatchTradesSplit(a: seq<League>, b: seq<League>, period: int, fetch: (string, int) -> Fetch)
    ensures BatchTrades(a + b, period, fetch) == BatchTrades(a, period, fetch) + BatchTrades(b, period, fetch)
  {
    ConcatMapSplit(a, b, (l: League) => LeagueTrades(l, period, fetch));
  }

  /** A league without rosters, or whose request failed, adds nothing, and the records of
      every other league of the batch are those it would have without it. */
  lemma SkippedLeagueContributesNothing(a: seq<League>, l: League, b: seq<League>, period: int,
                                        fetch: (string, int) -> Fetch)
    requires l.rosters.None? || fetch(l.league_id, period) == FetchFailed
    ensures BatchTrades(a + [l] + b, period, fetch) == BatchTrades(a, period, fetch) + BatchTrades(b, period, fetch)
  {
    assert LeagueTrades(l, period, fetch) == [] by {
      if l.rosters.Some? {
        assert LeagueFeed(l, period, fetch) == [];
      }
    }
    var f := (x: League) => LeagueTrades(x, period, fetch);
    assert BatchTrades([l], period, fetch) == ConcatMap([], f) + f(l) by {
      assert [l][..0] == [];
    }
    BatchTradesSplit(a, [l], period, fetch);
    BatchTradesSplit(a + [l], b, period, fetch);
  }

  /** A record of a batch is a record of one of its leagues, and conversely. */
  lemma BatchTradesMembers(batch: seq<League>, period: int, fetch: (string, int) -> Fetch, r: Trade)
    ensures r in BatchTrades(batch, period, fetch) <==>
      exists k :: 0 <= k < |batch| && r in LeagueTrades(batch[k], period, fetch)
  {
    ConcatMapMember(batch, (l: League) => LeagueTrades(l, period, fetch), r);
  }

  /** Trade filter over a whole batch: a record is in the output exactly when it is the record
      of a kept transaction in the feed of some league whose `rosters` is present. */
  lemma TradeFilter(batch: seq<League>, period: int, fetch: (string, int) -> Fetch, r: Trade)
    ensures r in BatchTrades(batch, period, fetch) <==>
      exists k, j :: 0 <= k < |batch| && batch[k].rosters.Some?
        && 0 <= j < |LeagueFeed(batch[k], period, fetch)|
        && Kept(LeagueFeed(batch[k], period, fetch)[j])
        && r == NormalizeTxn(batch[k], LeagueFeed(batch[k], period, fetch)[j])
  {
    BatchTradesMembers(batch, period, fetch, r);
    forall k | 0 <= k < |batch| && batch[k].rosters.Some?
      ensures r in LeagueTrades(batch[k], period, fetch) <==>
        exists j :: 0 <= j < |LeagueFeed(batch[k], period, fetch)|
          && Kept(LeagueFeed(batch[k], period, fetch)[j])
          && r == NormalizeTxn(batch[k], LeagueFeed(batch[k], period, fetch)[j])
    {
      TxnTradesMembers(batch[k], LeagueFeed(batch[k], period, fetch), r);
    }
  }

  /** Draft-pick order: with a first active draft, a pick's order is that draft's entry for the
      pick's resolved owner (None when the owner is unresolved, empty or not in the order);
      with no active draft it is None. */
  lemma PickOrderResolution(l: League, t: Txn, k: int)
    requires l.rosters.Some? && 0 <= k < |t.draft_picks|
    ensures var order := NormalizeTxn(l, t).draft_picks[k].order;
            var owner := OwnerOf(l.rosters.value, t.draft_picks[k].roster_id);
            && ((forall j :: 0 <= j < |l.drafts| ==> !IsActiveDraft(l.drafts[j])) ==> order == None)
            && (forall j :: IsFirstActiveDraft(l.drafts, j) ==>
                  order == (if Truthy(owner) && owner.value in l.drafts[j].draft_order.value
                            then Some(l.drafts[j].draft_order.value[owner.value]) else None))
  {
  }
}
