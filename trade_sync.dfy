/** The trade-sync pass of the sync controller: the busy flag, the league cursor and the loop
    that collects trade records for one batch of leagues. */
module TradeSync {
  import opened Wrappers
  import opened Sleeper
  import opened TradeNormalizer
  import opened Lists

  /** Leagues per pass (`increment`). */
  const Increment: nat := 500

  /** The fields of the season state a pass reads. */
  datatype SeasonState = SeasonState(week: int, season_type: string)

  /** The period whose transactions are requested: the current week in the regular season,
      period 1 otherwise. */
  function Period(state: SeasonState): int
  {
    if state.season_type == "regular" then state.week else 1
  }

  /** The cursor after a pass that started at `i` and received `fetched` leagues. */
  function NextCursor(i: nat, fetched: nat): (c: nat)
    ensures i % Increment == 0 ==> c % Increment == 0
    ensures fetched < Increment ==> c == 0
    ensures fetched >= Increment ==> c == i + Increment
  {
    if fetched < Increment then 0 else i + Increment
  }

  /** The league query: at most `limit` leagues of the season's list (oldest first), from
      position `offset`. */
  function Slice(universe: seq<League>, offset: nat, limit: nat): (b: seq<League>)
    ensures |b| <= limit
    ensures b != [] ==> offset + |b| <= |universe| && b == universe[offset..offset + |b|]
    ensures offset <= |universe| && |b| < limit ==> b == universe[offset..]
  {
    if offset >= |universe| then []
    else if offset + limit <= |universe| then universe[offset..offset + limit]
    else universe[offset..]
  }

  /** The batches of the passes from cursor `i` until the cursor returns to 0, over a league
      list that does not change meanwhile. */
  function Cycle(universe: seq<League>, i: nat): seq<seq<League>>
    decreases |universe| - i
  {
    var batch := Slice(universe, i, Increment);
    var next := NextCursor(i, |batch|);
    if next == 0 then [batch] else [batch] + Cycle(universe, next)
  }

  /** Cursor wrap-around: the passes of one cycle visit every league from the cursor on exactly
      once, in order. */
  lemma {:induction false} CycleCoversUniverse(universe: seq<League>, i: nat)
    requires i <= |universe|
    ensures ConcatMap(Cycle(universe, i), (b: seq<League>) => b) == universe[i..]
    decreases |universe| - i
  {
    var batch := Slice(universe, i, Increment);
    var next := NextCursor(i, |batch|);
    var id := (b: seq<League>) => b;
    if next == 0 {
      assert Cycle(universe, i) == [batch];
      assert [batch][..0] == [];
    } else {
      var rest := Cycle(universe, next);
      CycleCoversUniverse(universe, next);
      assert Cycle(universe, i) == [batch] + rest;
      ConcatMapCons(batch, rest, id);
      assert universe[i..] == batch + universe[next..];
    }
  }

  /** The shape of a cycle: all passes but the last receive a full batch, and the cycle takes
      (N - i) / 500 + 1 passes, so a list whose length is a multiple of 500 costs one pass
      that receives nothing. */
  lemma {:induction false} CycleLength(universe: seq<League>, i: nat)
    requires i <= |universe|
    ensures |Cycle(universe, i)| == (|universe| - i) / Increment + 1
    ensures forall k :: 0 <= k < |Cycle(universe, i)| - 1 ==> |Cycle(universe, i)[k]| == Increment
    ensures |Cycle(universe, i)[|Cycle(universe, i)| - 1]| < Increment
    decreases |universe| - i
  {
    var batch := Slice(universe, i, Increment);
    var next := NextCursor(i, |batch|);
    if next == 0 {
      assert Cycle(universe, i) == [batch];
    } else {
      var rest := Cycle(universe, next);
      CycleLength(universe, next);
      assert Cycle(universe, i) == [batch] + rest;
    }
  }

  /** Builds `adds` or `drops`: every key of the transaction's object, mapped to the owner of
      its roster id. */
  method BuildAssets(rosters: seq<Roster>, assets: map<string, int>)
    returns (resolved: map<string, Option<string>>)
    ensures resolved.Keys == assets.Keys
    ensures forall a :: a in resolved ==> resolved[a] == OwnerOf(rosters, assets[a])
    ensures resolved == ResolvedAssets(rosters, assets)
  {
    resolved := map[];
    var keys := assets.Keys;
    while keys != {}
      invariant keys <= assets.Keys
      invariant resolved.Keys == assets.Keys - keys
      invariant forall a :: a in resolved ==> resolved[a] == OwnerOf(rosters, assets[a])
      decreases keys
    {
      var a :| a in keys;
      resolved := resolved[a := OwnerOf(rosters, assets[a])];
      keys := keys - {a};
    }
    assert resolved == ResolvedAssets(rosters, assets);
  }

  /** The map callback of one transaction: builds managers, draft picks, adds and drops, and
      yields a record only for a kept transaction. */
  method TransactionRecord(league: League, t: Txn) returns (record: Option<Trade>)
    requires league.rosters.Some?
    ensures record == if Kept(t) then Some(NormalizeTxn(league, t)) else None
  {
    var rosters := league.rosters.value;
    var draftOrder := ActiveDraftOrder(league.drafts);
    var managers := Managers(rosters, t.roster_ids);
    var picks := TradedPicks(rosters, draftOrder, t.draft_picks);
    var adds := BuildAssets(rosters, AssetMap(t.adds));
    var drops := BuildAssets(rosters, AssetMap(t.drops));
    if Kept(t) {
      record := Some(Trade(t.transaction_id, t.status_updated, managers, adds, drops, picks,
                           Summary(league), league.users, rosters, league.drafts));
    } else {
      record := None;
    }
  }

  /** The callback for one league with rosters: pushes the record of every kept transaction
      of its feed, in feed order. */
  method CollectLeague(week: seq<Trade>, league: League, txns: seq<Txn>) returns (trades: seq<Trade>)
    requires league.rosters.Some?
    ensures trades == week + TxnTrades(league, txns)
  {
    trades := week;
    var j := 0;
    while j < |txns|
      invariant 0 <= j <= |txns|
      invariant trades == week + TxnTrades(league, txns[..j])
    {
      var record := TransactionRecord(league, txns[j]);
      ConcatMapStep(txns, (t: Txn) => KeptRecord(league, t), j);
      if record.Some? {
        trades := trades + [record.value];
      }
      j := j + 1;
    }
    assert txns[..j] == txns;
  }

  /** The process-wide state of trade sync: the busy flag and the league cursor
      (`trades_sync_counter`, 0 while unset). */
  class SyncState {
    var syncing: bool
    var counter: nat

    /** The cursor is always a multiple of the batch size. */
    ghost predicate Valid()
      reads this
    {
      counter % Increment == 0
    }

    constructor ()
      ensures Valid() && !syncing && counter == 0
    {
      syncing := false;
      counter := 0;
    }

    /** One pass over `batch`, the leagues the query returned for the current cursor; `fetch`
        answers the transactions request of a league for a period. Returns the records passed
        to the bulk upsert and advances the cursor. */
    method UpdateTrades(batch: seq<League>, state: SeasonState, fetch: (string, int) -> Fetch)
      returns (trades: seq<Trade>)
      requires Valid() && syncing
      modifies this`counter
      ensures Valid() && syncing
      ensures trades == BatchTrades(batch, Period(state), fetch)
      ensures counter == NextCursor(old(counter), |batch|)
    {
      var i := counter;
      var period := Period(state);
      trades := [];
      var k := 0;
      while k < |batch|
        invariant 0 <= k <= |batch|
        invariant trades == BatchTrades(batch[..k], period, fetch)
      {
        var league := batch[k];
        if league.rosters.Some? {
          trades := CollectLeague(trades, league, LeagueFeed(league, period, fetch));
        }
        ConcatMapStep(batch, (l: League) => LeagueTrades(l, period, fetch), k);
        k := k + 1;
      }
      assert batch[..k] == batch;
      counter := NextCursor(i, |batch|);
    }

    /** One timer tick. `batch` is None when the pass rejects before it finishes (the state
        request or the league query failed); the flag is then never cleared, since nothing
        releases it on that path. */
    method Tick(batch: Option<seq<League>>, state: SeasonState, fetch: (string, int) -> Fetch)
      returns (ran: bool, trades: seq<Trade>)
      requires Valid()
      modifies this
      ensures Valid()
      ensures ran == !old(syncing)
      ensures !ran ==> syncing && counter == old(counter) && trades == []
      ensures ran && batch.Some? ==>
        && !syncing
        && counter == NextCursor(old(counter), |batch.value|)
        && trades == BatchTrades(batch.value, Period(state), fetch)
      ensures ran && batch.None? ==> syncing && counter == old(counter) && trades == []
    {
      ran := !syncing;
      trades := [];
      if ran {
        syncing := true;
        if batch.Some? {
          trades := UpdateTrades(batch.value, state, fetch);
          syncing := false;
        }
      }
    }
  }
}
