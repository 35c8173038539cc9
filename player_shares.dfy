/** Player-share aggregation: for one user, which of their leagues hold each player on the
    user's roster. */
module PlayerShares {
  import opened Wrappers
  import opened Lookup
  import opened Sleeper
  import opened Lists

  /** A roster the user owns or co-owns. */
  predicate OwnedBy(user_id: string, r: Roster)
  {
    r.user_id == Some(user_id) || (r.co_owners.Some? && user_id in r.co_owners.value)
  }

  /** The league's `rosters` column is not null. */
  predicate HasRosters(league: League)
  {
    league.rosters.Some?
  }

  ghost predicate IsFirstOwned(user_id: string, rosters: seq<Roster>, j: int)
  {
    0 <= j < |rosters| && OwnedBy(user_id, rosters[j])
    && forall i :: 0 <= i < j ==> !OwnedBy(user_id, rosters[i])
  }

  /** The roster chosen in a league: the first one the user owns or co-owns. */
  function ChosenRoster(user_id: string, rosters: seq<Roster>): (r: Option<Roster>)
    ensures r.None? <==> forall j :: 0 <= j < |rosters| ==> !OwnedBy(user_id, rosters[j])
    ensures forall j :: IsFirstOwned(user_id, rosters, j) ==> r == Some(rosters[j])
  {
    var p := (x: Roster) => OwnedBy(user_id, x);
    match FindFirst(rosters, p)
    case Some(k) =>
      assert forall j :: IsFirstOwned(user_id, rosters, j) ==> IsFirst(rosters, p, j);
      Some(rosters[k])
    case None => None
  }

  /** The players a league contributes: those of the chosen roster, none when there is no
      chosen roster or it has no `players`. */
  function ChosenPlayers(user_id: string, league: League): seq<string>
  {
    if league.rosters.None? then []
    else match ChosenRoster(user_id, league.rosters.value)
      case Some(r) => if r.players.Some? then r.players.value else []
      case None => []
  }

  /** The list stored under `p`, empty when `p` is absent. */
  function Entry<K, V>(m: map<K, seq<V>>, p: K): seq<V>
  {
    if p in m then m[p] else []
  }

  /** Appends `league_id` under each of `players`, in order. */
  function AddLeague<K, V>(m: map<K, seq<V>>, league_id: V, players: seq<K>): map<K, seq<V>>
    decreases |players|
  {
    if players == [] then m
    else
      var before := AddLeague(m, league_id, players[..|players| - 1]);
      var p := players[|players| - 1];
      before[p := Entry(before, p) + [league_id]]
  }

  /** The dictionary built from `leagues`, league by league. */
  function Shares(user_id: string, leagues: seq<League>): map<string, seq<string>>
    decreases |leagues|
  {
    if leagues == [] then map[]
    else
      var last := leagues[|leagues| - 1];
      AddLeague(Shares(user_id, leagues[..|leagues| - 1]), last.league_id, ChosenPlayers(user_id, last))
  }

  /** The inner loop: appends `league_id` to the list of every player of the roster, creating
      the list on a player's first occurrence. */
  method AddPlayers(m: map<string, seq<string>>, league_id: string, players: seq<string>)
    returns (all: map<string, seq<string>>)
    ensures all == AddLeague(m, league_id, players)
  {
    all := m;
    var j := 0;
    while j < |players|
      invariant 0 <= j <= |players|
      invariant all == AddLeague(m, league_id, players[..j])
    {
      var player_id := players[j];
      assert players[..j + 1][..j] == players[..j];
      ghost var next := all[player_id := Entry(all, player_id) + [league_id]];
      if player_id in all {
        all := all[player_id := all[player_id] + [league_id]];
      } else {
        assert Entry(all, player_id) + [league_id] == [league_id];
        all := all[player_id := [league_id]];
      }
      assert all == next;
      j := j + 1;
    }
    assert players[..j] == players;
  }

  /** The callback for one league: finds the chosen roster and, when it has `players`, adds
      them. */
  method AddLeaguePlayers(m: map<string, seq<string>>, user_id: string, league: League)
    returns (all: map<string, seq<string>>)
    requires HasRosters(league)
    ensures all == AddLeague(m, league.league_id, ChosenPlayers(user_id, league))
  {
    all := m;
    var roster := ChosenRoster(user_id, league.rosters.value);
    if roster.Some? && roster.value.players.Some? {
      all := AddPlayers(all, league.league_id, roster.value.players.value);
    }
  }

  /** `getPlayerShares` over the leagues the query returned. None when some league's `rosters`
      is null: `league.rosters.find` then throws and the call rejects. */
  method GetPlayerShares(user_id: string, leagues: seq<League>)
    returns (r: Option<map<string, seq<string>>>)
    ensures r.None? <==> exists k :: 0 <= k < |leagues| && !HasRosters(leagues[k])
    ensures r.Some? ==> r.value == Shares(user_id, leagues)
  {
    var all: map<string, seq<string>> := map[];
    var k := 0;
    while k < |leagues|
      invariant 0 <= k <= |leagues|
      invariant forall i :: 0 <= i < k ==> HasRosters(leagues[i])
      invariant all == Shares(user_id, leagues[..k])
    {
      var league := leagues[k];
      if !HasRosters(league) {
        return None;
      }
      all := AddLeaguePlayers(all, user_id, league);
      SharesStep(user_id, leagues, k);
      assert forall i :: 0 <= i < k + 1 ==> HasRosters(leagues[i]) by {
        assert forall i :: 0 <= i < k ==> HasRosters(leagues[i]);
        assert HasRosters(leagues[k]);
      }
      k := k + 1;
    }
    assert leagues[..k] == leagues;
    r := Some(all);
  }

  /** One more league extends the dictionary by that league's chosen players. */
  lemma SharesStep(user_id: string, leagues: seq<League>, k: nat)
    requires k < |leagues|
    ensures Shares(user_id, leagues[..k + 1])
         == AddLeague(Shares(user_id, leagues[..k]), leagues[k].league_id, ChosenPlayers(user_id, leagues[k]))
  {
    assert leagues[..k + 1][..k] == leagues[..k];
  }

  // ---------------------------------------------------------------- reference definitions

  function Repeat<V>(x: V, n: nat): (r: seq<V>)
    ensures |r| == n
  {
    if n == 0 then [] else Repeat(x, n - 1) + [x]
  }

  /** The chosen rosters' player lists, one after another in league order. */
  function AllChosen(user_id: string, leagues: seq<League>): seq<string>
  {
    ConcatMap(leagues, (l: League) => ChosenPlayers(user_id, l))
  }

  /** For one player: each league's id repeated once per occurrence of the player in that
      league's chosen roster, in league order. */
  function Occurrences(user_id: string, leagues: seq<League>, p: string): seq<string>
    decreases |leagues|
  {
    if leagues == [] then []
    else
      var last := leagues[|leagues| - 1];
      Occurrences(user_id, leagues[..|leagues| - 1], p)
      + Repeat(last.league_id, multiset(ChosenPlayers(user_id, last))[p])
  }

  // ---------------------------------------------------------------- properties

  /** Adding one league's players appends the league id under `p` once per occurrence of `p`. */
  lemma {:induction false} AddLeagueEntry<K, V>(m: map<K, seq<V>>, league_id: V, players: seq<K>, p: K)
    ensures Entry(AddLeague(m, league_id, players), p) == Entry(m, p) + Repeat(league_id, multiset(players)[p])
    decreases |players|
  {
    if players == [] {
      assert Entry(m, p) + [] == Entry(m, p);
    } else {
      var init := players[..|players| - 1];
      var q := players[|players| - 1];
      var before := AddLeague(m, league_id, init);
      var n := multiset(init)[p];
      var c := if p == q then 1 else 0;
      assert multiset(players)[p] == n + c by {
        assert players == init + [q];
      }
      assert Entry(before, p) == Entry(m, p) + Repeat(league_id, n) by {
        AddLeagueEntry(m, league_id, init, p);
      }
      assert Entry(AddLeague(m, league_id, players), p) == Entry(before, p) + Repeat(league_id, c) by {
        AppendEntry(before, q, league_id, p);
      }
      ConcatRepeat(Entry(m, p), league_id, n, c);
    }
  }

  /** Appending `c` more copies to `s + Repeat(x, n)` gives `s + Repeat(x, n + c)`. */
  lemma ConcatRepeat<V>(s: seq<V>, x: V, n: nat, c: nat)
    ensures (s + Repeat(x, n)) + Repeat(x, c) == s + Repeat(x, n + c)
  {
    RepeatAdd(x, n, c);
  }

  lemma {:induction false} RepeatAdd<V>(x: V, n: nat, c: nat)
    ensures Repeat(x, n) + Repeat(x, c) == Repeat(x, n + c)
  {
    if c == 0 {
      assert Repeat(x, n) + [] == Repeat(x, n);
    } else {
      RepeatAdd(x, n, c - 1);
    }
  }

  /** Adding one league's players creates a key for each of them and no other. */
  lemma {:induction false} AddLeagueKeys<K, V>(m: map<K, seq<V>>, league_id: V, players: seq<K>, p: K)
    ensures p in AddLeague(m, league_id, players) <==> p in m || p in players
    decreases |players|
  {
    if players != [] {
      var init := players[..|players| - 1];
      var q := players[|players| - 1];
      assert p in players <==> p in init || p == q by {
        assert players == init + [q];
      }
      AddLeagueKeys(m, league_id, init, p);
    }
  }

  lemma {:induction false} RepeatOnly<V>(x: V, n: nat, y: V)
    requires y in Repeat(x, n)
    ensures y == x
  {
    if y in Repeat(x, n - 1) {
      RepeatOnly(x, n - 1, y);
    }
  }

  /** One append step: only `q`'s entry grows, by exactly one id. */
  lemma AppendEntry<K, V>(m: map<K, seq<V>>, q: K, league_id: V, p: K)
    ensures Entry(m[q := Entry(m, q) + [league_id]], p) == Entry(m, p) + Repeat(league_id, if p == q then 1 else 0)
  {
    assert Repeat(league_id, 1) == [league_id];
    if p != q {
      assert Entry(m, p) + [] == Entry(m, p);
    }
  }

  /** The aggregated dictionary agrees, key by key, with the per-player reference: the entry of
      `p` is its occurrence list, `p` is a key exactly when it occurs in some chosen roster, and
      the entry's length is the number of occurrences of `p` across the chosen rosters. */
  lemma {:induction false} SharesEntry(user_id: string, leagues: seq<League>, p: string)
    ensures Entry(Shares(user_id, leagues), p) == Occurrences(user_id, leagues, p)
    ensures p in Shares(user_id, leagues) <==> p in AllChosen(user_id, leagues)
    ensures |Occurrences(user_id, leagues, p)| == multiset(AllChosen(user_id, leagues))[p]
    decreases |leagues|
  {
    if leagues != [] {
      var init := leagues[..|leagues| - 1];
      var last := leagues[|leagues| - 1];
      SharesEntry(user_id, init, p);
      AddLeagueEntry(Shares(user_id, init), last.league_id, ChosenPlayers(user_id, last), p);
      AddLeagueKeys(Shares(user_id, init), last.league_id, ChosenPlayers(user_id, last), p);
      assert multiset(AllChosen(user_id, leagues))
          == multiset(AllChosen(user_id, init)) + multiset(ChosenPlayers(user_id, last));
    }
  }

  /** `p` occurs in the concatenated player lists exactly when it occurs in one league's list. */
  lemma AllChosenMember(user_id: string, leagues: seq<League>, p: string)
    ensures p in AllChosen(user_id, leagues) <==>
      exists k :: 0 <= k < |leagues| && p in ChosenPlayers(user_id, leagues[k])
  {
    ConcatMapMember(leagues, (l: League) => ChosenPlayers(user_id, l), p);
  }

  /** Every id in an occurrence list is the id of an input league whose chosen roster holds `p`. */
  lemma {:induction false} OccurrencesFromInput(user_id: string, leagues: seq<League>, p: string, x: string)
    requires x in Occurrences(user_id, leagues, p)
    ensures exists k :: 0 <= k < |leagues| && leagues[k].league_id == x && p in ChosenPlayers(user_id, leagues[k])
    decreases |leagues|
  {
    var init := leagues[..|leagues| - 1];
    var last := leagues[|leagues| - 1];
    var here := Repeat(last.league_id, multiset(ChosenPlayers(user_id, last))[p]);
    if x in Occurrences(user_id, init, p) {
      OccurrencesFromInput(user_id, init, p, x);
      var k :| 0 <= k < |init| && init[k].league_id == x && p in ChosenPlayers(user_id, init[k]);
      assert leagues[k] == init[k];
    } else {
      assert x in here;
      RepeatOnly(last.league_id, multiset(ChosenPlayers(user_id, last))[p], x);
      assert leagues[|leagues| - 1] == last;
    }
  }

  /** The promises of `getPlayerShares` on a successful call: the key set, the lists' contents,
      order and lengths, non-emptiness, and that only input leagues appear. */
  lemma SharesSpec(user_id: string, leagues: seq<League>, p: string)
    ensures p in Shares(user_id, leagues) <==>
      exists k :: 0 <= k < |leagues| && p in ChosenPlayers(user_id, leagues[k])
    ensures p in Shares(user_id, leagues) ==>
      && Shares(user_id, leagues)[p] == Occurrences(user_id, leagues, p)
      && |Shares(user_id, leagues)[p]| == multiset(AllChosen(user_id, leagues))[p]
      && Shares(user_id, leagues)[p] != []
    ensures p in Shares(user_id, leagues) ==> forall x :: x in Shares(user_id, leagues)[p] ==>
      exists k :: 0 <= k < |leagues| && leagues[k].league_id == x && p in ChosenPlayers(user_id, leagues[k])
  {
    SharesEntry(user_id, leagues, p);
    AllChosenMember(user_id, leagues, p);
    forall x | p in Shares(user_id, leagues) && x in Shares(user_id, leagues)[p]
      ensures exists k :: 0 <= k < |leagues| && leagues[k].league_id == x && p in ChosenPlayers(user_id, leagues[k])
    {
      OccurrencesFromInput(user_id, leagues, p, x);
    }
  }
}
