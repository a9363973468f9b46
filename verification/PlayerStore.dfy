/** The player store: records by user name, looked up by player id, read by value and written back. */
module PlayerStore {
  import opened Orders
  import opened Ledger

  predicate Filed(players: map<string, Player>) {
    && (forall u :: u in players ==> players[u].username == u)
    && (forall u, v :: u in players && v in players && u != v ==> players[u].playerId != players[v].playerId)
  }

  /** Records by player id. */
  ghost function Index(players: map<string, Player>): map<string, Player>
    requires Filed(players)
  {
    map u | u in players :: players[u].playerId := players[u]
  }

  lemma InIndex(players: map<string, Player>, u: string)
    requires Filed(players) && u in players
    ensures players[u].playerId in Index(players) && Index(players)[players[u].playerId] == players[u]
  {
  }

  lemma FromIndex(players: map<string, Player>, id: string) returns (u: string)
    requires Filed(players) && id in Index(players)
    ensures u in players && players[u].playerId == id && Index(players)[id] == players[u]
  {
    u :| u in players && players[u].playerId == id;
  }

  /** A record keeps its user name and player id for life. */
  predicate Fits(players: map<string, Player>, player: Player) {
    forall u :: u in players ==> (u == player.username <==> players[u].playerId == player.playerId)
  }

  lemma StillFiled(before: map<string, Player>, player: Player)
    requires Filed(before) && Fits(before, player)
    ensures Filed(before[player.username := player])
  {
  }

  lemma IndexAfterUpsert(before: map<string, Player>, player: Player)
    requires Filed(before) && Fits(before, player)
    ensures Filed(before[player.username := player])
    ensures Index(before[player.username := player]) == Index(before)[player.playerId := player]
  {
    var after := before[player.username := player];
    var m := Index(before)[player.playerId := player];
    StillFiled(before, player);
    hide Index, Filed, Fits;
    forall id | id in Index(after) ensures id in m && m[id] == Index(after)[id] {
      IndexedBefore(before, player, id);
    }
    forall id | id in m ensures id in Index(after) {
      IndexedAfter(before, player, id);
    }
    SameRecords(Index(after), m);
  }

  lemma SameRecords(a: map<string, Player>, b: map<string, Player>)
    requires forall id :: id in a ==> id in b && b[id] == a[id]
    requires forall id :: id in b ==> id in a
    ensures a == b
  {
  }

  lemma IndexedBefore(before: map<string, Player>, player: Player, id: string)
    requires Filed(before) && Filed(before[player.username := player]) && id in Index(before[player.username := player])
    ensures id in Index(before)[player.playerId := player]
    ensures Index(before)[player.playerId := player][id] == Index(before[player.username := player])[id]
  {
    var after := before[player.username := player];
    var u := FromIndex(after, id);
    if u != player.username { OtherRecord(before, after, player, u); InIndex(before, u); }
    hide Index, Filed;
  }

  lemma OtherRecord(before: map<string, Player>, after: map<string, Player>, player: Player, u: string)
    requires Filed(after) && after == before[player.username := player] && u in after && u != player.username
    ensures u in before && after[u] == before[u] && after[u].playerId != player.playerId
  {
    assert player.username in after && after[player.username] == player;
  }

  lemma IndexedAfter(before: map<string, Player>, player: Player, id: string)
    requires Filed(before) && Filed(before[player.username := player]) && Fits(before, player)
    requires id in Index(before) || id == player.playerId
    ensures id in Index(before[player.username := player])
  {
    var after := before[player.username := player];
    if id == player.playerId {
      InIndex(after, player.username);
    } else {
      var u := FromIndex(before, id);
      NotReplaced(before, player, u);
      assert u in after && after[u] == before[u];
      InIndex(after, u);
    }
    hide Index, Filed, Fits;
  }

  lemma NotReplaced(before: map<string, Player>, player: Player, u: string)
    requires Fits(before, player) && u in before && before[u].playerId != player.playerId
    ensures u != player.username
  {
  }

  class Store {
    var players: map<string, Player>

    /** Records are filed under their user name, and no two share a player id. */
    ghost predicate Valid()
      reads this
    {
      Filed(players)
    }

    ghost function ById(): map<string, Player>
      requires Valid()
      reads this
    {
      Index(players)
    }

    constructor ()
      ensures Valid() && ById() == map[]
    {
      players := map[];
    }

    method GetByPlayerID(playerId: string) returns (found: Option<Player>)
      requires Valid()
      ensures found == if playerId in ById() then Some(ById()[playerId]) else None
    {
      hide Index, Filed;
      var todo := players.Keys;
      while todo != {}
        invariant todo <= players.Keys
        invariant forall u :: u in players && u !in todo ==> players[u].playerId != playerId
        decreases |todo|
      {
        var u :| u in todo;
        if players[u].playerId == playerId {
          InIndex(players, u);
          return Some(players[u]);
        }
        todo := todo - {u};
      }
      if playerId in ById() { ghost var u := FromIndex(players, playerId); }
      found := None;
    }

    method Upsert(player: Player)
      requires Valid() && Fits(players, player)
      modifies this
      ensures Valid() && ById() == old(ById())[player.playerId := player]
      ensures players == old(players)[player.username := player]
    {
      IndexAfterUpsert(players, player);
      players := players[player.username := player];
    }
  }
}
