/**
 The `player_move` lookup of `handle_client` as it is written, for comparison with the
 corrected model in GameState. The source files each player under its connection
 object but looks it up under the string `player_id` taken from the message; a string
 never equals a connection object, so the lookup always raises KeyError.
 */
module KeyMismatch {
  import opened GameState

  /* A key of the source's `players` dict: a connection object, or a string. */
  datatype Key = Socket(handle: nat) | Text(s: string)

  datatype MoveOutcome = Moved(players: map<Key, Player>) | KeyError(missing: Key)

  /* Every key is a connection: what `handle_client` builds. */
  ghost predicate KeyedBySocket(players: map<Key, Player>) {
    forall k :: k in players ==> k.Socket?
  }

  /* The insertion of `handle_client` as written: the new player is filed under its
     connection, and its `player_id` is a string derived from that connection. */
  function ConnectAsWritten(players: map<Key, Player>, socket: nat, clientId: string): (r: map<Key, Player>)
    ensures Socket(socket) in r
    ensures Socket(socket) in players ==> r == players
    ensures Socket(socket) !in players ==>
      r[Socket(socket)] == Player(clientId, 0, 0, false, AssignPlayerColor(|players|))
    ensures KeyedBySocket(players) ==> KeyedBySocket(r)
  {
    if Socket(socket) in players then players
    else players[Socket(socket) := Player(clientId, 0, 0, false, AssignPlayerColor(|players|))]
  }

  /* The `player_move` branch as written: `players[data['player_id']]`. */
  function PlayerMoveAsWritten(players: map<Key, Player>, playerId: string, x: int, y: int): (r: MoveOutcome)
    ensures r.KeyError? <==> Text(playerId) !in players
    ensures r.KeyError? ==> r.missing == Text(playerId)
    ensures r.Moved? ==> r.players.Keys == players.Keys
    ensures r.Moved? ==> r.players[Text(playerId)].x == x && r.players[Text(playerId)].y == y
  {
    var key := Text(playerId);
    if key !in players then KeyError(key)
    else Moved(players[key := players[key].(x := x, y := y)])
  }

  /* As written, no `player_move` ever finds its player. */
  lemma MoveAsWrittenAlwaysFails(players: map<Key, Player>, playerId: string, x: int, y: int)
    requires KeyedBySocket(players)
    ensures PlayerMoveAsWritten(players, playerId, x, y) == KeyError(Text(playerId))
  {
    assert Text(playerId) !in players;
  }

  /* The input that shows it: one client, connection 1, id "1", moves itself to
     (5, 7). As written the lookup raises KeyError; the corrected model moves it. */
  lemma OwnMoveRaisesKeyError()
    ensures var players := ConnectAsWritten(map[], 1, "1");
      PlayerMoveAsWritten(players, "1", 5, 7) == KeyError(Text("1"))
    ensures var w := MovePlayer(Connect(Initial, "1"), "1", 5, 7);
      "1" in w.players.entries && w.players.entries["1"].x == 5 && w.players.entries["1"].y == 7
  {
    var players := ConnectAsWritten(map[], 1, "1");
    assert players.Keys == {Socket(1)};
  }
}
