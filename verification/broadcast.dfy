/**
 What the server sends to its clients: the `game_update` snapshot built from the
 world state, and the `countdown` messages of the start sequence. The snapshot is a
 value; fanning it out over the connections is not modelled.
 */
module Broadcast {
  import opened PyDict
  import opened GameState

  /* One entry of the `players` list of a `game_update`. */
  datatype PlayerView = PlayerView(playerId: string, x: int, y: int, color: string)

  /* One entry of the `enemies` list of a `game_update`. */
  datatype EnemyView = EnemyView(enemyId: string, x: int, y: int)

  datatype ServerMsg =
    | GameUpdate(players: seq<PlayerView>, enemies: seq<EnemyView>)
    | Countdown(value: string)

  function ViewPlayer(p: Player): PlayerView {
    PlayerView(p.playerId, p.x, p.y, p.color)
  }

  function ViewEnemy(e: Enemy): EnemyView {
    EnemyView(e.enemyId, e.x, e.y)
  }

  /* The `game_update` message for the current state: the players and the enemies
     in dict order, each reduced to the fields a client sees. */
  function Snapshot(w: World): (m: ServerMsg)
    ensures m.GameUpdate?
    ensures Valid(w.players) ==>
      && |m.players| == Len(w.players)
      && (forall i :: 0 <= i < |m.players| ==> m.players[i] == ViewPlayer(w.players.entries[w.players.order[i]]))
    ensures Valid(w.enemies) ==>
      && |m.enemies| == Len(w.enemies)
      && (forall i :: 0 <= i < |m.enemies| ==> m.enemies[i] == ViewEnemy(w.enemies.entries[w.enemies.order[i]]))
  {
    var ps := Values(w.players);
    var es := Values(w.enemies);
    GameUpdate(
      seq(|ps|, i requires 0 <= i < |ps| => ViewPlayer(ps[i])),
      seq(|es|, i requires 0 <= i < |es| => ViewEnemy(es[i])))
  }

  /* A snapshot lists every player exactly once, under its own id, with its position
     and colour, and nothing else. */
  lemma SnapshotListsEachPlayerOnce(w: World)
    requires PlayersFiled(w)
    ensures var ps := Snapshot(w).players;
      && (forall id :: id in w.players.entries <==> exists i :: 0 <= i < |ps| && ps[i].playerId == id)
      && (forall i, j :: 0 <= i < j < |ps| ==> ps[i].playerId != ps[j].playerId)
      && (forall i :: 0 <= i < |ps| ==>
            && ps[i].playerId in w.players.entries
            && var p := w.players.entries[ps[i].playerId];
               ps[i].x == p.x && ps[i].y == p.y && ps[i].color == p.color)
  {
    var ps := Snapshot(w).players;
    var order, entries := w.players.order, w.players.entries;
    assert |ps| == |order|;
    assert forall i :: 0 <= i < |ps| ==> ps[i] == ViewPlayer(entries[order[i]]);
    assert forall i :: 0 <= i < |ps| ==> ps[i].playerId == order[i];
    forall id | id in entries
      ensures exists i :: 0 <= i < |ps| && ps[i].playerId == id
    {
      var i :| 0 <= i < |order| && order[i] == id;
      assert ps[i].playerId == id;
    }
  }

  /* A snapshot lists every enemy exactly once, under its own id, with its position,
     and nothing else. */
  lemma SnapshotListsEachEnemyOnce(w: World)
    requires EnemiesFiled(w)
    ensures var es := Snapshot(w).enemies;
      && (forall id :: id in w.enemies.entries <==> exists i :: 0 <= i < |es| && es[i].enemyId == id)
      && (forall i, j :: 0 <= i < j < |es| ==> es[i].enemyId != es[j].enemyId)
      && (forall i :: 0 <= i < |es| ==>
            && es[i].enemyId in w.enemies.entries
            && var e := w.enemies.entries[es[i].enemyId];
               es[i].x == e.x && es[i].y == e.y)
  {
    var es := Snapshot(w).enemies;
    var order, entries := w.enemies.order, w.enemies.entries;
    assert |es| == |order|;
    assert forall i :: 0 <= i < |es| ==> es[i] == ViewEnemy(entries[order[i]]);
    assert forall i :: 0 <= i < |es| ==> es[i].enemyId == order[i];
    forall id | id in entries
      ensures exists i :: 0 <= i < |es| && es[i].enemyId == id
    {
      var i :| 0 <= i < |order| && order[i] == id;
      assert es[i].enemyId == id;
    }
  }

  // ---------------------------------------------------------------------------
  // Countdown

  /* The first number `start_game` counts down from. */
  const CountdownFrom: nat := 3

  /* `range(n, 0, -1)`: n, n - 1, ..., 1. */
  function RangeDown(n: nat): (r: seq<nat>)
    ensures |r| == n
    ensures forall i :: 0 <= i < n ==> r[i] == n - i
  {
    if n == 0 then [] else [n] + RangeDown(n - 1)
  }

  /* The `countdown` messages of `start_game`, in the order they are sent. */
  function CountdownMessages(): (ms: seq<ServerMsg>)
    ensures |ms| == CountdownFrom + 1
    ensures forall i :: 0 <= i < |ms| ==> ms[i].Countdown?
    ensures ms[|ms| - 1] == Countdown("GO!")
  {
    var counts := RangeDown(CountdownFrom);
    seq(|counts|, i requires 0 <= i < |counts| => Countdown(DigitString(counts[i])))
      + [Countdown("GO!")]
  }

  /* The countdown reads "3", "2", "1", "GO!". */
  lemma CountdownValues()
    ensures CountdownMessages() ==
      [Countdown("3"), Countdown("2"), Countdown("1"), Countdown("GO!")]
  {
    var counts := RangeDown(CountdownFrom);
    assert counts == [3, 2, 1];
    assert DigitString(3) == "3" && DigitString(2) == "2" && DigitString(1) == "1";
  }
}
