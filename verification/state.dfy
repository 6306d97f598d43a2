/**
 The game server's world state: the `players` and `enemies` dicts and the
 `game_started` latch, with the transitions that change them. Players are keyed by
 their player id (the key and the `player_id` field are the same string).
 */
module GameState {
  import opened PyDict

  datatype Player = Player(playerId: string, x: int, y: int, ready: bool, color: string)

  datatype Enemy = Enemy(enemyId: string, x: int, y: int)

  datatype World = World(
    players: Dict<string, Player>,
    enemies: Dict<string, Enemy>,
    gameStarted: bool)

  /* The state the server process starts in. */
  const Initial: World := World(Empty(), Empty(), false)

  // ---------------------------------------------------------------------------
  // Colours

  const Colors: seq<string> := ["red", "blue", "green", "yellow"]

  /* `assign_player_color(index)` */
  function AssignPlayerColor(index: nat): (c: string)
    ensures c in Colors
    ensures c == "red" <==> index % 4 == 0
  {
    Colors[index % |Colors|]
  }

  /* The palette repeats every four joins. */
  lemma ColorIsPeriodic(index: nat)
    ensures AssignPlayerColor(index + 4) == AssignPlayerColor(index)
  {
  }

  /* Any four consecutive indices get four different colours. */
  lemma ColorsOfFourConsecutiveDiffer(i: nat, j: nat)
    requires i < j < i + 4
    ensures AssignPlayerColor(i) != AssignPlayerColor(j)
  {
    var a, b := i % 4, j % 4;
    assert i == 4 * (i / 4) + a && j == 4 * (j / 4) + b;
    assert a != b;
  }

  // ---------------------------------------------------------------------------
  // Enemies

  /* The starting coordinates `create_enemies` walks through, in order. */
  const Spawns: seq<(int, int)> := [(10, 10), (20, 20), (30, 30)]

  /* The decimal digit of d. */
  function DigitString(d: nat): (s: string)
    requires d < 10
    ensures |s| == 1 && '0' <= s[0] <= '9'
    ensures s[0] as int - '0' as int == d
  {
    [('0' as int + d) as char]
  }

  /* `f"enemy_{i + 1}"` for the i-th spawn point. */
  function EnemyId(i: nat): (id: string)
    requires i < |Spawns|
    ensures |id| == 7 && id[..6] == "enemy_"
  {
    "enemy_" + DigitString(i + 1)
  }

  const EnemyIds: seq<string> := ["enemy_1", "enemy_2", "enemy_3"]

  /* The loop of `create_enemies` from spawn point i onwards. */
  function SpawnFrom(enemies: Dict<string, Enemy>, i: nat): (r: Dict<string, Enemy>)
    requires i <= |Spawns|
    decreases |Spawns| - i
  {
    if i == |Spawns| then enemies
    else
      SpawnFrom(Put(enemies, EnemyId(i), SpawnEnemy(i)), i + 1)
  }

  /* The enemy `create_enemies` writes for spawn point i. */
  function SpawnEnemy(i: nat): Enemy
    requires i < |Spawns|
  {
    Enemy(EnemyId(i), Spawns[i].0, Spawns[i].1)
  }

  /* Spawning into a dict that already holds the remaining batch leaves it as it is. */
  lemma {:induction false} SpawnFromHolds(enemies: Dict<string, Enemy>, i: nat)
    requires i <= |Spawns|
    requires forall j :: i <= j < |Spawns| ==>
               EnemyId(j) in enemies.entries && enemies.entries[EnemyId(j)] == SpawnEnemy(j)
    ensures SpawnFrom(enemies, i) == enemies
    decreases |Spawns| - i
  {
    if i < |Spawns| {
      assert enemies.entries[EnemyId(i) := SpawnEnemy(i)] == enemies.entries;
      assert Put(enemies, EnemyId(i), SpawnEnemy(i)) == enemies;
      SpawnFromHolds(enemies, i + 1);
    }
  }

  /* The spawn points, spelled out. */
  lemma BatchIsSpawns()
    ensures EnemyId(0) == "enemy_1" && SpawnEnemy(0) == Enemy("enemy_1", 10, 10)
    ensures EnemyId(1) == "enemy_2" && SpawnEnemy(1) == Enemy("enemy_2", 20, 20)
    ensures EnemyId(2) == "enemy_3" && SpawnEnemy(2) == Enemy("enemy_3", 30, 30)
  {
  }

  /* `create_enemies()`: writes the fixed batch of three enemies over whatever is there. */
  function CreateEnemies(enemies: Dict<string, Enemy>): (r: Dict<string, Enemy>)
    ensures r.entries.Keys == enemies.entries.Keys + {"enemy_1", "enemy_2", "enemy_3"}
    ensures r.entries["enemy_1"] == Enemy("enemy_1", 10, 10)
    ensures r.entries["enemy_2"] == Enemy("enemy_2", 20, 20)
    ensures r.entries["enemy_3"] == Enemy("enemy_3", 30, 30)
    ensures forall k :: k in enemies.entries && k !in EnemyIds ==> r.entries[k] == enemies.entries[k]
    ensures Valid(enemies) ==> Valid(r)
    ensures enemies == Empty() ==> r.order == EnemyIds
  {
    assert EnemyId(0) == "enemy_1" && EnemyId(1) == "enemy_2" && EnemyId(2) == "enemy_3";
    SpawnFrom(enemies, 0)
  }

  /* Writing the batch a second time changes nothing. */
  lemma CreateEnemiesIdempotent(enemies: Dict<string, Enemy>)
    requires Valid(enemies)
    ensures CreateEnemies(CreateEnemies(enemies)) == CreateEnemies(enemies)
  {
    var once := CreateEnemies(enemies);
    BatchIsSpawns();
    assert once.entries[EnemyId(0)] == SpawnEnemy(0);
    assert once.entries[EnemyId(1)] == SpawnEnemy(1);
    assert once.entries[EnemyId(2)] == SpawnEnemy(2);
    forall j | 0 <= j < |Spawns|
      ensures EnemyId(j) in once.entries && once.entries[EnemyId(j)] == SpawnEnemy(j)
    {
      assert j == 0 || j == 1 || j == 2;
    }
    SpawnFromHolds(once, 0);
    assert CreateEnemies(once) == SpawnFrom(once, 0);
  }

  // ---------------------------------------------------------------------------
  // Transitions

  /* A client connects under the fresh id `id` (the source derives it from the
     connection object; here the caller supplies it). */
  function Connect(w: World, id: string): (r: World)
    ensures id in w.players.entries ==> r == w
    ensures id !in w.players.entries ==>
      && r.players.entries.Keys == w.players.entries.Keys + {id}
      && r.players.entries[id] == Player(id, 0, 0, false, AssignPlayerColor(Len(w.players)))
      && (forall k :: k in w.players.entries ==> r.players.entries[k] == w.players.entries[k])
    ensures Valid(w.players) && id !in w.players.entries ==> r.players.order == w.players.order + [id]
    ensures r.enemies == w.enemies && r.gameStarted == w.gameStarted
  {
    if id in w.players.entries then w
    else
      var p := Player(id, 0, 0, false, AssignPlayerColor(Len(w.players)));
      w.(players := Put(w.players, id, p))
  }

  /* The client whose player id is `id` goes away. */
  function Disconnect(w: World, id: string): (r: World)
    ensures r.players.entries.Keys == w.players.entries.Keys - {id}
    ensures forall k :: k in r.players.entries ==> r.players.entries[k] == w.players.entries[k]
    ensures Valid(w.players) && id !in w.players.entries ==> r == w
    ensures Valid(w.players) ==> forall k :: k in r.players.order <==> k in w.players.order && k != id
    ensures r.enemies == w.enemies && r.gameStarted == w.gameStarted
  {
    w.(players := Remove(w.players, id))
  }

  /* The players after the leaver keep their places relative to each other, so the
     next snapshot lists the remaining players in the order they joined. */
  lemma DisconnectKeepsOthersInOrder(w: World, id: string, i: nat)
    requires Valid(w.players)
    requires i < |w.players.order| && w.players.order[i] == id
    ensures Disconnect(w, id).players.order == w.players.order[..i] + w.players.order[i + 1..]
    ensures Len(Disconnect(w, id).players) == Len(w.players) - 1
  {
    WithoutCutsOut(w.players.order, id, i);
  }

  /* `player_move`: moves a known player, ignores an unknown id. */
  function MovePlayer(w: World, id: string, x: int, y: int): (r: World)
    ensures id !in w.players.entries ==> r == w
    ensures r.players.entries.Keys == w.players.entries.Keys
    ensures id in w.players.entries ==>
      var before, after := w.players.entries[id], r.players.entries[id];
      && after.x == x && after.y == y
      && after.playerId == before.playerId && after.color == before.color && after.ready == before.ready
    ensures forall k :: k in w.players.entries && k != id ==> r.players.entries[k] == w.players.entries[k]
    ensures Valid(w.players) ==> r.players.order == w.players.order
    ensures r.enemies == w.enemies && r.gameStarted == w.gameStarted
  {
    if id !in w.players.entries then w
    else
      var p := w.players.entries[id];
      w.(players := Put(w.players, id, p.(x := x, y := y)))
  }

  /* `enemy_move`: moves a known enemy, ignores an unknown id. */
  function MoveEnemy(w: World, id: string, x: int, y: int): (r: World)
    ensures id !in w.enemies.entries ==> r == w
    ensures r.enemies.entries.Keys == w.enemies.entries.Keys
    ensures id in w.enemies.entries ==>
      r.enemies.entries[id] == Enemy(w.enemies.entries[id].enemyId, x, y)
    ensures forall k :: k in w.enemies.entries && k != id ==> r.enemies.entries[k] == w.enemies.entries[k]
    ensures Valid(w.enemies) ==> r.enemies.order == w.enemies.order
    ensures r.players == w.players && r.gameStarted == w.gameStarted
  {
    if id !in w.enemies.entries then w
    else
      var e := w.enemies.entries[id];
      w.(enemies := Put(w.enemies, id, e.(x := x, y := y)))
  }

  /* The state effect of `start_game`: raise the latch and create the enemy batch. */
  function StartGame(w: World): (r: World)
    ensures r.gameStarted
    ensures r.enemies.entries.Keys == w.enemies.entries.Keys + {"enemy_1", "enemy_2", "enemy_3"}
    ensures r.enemies == CreateEnemies(w.enemies)
    ensures r.enemies.entries["enemy_1"] == Enemy("enemy_1", 10, 10)
    ensures r.enemies.entries["enemy_2"] == Enemy("enemy_2", 20, 20)
    ensures r.enemies.entries["enemy_3"] == Enemy("enemy_3", 30, 30)
    ensures forall k :: k in w.enemies.entries && k !in EnemyIds ==> r.enemies.entries[k] == w.enemies.entries[k]
    ensures r.players == w.players
  {
    w.(gameStarted := true, enemies := CreateEnemies(w.enemies))
  }

  /* `button_press` with button "play": starts the game unless it has started already. */
  function PressPlay(w: World): (r: World)
    ensures w.gameStarted ==> r == w
    ensures !w.gameStarted ==> r == StartGame(w)
    ensures r.gameStarted
  {
    if w.gameStarted then w else StartGame(w)
  }

  // ---------------------------------------------------------------------------
  // The invariant every reachable world keeps

  /* Every dict's order matches its keys, every player is filed under its own id and
     wears a palette colour, every enemy under its own id; before the start there
     are no enemies, after it exactly the batch's three ids. */
  ghost predicate Inv(w: World) {
    && PlayersFiled(w)
    && (forall k :: k in w.players.entries ==> w.players.entries[k].color in Colors)
    && EnemiesFiled(w)
    && (!w.gameStarted ==> w.enemies == Empty())
    && (w.gameStarted ==> w.enemies.entries.Keys == {"enemy_1", "enemy_2", "enemy_3"})
  }

  /* The players dict is consistent and files every player under its own id. */
  ghost predicate PlayersFiled(w: World) {
    && Valid(w.players)
    && (forall k :: k in w.players.entries ==> w.players.entries[k].playerId == k)
  }

  /* The enemies dict is consistent and files every enemy under its own id. */
  ghost predicate EnemiesFiled(w: World) {
    && Valid(w.enemies)
    && (forall k :: k in w.enemies.entries ==> w.enemies.entries[k].enemyId == k)
  }

  lemma InitialInv()
    ensures Inv(Initial)
  {
  }

  lemma ConnectKeepsInv(w: World, id: string)
    requires Inv(w)
    ensures Inv(Connect(w, id))
  {
  }

  lemma DisconnectKeepsInv(w: World, id: string)
    requires Inv(w)
    ensures Inv(Disconnect(w, id))
  {
  }

  lemma MovePlayerKeepsInv(w: World, id: string, x: int, y: int)
    requires Inv(w)
    ensures Inv(MovePlayer(w, id, x, y))
  {
  }

  lemma MoveEnemyKeepsInv(w: World, id: string, x: int, y: int)
    requires Inv(w)
    ensures Inv(MoveEnemy(w, id, x, y))
  {
  }

  lemma PressPlayKeepsInv(w: World)
    requires Inv(w)
    ensures Inv(PressPlay(w))
  {
  }

  /* A player who joins and leaves again leaves no trace. */
  lemma ConnectThenDisconnect(w: World, id: string)
    requires Inv(w)
    requires id !in w.players.entries
    ensures Disconnect(Connect(w, id), id) == w
  {
    var r := Disconnect(Connect(w, id), id);
    assert r.players.entries == w.players.entries;
    WithoutCutsOut(w.players.order + [id], id, |w.players.order|);
    assert (w.players.order + [id])[..|w.players.order|] == w.players.order;
  }
}
