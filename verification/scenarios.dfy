/**
 Whole-session consequences of the model, worked out on concrete inputs.
 */
module Scenarios {
  import opened PyDict
  import opened GameState
  import opened Broadcast
  import opened Server

  /* Players a, b and c joined in that order, and b stands at (mx, my). */
  ghost predicate ThreeListed(w: World, mx: int, my: int) {
    && Valid(w.players)
    && w.enemies == Empty() && !w.gameStarted
    && w.players.order == ["a", "b", "c"]
    && w.players.entries["a"] == Player("a", 0, 0, false, "red")
    && w.players.entries["b"] == Player("b", mx, my, false, "blue")
    && w.players.entries["c"] == Player("c", 0, 0, false, "green")
  }

  lemma JoinA()
    ensures var w := Connect(Initial, "a");
      && Valid(w.players) && w.enemies == Empty() && !w.gameStarted
      && w.players.order == ["a"]
      && w.players.entries["a"] == Player("a", 0, 0, false, "red")
  {
    assert AssignPlayerColor(0) == "red";
  }

  lemma JoinB(w: World)
    requires Valid(w.players) && w.enemies == Empty() && !w.gameStarted
    requires w.players.order == ["a"] && w.players.entries["a"] == Player("a", 0, 0, false, "red")
    ensures var r := Connect(w, "b");
      && Valid(r.players) && r.enemies == Empty() && !r.gameStarted
      && r.players.order == ["a", "b"]
      && r.players.entries["a"] == Player("a", 0, 0, false, "red")
      && r.players.entries["b"] == Player("b", 0, 0, false, "blue")
  {
    assert "b" !in w.players.order;
    assert AssignPlayerColor(1) == "blue";
  }

  lemma JoinC(w: World)
    requires Valid(w.players) && w.enemies == Empty() && !w.gameStarted
    requires w.players.order == ["a", "b"]
    requires w.players.entries["a"] == Player("a", 0, 0, false, "red")
    requires w.players.entries["b"] == Player("b", 0, 0, false, "blue")
    ensures ThreeListed(Connect(w, "c"), 0, 0)
  {
    assert "c" !in w.players.order;
    assert AssignPlayerColor(2) == "green";
  }

  lemma ThreeJoin()
    ensures ThreeListed(Connect(Connect(Connect(Initial, "a"), "b"), "c"), 0, 0)
  {
    JoinA();
    JoinB(Connect(Initial, "a"));
    JoinC(Connect(Connect(Initial, "a"), "b"));
  }

  lemma MoveBeforeStart(w: World)
    requires ThreeListed(w, 0, 0)
    ensures Handle(w, PlayerMove("b", 5, 7)).sent == []
    ensures ThreeListed(Handle(w, PlayerMove("b", 5, 7)).world, 5, 7)
  {
  }

  /* The world of ThreeListed(_, 5, 7) once the enemy batch is in. */
  ghost predicate ThreeWithBatch(s: World) {
    && Valid(s.players) && Valid(s.enemies)
    && s.players.order == ["a", "b", "c"]
    && s.players.entries["a"] == Player("a", 0, 0, false, "red")
    && s.players.entries["b"] == Player("b", 5, 7, false, "blue")
    && s.players.entries["c"] == Player("c", 0, 0, false, "green")
    && s.enemies.order == EnemyIds
    && s.enemies.entries["enemy_1"] == Enemy("enemy_1", 10, 10)
    && s.enemies.entries["enemy_2"] == Enemy("enemy_2", 20, 20)
    && s.enemies.entries["enemy_3"] == Enemy("enemy_3", 30, 30)
  }

  lemma StartThree(w: World)
    requires ThreeListed(w, 5, 7)
    ensures ThreeWithBatch(StartGame(w))
  {
  }

  lemma SnapshotOfThree(s: World)
    requires ThreeWithBatch(s)
    ensures Snapshot(s) == GameUpdate(
      [PlayerView("a", 0, 0, "red"), PlayerView("b", 5, 7, "blue"), PlayerView("c", 0, 0, "green")],
      [EnemyView("enemy_1", 10, 10), EnemyView("enemy_2", 20, 20), EnemyView("enemy_3", 30, 30)])
  {
    var snap := Snapshot(s);
    assert |snap.players| == 3 && |snap.enemies| == 3;
  }

  lemma PlayBroadcast(w: World)
    requires ThreeListed(w, 5, 7)
    ensures var started := Handle(w, ButtonPress("play"));
      && |started.sent| == 6
      && started.sent[0] == GameUpdate(
           [PlayerView("a", 0, 0, "red"), PlayerView("b", 5, 7, "blue"), PlayerView("c", 0, 0, "green")],
           [EnemyView("enemy_1", 10, 10), EnemyView("enemy_2", 20, 20), EnemyView("enemy_3", 30, 30)])
      && started.sent[1..5] == [Countdown("3"), Countdown("2"), Countdown("1"), Countdown("GO!")]
  {
    StartThree(w);
    SnapshotOfThree(StartGame(w));
    CountdownValues();
  }

  /* Three clients join and are coloured red, blue and green; the second moves to
     (5, 7) before the start, which broadcasts nothing; a "play" press then broadcasts
     all three players (the mover at (5, 7), the others at (0, 0)) with the three
     enemies, followed by "3", "2", "1", "GO!". */
  lemma ThreePlayersThenPlay()
    ensures var w3 := Connect(Connect(Connect(Initial, "a"), "b"), "c");
      var moved := Handle(w3, PlayerMove("b", 5, 7));
      var started := Handle(moved.world, ButtonPress("play"));
      && moved.sent == []
      && |started.sent| == 6
      && started.sent[0] == GameUpdate(
           [PlayerView("a", 0, 0, "red"), PlayerView("b", 5, 7, "blue"), PlayerView("c", 0, 0, "green")],
           [EnemyView("enemy_1", 10, 10), EnemyView("enemy_2", 20, 20), EnemyView("enemy_3", 30, 30)])
      && started.sent[1..5] == [Countdown("3"), Countdown("2"), Countdown("1"), Countdown("GO!")]
  {
    var w3 := Connect(Connect(Connect(Initial, "a"), "b"), "c");
    ThreeJoin();
    MoveBeforeStart(w3);
    PlayBroadcast(Handle(w3, PlayerMove("b", 5, 7)).world);
  }

  /* `enemy_move` for an id that is not an enemy, after the start, leaves the world
     as it was; the next broadcast shows the unchanged state. */
  lemma UnknownEnemyMoveAfterStart(w: World)
    requires Inv(w) && w.gameStarted
    ensures var r := Handle(w, EnemyMove("enemy_9", 1, 1));
      r.world == w && r.sent == [Snapshot(w)]
  {
  }
}
