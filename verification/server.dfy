/**
 The message handling of `handle_client` and the start sequence of `start_game`, as
 a sequential machine: each event (a client joins, a client leaves, a client message
 arrives) takes the world to a new world and yields the messages broadcast because
 of it. The broadcast loop `broadcast_game_state` is represented by its first tick.
 */
module Server {
  import opened PyDict
  import opened GameState
  import opened Broadcast

  /* An already-decoded client message, dispatched on its "type" field. `Other` stands
     for a message whose type is none of "player_move", "enemy_move" and
     "button_press"; those three types are always decoded to their own constructors. */
  datatype ClientMsg =
    | PlayerMove(playerId: string, x: int, y: int)
    | EnemyMove(enemyId: string, x: int, y: int)
    | ButtonPress(button: string)
    | Other(kind: string)

  /* The world after an event and what was broadcast because of it. */
  datatype Step = Step(world: World, sent: seq<ServerMsg>)

  datatype Event =
    | Join(id: string)
    | Leave(id: string)
    | Receive(msg: ClientMsg)

  /* The first tick of `broadcast_game_state`: one snapshot while the game runs,
     nothing before it has started (the loop condition is false on entry). */
  function BroadcastTick(w: World): (out: seq<ServerMsg>)
    ensures |out| <= 1
    ensures out != [] <==> w.gameStarted
    ensures w.gameStarted ==> out == [Snapshot(w)]
  {
    if w.gameStarted then [Snapshot(w)] else []
  }

  /* `start_game`: raise the latch, create the enemies, broadcast the state, count
     down, and enter the broadcast loop. */
  function Start(w: World): (r: Step)
    ensures r.world.gameStarted
    ensures r.world.players == w.players
    ensures r.world.enemies == CreateEnemies(w.enemies)
    ensures |r.sent| == CountdownFrom + 3
    ensures r.sent[0] == Snapshot(r.world) && r.sent[|r.sent| - 1] == Snapshot(r.world)
    ensures r.sent[1..|r.sent| - 1] == CountdownMessages()
  {
    var started := StartGame(w);
    Step(started, [Snapshot(started)] + CountdownMessages() + BroadcastTick(started))
  }

  /* The dispatch of one message in the read loop of `handle_client`. */
  function Handle(w: World, msg: ClientMsg): (r: Step)
    ensures r.world.players.entries.Keys == w.players.entries.Keys
    ensures r.world.gameStarted <==> w.gameStarted || msg == ButtonPress("play")
    ensures !r.world.gameStarted ==> r.sent == []
    ensures w.gameStarted ==> r.world.enemies.entries.Keys == w.enemies.entries.Keys
    ensures msg.PlayerMove? ==>
      r.world == MovePlayer(w, msg.playerId, msg.x, msg.y) && r.sent == BroadcastTick(r.world)
    ensures msg.EnemyMove? ==>
      r.world == MoveEnemy(w, msg.enemyId, msg.x, msg.y) && r.sent == BroadcastTick(r.world)
    ensures msg == ButtonPress("play") ==> r.world == PressPlay(w)
    ensures msg == ButtonPress("play") && !w.gameStarted ==> r == Start(w)
    ensures msg == ButtonPress("play") && w.gameStarted ==> r == Step(w, [])
    ensures msg.Other? || (msg.ButtonPress? && msg.button != "play") ==> r == Step(w, [])
  {
    match msg
    case PlayerMove(id, x, y) =>
      var w' := MovePlayer(w, id, x, y);
      Step(w', BroadcastTick(w'))
    case EnemyMove(id, x, y) =>
      var w' := MoveEnemy(w, id, x, y);
      Step(w', BroadcastTick(w'))
    case ButtonPress(button) =>
      if button == "play" && !w.gameStarted then Start(w) else Step(w, [])
    case Other(_) =>
      Step(w, [])
  }

  /* One event of the server. */
  function Apply(w: World, e: Event): (r: Step)
    ensures e.Join? ==> e.id in r.world.players.entries && r.sent == []
    ensures e.Leave? ==> e.id !in r.world.players.entries && r.sent == []
    ensures forall k :: k in w.players.entries && (e.Join? || (e.Leave? && k != e.id)) ==>
              k in r.world.players.entries && r.world.players.entries[k] == w.players.entries[k]
    ensures r.world.gameStarted <==> w.gameStarted || e == Receive(ButtonPress("play"))
    ensures !r.world.gameStarted ==> r.sent == []
    ensures e.Join? ==> r == Step(Connect(w, e.id), [])
    ensures e.Leave? ==> r == Step(Disconnect(w, e.id), [])
    ensures e.Receive? ==> r == Handle(w, e.msg)
  {
    match e
    case Join(id) => Step(Connect(w, id), [])
    case Leave(id) => Step(Disconnect(w, id), [])
    case Receive(msg) => Handle(w, msg)
  }

  /* The world after a sequence of events, applied first to last. */
  function Run(w: World, events: seq<Event>): World
    decreases |events|
  {
    if events == [] then w
    else Apply(Run(w, events[..|events| - 1]), events[|events| - 1]).world
  }

  // ---------------------------------------------------------------------------
  // The invariant

  lemma ApplyKeepsInv(w: World, e: Event)
    requires Inv(w)
    ensures Inv(Apply(w, e).world)
  {
    match e
    case Join(id) => ConnectKeepsInv(w, id);
    case Leave(id) => DisconnectKeepsInv(w, id);
    case Receive(msg) =>
      match msg
      case PlayerMove(id, x, y) => MovePlayerKeepsInv(w, id, x, y);
      case EnemyMove(id, x, y) => MoveEnemyKeepsInv(w, id, x, y);
      case ButtonPress(button) => PressPlayKeepsInv(w);
      case Other(_) =>
  }

  lemma {:induction false} RunKeepsInv(w: World, events: seq<Event>)
    requires Inv(w)
    ensures Inv(Run(w, events))
    decreases |events|
  {
    if events != [] {
      RunKeepsInv(w, events[..|events| - 1]);
      ApplyKeepsInv(Run(w, events[..|events| - 1]), events[|events| - 1]);
    }
  }

  /* Every world the server can reach from its initial state satisfies the invariant. */
  lemma ReachableInv(events: seq<Event>)
    ensures Inv(Run(Initial, events))
  {
    InitialInv();
    RunKeepsInv(Initial, events);
  }

  // ---------------------------------------------------------------------------
  // The start latch

  /* A second "play" press is ignored: no second enemy batch, no second countdown. */
  lemma SecondPlayIsIgnored(w: World)
    ensures var first := Handle(w, ButtonPress("play"));
      Handle(first.world, ButtonPress("play")) == Step(first.world, [])
  {
  }

  /* Before the start there are no enemies, so `enemy_move` changes nothing and
     broadcasts nothing. */
  lemma EnemyMoveBeforeStartIsIgnored(w: World, id: string, x: int, y: int)
    requires Inv(w) && !w.gameStarted
    ensures Handle(w, EnemyMove(id, x, y)) == Step(w, [])
  {
  }

  /* Once started, the game stays started and the enemy ids stay exactly the batch:
     enemies are created once and never added or removed afterwards. */
  lemma {:induction false} StartedStaysStarted(w: World, events: seq<Event>)
    requires Inv(w) && w.gameStarted
    ensures Run(w, events).gameStarted
    ensures Run(w, events).enemies.entries.Keys == w.enemies.entries.Keys
    decreases |events|
  {
    if events != [] {
      var before := Run(w, events[..|events| - 1]);
      StartedStaysStarted(w, events[..|events| - 1]);
      RunKeepsInv(w, events[..|events| - 1]);
      var e := events[|events| - 1];
      if e.Receive? {
        assert Apply(before, e) == Handle(before, e.msg);
      }
    }
  }

  /* Until someone presses "play" there are no enemies. */
  lemma {:induction false} NoEnemiesBeforePlay(w: World, events: seq<Event>)
    requires Inv(w) && !w.gameStarted
    requires forall i :: 0 <= i < |events| ==> events[i] != Receive(ButtonPress("play"))
    ensures !Run(w, events).gameStarted
    ensures Run(w, events).enemies == Empty()
    decreases |events|
  {
    if events != [] {
      NoEnemiesBeforePlay(w, events[..|events| - 1]);
      RunKeepsInv(w, events[..|events| - 1]);
      var before := Run(w, events[..|events| - 1]);
      ApplyKeepsInv(before, events[|events| - 1]);
    }
  }

  // ---------------------------------------------------------------------------
  // Positions: the last move wins

  /* The position a player has after `events`, given where it stood before them: the
     coordinates of the last `player_move` naming it, if any. */
  function LastPosition(id: string, events: seq<Event>, start: (int, int)): (int, int)
    decreases |events|
  {
    if events == [] then start
    else
      var e := events[|events| - 1];
      if e.Receive? && e.msg.PlayerMove? && e.msg.playerId == id then (e.msg.x, e.msg.y)
      else LastPosition(id, events[..|events| - 1], start)
  }

  /* A player that does not leave ends up where the last `player_move` for it put it,
     whatever other events are interleaved, and keeps its colour. */
  lemma {:induction false} LastMoveWins(w: World, id: string, events: seq<Event>)
    requires id in w.players.entries
    requires forall i :: 0 <= i < |events| ==> events[i] != Leave(id)
    ensures id in Run(w, events).players.entries
    ensures var p, q := w.players.entries[id], Run(w, events).players.entries[id];
      && (q.x, q.y) == LastPosition(id, events, (p.x, p.y))
      && q.color == p.color && q.playerId == p.playerId
    decreases |events|
  {
    if events != [] {
      LastMoveWins(w, id, events[..|events| - 1]);
    }
  }

  // ---------------------------------------------------------------------------
  // Colours by join order

  function Joins(ids: seq<string>): (es: seq<Event>)
    ensures |es| == |ids|
    ensures forall i :: 0 <= i < |ids| ==> es[i] == Join(ids[i])
  {
    seq(|ids|, i requires 0 <= i < |ids| => Join(ids[i]))
  }

  /* Players ids[..n] joined in order, each at (0, 0), not ready, coloured by its
     join position. */
  ghost predicate JoinedInOrder(w: World, ids: seq<string>) {
    && Valid(w.players)
    && w.players.order == ids
    && forall i :: 0 <= i < |ids| ==>
         && ids[i] in w.players.entries
         && w.players.entries[ids[i]] == Player(ids[i], 0, 0, false, AssignPlayerColor(i))
  }

  lemma JoinNext(w: World, ids: seq<string>, id: string)
    requires JoinedInOrder(w, ids) && id !in ids
    ensures JoinedInOrder(Connect(w, id), ids + [id])
  {
  }

  /* Clients joining an empty server one after another with fresh ids are listed in
     join order at (0, 0), not ready, coloured red, blue, green, yellow, red, ... */
  lemma {:induction false} JoinColorsRoundRobin(ids: seq<string>)
    requires Distinct(ids)
    ensures JoinedInOrder(Run(Initial, Joins(ids)), ids)
    decreases |ids|
  {
    if ids != [] {
      var n := |ids| - 1;
      assert Joins(ids)[..n] == Joins(ids[..n]);
      JoinColorsRoundRobin(ids[..n]);
      assert ids[n] !in ids[..n];
      JoinNext(Run(Initial, Joins(ids[..n])), ids[..n], ids[n]);
      assert ids[..n] + [ids[n]] == ids;
    }
  }

  /* The colour index is the player count at join time, not the join number: after a
     leave, two players present at once can share a colour. */
  lemma ColorFollowsCountNotJoinOrder()
    ensures var w := Connect(Disconnect(Connect(Connect(Initial, "a"), "b"), "a"), "c");
      && "b" in w.players.entries && w.players.entries["b"].color == "blue"
      && "c" in w.players.entries && w.players.entries["c"].color == "blue"
  {
    var w1 := Connect(Initial, "a");
    assert w1.players.order == ["a"];
    var w2 := Connect(w1, "b");
    assert w2.players.order == ["a", "b"];
    assert w2.players.entries["b"].color == AssignPlayerColor(1) == "blue";
    var w3 := Disconnect(w2, "a");
    assert w3.players.order == ["b"];
    var w4 := Connect(w3, "c");
    assert w4.players.entries["c"].color == AssignPlayerColor(1);
  }
}
