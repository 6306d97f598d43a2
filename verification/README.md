# Game server world state, in Dafny

This project models the sequential core of a small multiplayer game server
(`game_server.py`). The server keeps a `players` dict, an `enemies` dict and a
`game_started` flag. Clients join and leave. They send `player_move`,
`enemy_move` and `button_press` messages. The server broadcasts `game_update`
snapshots and, at the start, a `countdown`.

The model treats all of this as pure transitions over an immutable world value:

- `PyDict` (dict.dfy) models a Python dict. It holds a map plus the insertion
  order of its keys, because the snapshot lists players and enemies in dict order.
- `GameState` (state.dfy) holds the player, enemy and world records. It also has
  the colour palette, `create_enemies`, and the connect, disconnect, move and start
  transitions. Its invariant `Inv` is kept by every transition.
- `Broadcast` (broadcast.dfy) builds the `game_update` snapshot and the countdown
  messages.
- `Server` (server.dfy) dispatches decoded client messages, runs event traces, and
  proves the lemmas that span several events: the start latch, last-write-wins and
  round-robin colours.
- `Scenarios` (scenarios.dfy) works a complete session through on concrete inputs.
- `KeyMismatch` (keymismatch.dfy) models the source's `player_move` lookup as
  written (see Findings).

Players are keyed by their player id, so the dict key and the `player_id` field
are the same string. The source instead files players under the connection object
but looks them up by the string `player_id`. That mismatch is a defect, and the
model corrects it (see Findings). A `player_move` for an unknown id is a no-op, as
an `enemy_move` for an unknown id already is in the source.

Notes on how `game_server.py` behaves:

- Colours are indexed by the number of players present at join time (line 46), not
  by join order. After someone leaves, two players can share a colour; see
  `Server.ColorFollowsCountNotJoinOrder`.
- The lifecycle is one boolean. `game_started` becomes true before the countdown is
  sent (line 88), so there is no separate counting-down state. A second "play" is
  ignored from that moment on.
- Broadcasts are not scheduled independently. A move broadcasts only when the game
  has started, because the loop condition at line 18 is false before that. `start_game`
  sends a snapshot, then the countdown, then enters the loop.

## Model

| member | source | states |
|---|---|---|
| `GameState.AssignPlayerColor` | game_server.py:120-122 | the colour is always one of red, blue, green, yellow, and it is red exactly when the index is a multiple of four |
| `GameState.ColorIsPeriodic` | game_server.py:120-122 | the palette wraps: index i + 4 gets the same colour as index i, so the fifth joiner is red again |
| `GameState.ColorsOfFourConsecutiveDiffer` | game_server.py:120-122 | any four consecutive indices get four different colours |
| `GameState.CreateEnemies` | game_server.py:114-118 | after `create_enemies` the dict holds enemy_1, enemy_2, enemy_3 at (10,10), (20,20), (30,30) plus the enemies it held before; other enemies are untouched; on an empty dict the order is enemy_1, enemy_2, enemy_3 |
| `GameState.CreateEnemiesIdempotent` | game_server.py:114-118 | creating the batch twice gives the same dict as creating it once (the second pass overwrites with equal values) |
| `GameState.Connect` | game_server.py:38-47 | a new id adds exactly one player at (0,0), not ready, coloured by the player count before the insertion, appended last in dict order, with every other player and all enemies unchanged; an id already present changes nothing |
| `GameState.Disconnect` | game_server.py:81-82 | the leaver's entry is removed, every other player entry is unchanged, and enemies and the start flag are untouched |
| `GameState.DisconnectKeepsOthersInOrder` | game_server.py:81-82 | removing a player cuts it out of the dict order, leaves the others in their relative order, and lowers `len(players)` by one |
| `GameState.ConnectThenDisconnect` | game_server.py:40-47 | a fresh player who joins and then leaves restores the world exactly |
| `GameState.MovePlayer` | game_server.py:55-59 | a known player gets the new x and y and keeps its id, colour and ready flag; all other players, the dict order, the enemies and the flag are unchanged; an unknown id changes nothing |
| `GameState.MoveEnemy` | game_server.py:65-71 | a known enemy gets the new x and y under its own id; all other enemies, the players and the flag are unchanged; an unknown id changes nothing |
| `GameState.StartGame` | game_server.py:86-91 | starting raises the latch, writes enemy_1, enemy_2, enemy_3 at (10,10), (20,20), (30,30) exactly as `create_enemies` does, leaves any other enemy entry alone, and leaves the players unchanged |
| `GameState.PressPlay` | game_server.py:76-79 | "play" while waiting starts the game; while started it changes nothing; afterwards the game is started either way |
| `GameState.InitialInv` | game_server.py:5-7 | the empty start state satisfies the world invariant |
| `GameState.ConnectKeepsInv` | game_server.py:40-47 | a join keeps every player filed under its own id with a palette colour, and keeps the dict order consistent |
| `GameState.DisconnectKeepsInv` | game_server.py:81-82 | a leave keeps the world invariant |
| `GameState.MovePlayerKeepsInv` | game_server.py:55-59 | a player move keeps the world invariant |
| `GameState.MoveEnemyKeepsInv` | game_server.py:65-71 | an enemy move keeps the world invariant, including the fixed set of enemy ids |
| `GameState.PressPlayKeepsInv` | game_server.py:76-91 | the start keeps the invariant: before it there are no enemies, after it exactly the three batch ids |
| `PyDict.Put` | game_server.py:41-47 | `d[k] = v` (also lines 58-59, 69-70, 118): k maps to v, every other key keeps its value, an existing key keeps its place in the dict order and a new key goes last |
| `PyDict.Remove` | game_server.py:82 | `del d[k]`: k is gone, every other key keeps its value, and the dict stays consistent |
| `PyDict.Values` | game_server.py:21-28 | `.values()` yields one value per key, in the dict's insertion order |
| `PyDict.LenCountsEntries` | game_server.py:46 | `len(players)` equals the number of players, because the insertion order lists each key once |
| `Broadcast.Snapshot` | game_server.py:19-29 | the `game_update` has one player entry per dict position, carrying that player's id, x, y and colour, and one enemy entry per position, carrying id, x and y, in dict order |
| `Broadcast.SnapshotListsEachPlayerOnce` | game_server.py:21-24 | an id is in the snapshot's player list exactly when it is a player; no id appears twice; each entry shows that player's position and colour |
| `Broadcast.SnapshotListsEachEnemyOnce` | game_server.py:25-28 | an id is in the snapshot's enemy list exactly when it is an enemy; no id appears twice; each entry shows that enemy's position |
| `Broadcast.RangeDown` | game_server.py:108 | `range(n, 0, -1)` has n elements, and element i is n - i |
| `Broadcast.CountdownMessages` | game_server.py:108-111 | the countdown has four messages, all of type countdown, and the last is "GO!" |
| `Broadcast.CountdownValues` | game_server.py:108-111 | the countdown values are "3", "2", "1", "GO!" in that order |
| `Server.BroadcastTick` | game_server.py:16-32 | the broadcast loop sends exactly the snapshot of the current state when the game has started, and nothing before that |
| `Server.Start` | game_server.py:86-112 | `start_game` raises the latch, creates the batch, keeps the players, and sends a snapshot, the four countdown messages, and then a snapshot from the broadcast loop |
| `Server.Handle` | game_server.py:51-79 | no message adds or removes a player; the game is started after a message exactly when it was started before or the message is "play"; a "play" press has the effect of `PressPlay`; nothing is sent before the start; after the start the enemy ids never change; "play" while started, another button, or an unknown type change nothing and send nothing |
| `Server.Apply` | game_server.py:35-83 | after a join the joiner is a player, after a leave the leaver is not, and the other players keep their entries; joins and leaves send nothing; the game is started after an event exactly when it was before or the event is a "play" press; nothing is sent while the game is not started |
| `Server.ApplyKeepsInv` | game_server.py:35-91 | every event keeps the world invariant |
| `Server.RunKeepsInv` | game_server.py:35-91 | any sequence of events keeps the world invariant |
| `Server.ReachableInv` | game_server.py:5-7 | every world reachable from the initial state satisfies the invariant |
| `Server.SecondPlayIsIgnored` | game_server.py:76-79 | a second "play" after the first changes nothing and sends nothing: no second enemy batch and no second countdown |
| `Server.EnemyMoveBeforeStartIsIgnored` | game_server.py:65-74 | before the start there are no enemies, so `enemy_move` changes nothing and sends nothing |
| `Server.StartedStaysStarted` | game_server.py:76-79 | after the start, any events keep the game started and keep the set of enemy ids unchanged |
| `Server.NoEnemiesBeforePlay` | game_server.py:86-91 | until a "play" press, the game stays unstarted and there are no enemies |
| `Server.LastMoveWins` | game_server.py:55-59 | a player who does not leave ends at the coordinates of the last `player_move` naming it, whatever events come in between, and keeps its id and colour |
| `Server.JoinColorsRoundRobin` | game_server.py:40-47 | clients with distinct ids joining an empty server are listed in join order at (0,0), not ready, and the i-th is coloured `colors[i % 4]` |
| `Server.ColorFollowsCountNotJoinOrder` | game_server.py:46 | if a and b join, a leaves, and c joins, then b and c are both blue |
| `Scenarios.ThreePlayersThenPlay` | game_server.py:86-111 | three joiners are red, blue and green; a move to (5,7) before the start sends nothing; "play" then sends a snapshot with the mover at (5,7), the others at (0,0) and the three enemies, followed by "3", "2", "1", "GO!" |
| `Scenarios.UnknownEnemyMoveAfterStart` | game_server.py:65-74 | after the start, moving a nonexistent enemy leaves the world unchanged and broadcasts the unchanged snapshot |
| `KeyMismatch.ConnectAsWritten` | game_server.py:38-47 | as written, a new player is filed under its connection, coloured by the count before insertion |
| `KeyMismatch.PlayerMoveAsWritten` | game_server.py:55-59 | as written, the lookup raises KeyError exactly when the string `player_id` is not a key; otherwise it sets x and y |
| `KeyMismatch.MoveAsWrittenAlwaysFails` | game_server.py:57-58 | in a dict keyed only by connections, every `player_move` raises KeyError |
| `KeyMismatch.OwnMoveRaisesKeyError` | game_server.py:57-58 | a client on connection 1 with id "1" that moves itself gets a KeyError as written, while the corrected `MovePlayer` moves it to (5,7) |

## Findings

| source | as written | input that shows it | evidently intended | confidence | as-written member | corrected member |
|---|---|---|---|---|---|---|
| game_server.py:57-58 | `players[player_id]` looks up the client's string id, but line 41 files players under the connection object, so the lookup always raises KeyError. Only ConnectionClosed is caught, so the error ends that client's read loop and its player is never removed. | one client on connection 1 with id "1" sends `player_move` for "1" to (5, 7) | the player named by `player_id` moves to (x, y), and an unknown id is ignored | high; not executed | `KeyMismatch.OwnMoveRaisesKeyError` | `GameState.MovePlayer` |

## Left out

- Server.BroadcastTick: the loop in `broadcast_game_state` repeats every 0.05 s for as long as the game runs. The model keeps only its first tick, because repetition over time is timing, not sequential state.
- Server.Handle: after the start, the handler that enters `broadcast_game_state` never returns to its read loop. That client's later messages are therefore never read. Every move message also starts one more endless loop. The model processes every message, because this behaviour is concurrency and time.
- Server.Start: the model applies the start as one step. In the source, other handlers can run during the one-second sleeps between countdown messages, so the last snapshot may differ from the first. This is interleaving, which a sequential model does not show.
- GameState.Disconnect: `del` raises KeyError for an absent key. Each handler deletes only the connection it inserted, so the model treats an absent id as a no-op.
- Server.Apply: in the source, a client whose handler has entered `broadcast_game_state` is never removed when it disconnects. That handler is the one that pressed "play" (lines 79, 112), or one that sent a move after the start (lines 63, 74). Its failed `ws.send` is returned, not raised, by `asyncio.gather(..., return_exceptions=True)` (lines 11-14). `while game_started` (line 18) never ends, so `del players[websocket]` (lines 81-82) is never reached. The departed player then stays in every later `game_update`, and `len(players)` still counts it when later joiners get a colour (line 46). The model removes the player on every `Leave`, because which handler is stuck in which loop is concurrency behaviour, which a sequential model does not show.
- Whether the websocket library delivers a closed connection as `ConnectionClosed` (line 81) or just ends the `async for` loop is library behaviour, which is not part of this model.
- Transport: `websockets.serve`, `ws.send`, `main`, and the `asyncio.gather` fan-out with its swallowed send errors (lines 9-14, 124-129) are I/O over a library that is not shown.
- Message encoding: `json.dumps` and `json.loads` are left out. The model takes decoded messages. A message without a `type`, `player_id`, `x`, `y` or `button` field raises KeyError in the source; this is not modelled.
- Coordinates are integers. JSON numbers that are floats, or values of other types, are not modelled.
- Player ids: `str(id(websocket))` is replaced by an id the caller supplies. The source's ids are unique only among live objects.
- The `ready` flag is stored and never read, so no behaviour depends on it.
- The `print` logging is left out.
