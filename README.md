# WormRacer game state, modelled in Dafny

WormRacer is a two-player worm ("snake") game. The server owns the shared world,
and clients send it one direction at a time. The world holds:

- the insertion-ordered `clients` dictionary, mapping each socket id to the
  client's `position` (its body, head first), its `direction` and its `collision`
  counter;
- the `consumable` cell;
- the `round` counter;
- the `isRunning` flag.

This project models that world and the handlers that change it:

- admission of a connection (allow-list, start cell, capacity);
- the disconnect and start-game handlers;
- collision detection;
- one move;
- the position reset;
- consumable spawning;
- the state record sent to clients.

Beside the server logic it models `clamp` and the identity identifier helper,
and the bot's rule for chasing the consumable.

Modules:

- `Wrappers`: the `Option` type.
- `Grid`: cells, direction values and `Step`, the one-cell move of a head.
  The server uses `Step` and so does the reasoning about the bot.
- `Functions`: `Clamp` and `GenerateUniqueIdentifier`.
- `CpuClient`: the bot's direction choice as a pure function of its head and
  the consumable.
- `Rules`: the pure rules of the server, all functions of values:
  - the configuration and a client entry;
  - `SpawnConsumable`, which takes its random draws as parameters;
  - collision detection (`Scan`) and its reference definition (`CollidesAt`, `BlamedAt`);
  - `Charge`, which raises a collision counter;
  - the body after a move (`Advance`);
  - the reset layout (`ResetLayout`);
  - deletion from the key order (`Without`).
- `Server`: the class `World`. Its fields are those globals. Its methods are the
  handlers, and each method's `ensures` ties the new state to the `Rules`
  functions of the old state. The loops of `checkCollision` and
  `resetGameData` are methods with loop invariants.

The dictionary has two fields: `keys` gives the insertion order and `clients`
is a `map` from id to entry. `Valid()` requires that `keys` lists every entry
exactly once and that no body is empty. It also records the socket listeners:
`admitted` is the set of sockets whose listeners were registered. `Valid()`
proves that at most two of them exist at a time.

Bodies are values. The source's aliasing cannot be observed. With a client count
other than 2, `resetGameData` (server.js:41, 53) gives every client the same
array `[{x:0,y:0}]`. That array is only ever changed in place by a move, and a
move runs only after `checkCollision` finds nothing. But a head at `(0, 0)` is
outside the interior. So while any client holds that array, every detection
reports a collision and no move runs (`Rules.DefaultBodyBlocksMoves`). A client
count of 2 or a new admission gives fresh arrays. Either way, no array shared by
two clients is ever modified.

Where the code and the prose design of the system differ, the model follows the
code:

- There is no score, no countdown and no timeout, and no Idle/Running/Over phase
  beyond `isRunning`.
- Detection tests the other bodies before the client's own body.
- A hit on another worm raises the collision counter of that body's owner.
- Capacity is checked after the entry is inserted.
- A step into a wall is applied. The next input, from anyone, detects it
  (`Rules.WallStepDetectedNext`). So a body cell can sit on the border right
  after a collision-free step.

## Model

| member | source | states |
|---|---|---|
| `Functions.GenerateUniqueIdentifier` | scripts/functions.js:5-7 | the identifier sent in the handshake is the configured one, unchanged |
| `Functions.Clamp` | scripts/functions.js:30-34 | below `min` gives `min`; inside `[min, max]` gives the value; above `max` (and not below `min`) gives `max`; with `min <= max` the result lies in `[min, max]` |
| `Functions.ClampIdempotent` | scripts/functions.js:30-34 | with `min <= max`, clamping twice equals clamping once |
| `Functions.ClampMonotone` | scripts/functions.js:30-34 | with `min <= max`, clamp preserves `<=` |
| `Functions.ClampCrossedBoundsNotIdempotent` | scripts/functions.js:31-32 | with `min > max` idempotence fails, because the lower-bound test comes first |
| `Grid.Step` | server.js:186-191 | "up"/"down" lower/raise y and "left"/"right" lower/raise x by exactly one cell; any other value leaves the copied head in place |
| `Grid.StepUndone` | server.js:186-191 | a step in a cardinal direction followed by the opposite step returns to the start cell |
| `CpuClient.ChooseDirection` | cpuClient.js:88-100 | x-axis first: "right" if the target is to the right, otherwise "left"; with x aligned, "down" if the target is below, otherwise "up"; nothing exactly when the head is on the target |
| `CpuClient.ChaseApproaches` | cpuClient.js:88-100 | each emitted direction, stepped as the server steps it, lowers the Manhattan distance to the consumable by exactly one |
| `CpuClient.ChaseArrives` | cpuClient.js:88-100 | repeating the rule reaches the consumable after exactly as many inputs as the distance, and is `d - n` away after `n < d` inputs |
| `Rules.SpawnConsumable` | server.js:29-37 | for draws in `[0, W-3] x [0, H-3]` the cell is in the interior `[1, W-2] x [1, H-2]`; whatever the draws, the clamps keep it in `[1, W-1] x [1, H-1]` |
| `Rules.SpawnClampsInert` | server.js:34-35 | for draws the random source can produce, the two clamps change nothing: the cell is the draws plus one |
| `Rules.FirstOwner` | server.js:159-169 | finds an owner exactly when some other client's non-head cells contain the head, and then the first such client in insertion order |
| `Rules.Scan` | server.js:150-177 | the blamed client, and for a body hit its owner, are entries of the dictionary |
| `Rules.DetectionSpec` | server.js:148-179 | a collision is found exactly when some client's head is outside the interior, on another client's non-head cell, or on its own non-head cell; the client blamed is the first such in insertion order, classified by the first test it fails (wall, other body, own body), with the first hit body's owner |
| `Rules.Charge` | server.js:153-165 | only the charged client's counter changes, by exactly one; positions, directions and keys are untouched; a self-collision and no collision charge nobody |
| `Rules.Advance` | server.js:185-198 | the new head is the stepped old head; the rest is a prefix of the old body; the length grows by exactly one when the head lands on the consumable and is unchanged otherwise |
| `Rules.WallStepDetectedNext` | server.js:153-156 | after a step onto or past the border, the next detection reports a collision, whoever sends the input |
| `Rules.ResetLayout` | server.js:40-57 | with exactly two entries, index 0 gets the single-cell client1 start and its direction, index 1 the client2 ones; otherwise every entry gets `[{0, 0}]` and "left"; keys and counters are preserved |
| `Rules.DefaultBodyBlocksMoves` | server.js:41-53 | while any client holds the default body `[{0, 0}]`, every detection reports a collision |
| `Rules.Without` | server.js:113 | after `delete`, exactly the other ids remain; an absent id changes nothing |
| `Rules.WithoutCutsOne` | server.js:113 | in a list without repeats, deleting an id cuts out its one position and keeps the others in order |
| `Server.HitsTail` | server.js:172-176 | the loop over cells `1..length-1` reports a hit exactly when a non-head cell equals the head |
| `Server.ResetEntries` | server.js:43-56 | the forEach over the entries computes exactly `ResetLayout` |
| `Server.World.constructor` | server.js:23-26 | no clients, round 0, not running, and the first consumable spawned as initHost does (server.js:61) |
| `Server.World.HandleConnection` | server.js:78-99 | an identifier not on the allow-list stores nothing; otherwise the entry gets collision 0 and the client1 start, or the client2 start when exactly one entry existed before; more than two entries after the insert means the socket is rejected, its entry stays and no listener is registered; otherwise the socket is admitted |
| `Server.World.Disconnect` | server.js:111-117 | for an admitted socket, exactly that entry is deleted, the others keep their order and `isRunning` becomes false; a rejected socket has no listener, so nothing changes |
| `Server.World.StartGame` | server.js:120-127 | with exactly two entries, the caller is sent the current record (still the old round), `isRunning` becomes true and `round` goes up by one; otherwise nothing changes |
| `Server.World.FindOwner` | server.js:159-169 | the loop over the other entries returns the first owner in insertion order whose non-head cells contain the head |
| `Server.World.DetectCollision` | server.js:150-178 | the nested loops compute the verdict of `Scan`, whose meaning is `DetectionSpec` |
| `Server.World.CheckCollision` | server.js:148-179 | returns whether a collision was found and raises exactly the counter `Charge` names; nothing else changes |
| `Server.World.ResetGameData` | server.js:40-57 | the entries become `ResetLayout` of the old entries; nothing else changes |
| `Server.World.HandleClientInput` | server.js:182-210 | detection on the state before the move comes first. On a hit: the counter is charged, positions are reset, `isRunning` becomes false, and consumable and round stay. With no hit and a known id: only that body changes, to `Advance` of the old body, and its direction is not updated; the consumable is respawned from the draws exactly when it is eaten. With an unknown id, nothing changes |
| `Server.World.GenerateSyncData` | server.js:213-226 | exactly one record per entry; every record carries the current consumable and round; reading back the per-client fields gives the dictionary unchanged |
| `Server.AdmitTwoScenario` | server.js:78-104 | on a fresh world, two allowed connections are both admitted, in order of arrival |
| `Server.ThirdConnectionScenario` | server.js:92-98 | after those two, a third allowed connection is rejected but its entry stays, at the client1 start with collision 0; only the first two are admitted, and the third's disconnect removes nothing |
| `Server.LeaveThenStartScenario` | server.js:111-127 | after a start request with three entries and the first admitted client's disconnect, the entries are the second client and the rejected one, in that order; a second start request then sets the game running and counts one round |

## Left out

- Transport: the socket.io server, `emit`, `broadcast` and the welcome, ready and
  status messages (server.js:60-74, 96-104, 115-116, 123, 131, 203-205, 228-230)
  are network I/O. The model records which sockets got listeners, and
  `StartGame` returns the record it would send to the caller.
- Timers: the `setInterval` ticker of `runUpdate` and its `clearInterval`
  (server.js:235-245) are not modelled. Only `isRunning := true` is kept, inside
  `StartGame`.
- Operator prompts: the two readline prompts are terminal I/O and are not
  modelled. One starts the game from the console once two clients are connected
  (server.js:133-137). It calls `runUpdate` and raises `round` without testing
  the client count again. The other restarts the game after a collision
  (server.js:206-208).
- Randomness: `Math.random` becomes the integer draws `rx` and `ry`. Any integers
  are accepted, and `SpawnConsumable` states what the draws the random source
  can produce give.
- Serialisation: `JSON.stringify` becomes a structured record map, and `Restore`
  plays the receiver's parse.
- Configuration loading is left out. The configuration file and the argument
  parsing become the `Config` value.
- `defaultIdentifier` is modelled as a list tested by membership. Both clients
  send `config.defaultIdentifier` itself as their header (cpuClient.js:31,
  client.js:77), which suggests the configured value is a single string. Then
  `includes` (server.js:81) is a substring test, which admits any part of that
  string. With a one-element list, the clients' own header is admitted either way.
  The model does not capture the substring reading.
- Which socket sends an event: the source registers the `moveClient` and
  `startGame` listeners only for admitted sockets (server.js:106-127).
  `Server.World.StartGame` and `Server.World.HandleClientInput` take no sending
  socket, so the model also allows them in states no admitted client can drive,
  such as two rejected entries left behind after both admitted clients leave.
  For calls the source can make, every contract still holds.
- A handshake without the identifier header is not modelled.
- Key order: the model enumerates socket ids in insertion order. JavaScript puts
  integer-like keys first. Generated socket ids are not integer-like, so this is
  not modelled.
- Socket ids: `Id` is an abstract type compared only for equality. Nothing in
  the server inspects an id further.
- `Server.World.HandleClientInput`: with an unknown id and no collision, the
  source throws a TypeError inside the listener. The model returns
  `UnknownClient` and leaves the state as detection left it, which is unchanged.
- Server.World.CheckCollision: the source raises the counter inside its loops and
  returns at once. The model finds the verdict first (`DetectCollision`) and then
  raises the counter. Both raise the same counter, and nothing else is read or
  written in between.
- Clients: client.js, scripts/render.js and `processPrompt` in
  scripts/functions.js are rendering and terminal I/O and are not modelled.
  render.js also reads `score` and `roundTime` fields, which the server's record
  never contains.
- The bot model does not cover how it finds its own entry in the parsed state
  (cpuClient.js:74-87), its update interval, or its event listeners. The rule is
  a function of the head and the consumable.
