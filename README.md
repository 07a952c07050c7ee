# Tower-defense match server, modelled in Dafny

`server.js` is the authoritative simulation of a cooperative tower-defense
match. There is one global room. Players connect over socket.io, toggle
"ready" in the lobby and then defend a core at the centre of an 800 x 600 world
against waves of mobs. A spawn timer adds mobs, and a 60 Hz tick moves them
along their waypoints and lets the ones that reach the core damage it. The
server also resolves the hits that clients report. A kill earns the shooter
gold, kills and levels. A match is won after three waves and lost when the
core reaches zero hit points.

The model has two layers.

- **Values** (modules `WaveDirector`, `Movement`, `Entities`, `Simulation`).
  - The whole mutable state is one `Simulation.Room`: `players`, `matchConfig`, `gameState`, `mobIdCounter` and the spawn timer.
  - There is one function per socket handler and timer callback. Each gives the room after that handler ran.
  - The invariant `Simulation.Valid` holds in every reachable state. Module `Invariants` proves that every handler preserves it.
  - Modules `Combat`, `MatchProperties` and `Session` prove properties of runs of calls.
- **Objects** (module `Server`).
  - `GameServer` is a class with the source's fields.
  - Each handler is a method that updates those fields in place.
  - The loops of `updateMobs` and `resetGame` are `while` loops with invariants, in the methods `Server.BreachArrived` and `Server.RespawnAll`. These work on the mob and player tables.
  - Every handler and timer method requires and keeps `Valid()`. It leaves the state given by the corresponding function of `Simulation`.
  - Two helpers have no `Valid()` contract. `StartSpawner` is only called inside other methods. `Store` writes a whole `Room` into the fields. Both ensure the exact new state.

Modelling decisions:

- A mob id `mob_<n>` is the number `n`.
- The spawn timer (`spawnIntervalId`) is `Timer`: either `Stopped` or `Every(ms)`.
- Random spawn positions are parameters. `Connect` receives the point and `ResetGame` receives one point per player. Both must lie in the square around the core that holds the spawn circle (`NearCore`).
- Whether a mob is within 30 units of the final waypoint during a tick is the parameter `arrived`.
- `maxWaves` is the constant 3. The source never writes it.

Behaviour of the code a reader might not expect:

- When the game is lost, the code does not stop the spawn timer. `spawnMob` just does nothing from then on.
- The player credited with a kill is always the sender of the killing `arrowHit`. `lastHitBy` is set just before it is read.
- `arrowHit` has no match-state gate. A mob left on the field after the game is lost can still be killed.
- Disconnecting the last player does not stop the timer or end the match.
- The fire rate starts at 500 and is floored at 500, so it never changes. `Entities.ProgressConsistent` records this.
- The code has no rooms, room capacity, shop or upgrades.

## Model

| member | source | states |
|---|---|---|
| WaveDirector.PlayerCount | server.js:51 | at least 1; equal to the player count when there is a player; 0 players count as 1 |
| WaveDirector.GetWaveStats | server.js:50-57 | mob hp at least 30; quota exactly (5 + 2·wave)·max(1, players), so at least 5 + 2·wave |
| WaveDirector.MobHPIsFloorOfProduct | server.js:52-54 | the integer hp is the floor of the exact product 30·(1 + 0.5w)·(1 + 0.7(p − 1)) |
| WaveDirector.WaveStatsMonotoneInWave | server.js:50-57 | hp and quota never decrease as the wave grows |
| WaveDirector.WaveStatsMonotoneInPlayers | server.js:50-57 | hp and quota never decrease as the number of players grows |
| WaveDirector.SpawnInterval | server.js:59-61 | never below 1000 ms and never below 2000 − 300·(wave − 1); equal to the latter whenever above 1000, so it is max(1000, 2000 − 300·(wave − 1)); exactly 2000 ms in wave 1; at most 2000 ms from wave 1 on |
| Movement.Clamp | server.js:329-336 | the result lies in [lo, hi]; a value inside is kept; a value outside is moved to the nearer bound |
| Movement.Move | server.js:324-336 | the new position lies in [16, 784] x [16, 584]. From inside the world: right alone gives x = min(784, x + 4); left alone gives x = max(16, x − 4); down alone gives y = min(584, y + 4); up alone gives y = max(16, y − 4); opposite keys, or no key, leave that axis unchanged |
| Entities.NewPlayer | server.js:275-284 | a new player stands at the given point, is not ready, has no kills and satisfies the progress relation |
| Entities.NewMob | server.js:71-79 | a new mob has hp = maxHp = the given hit points, waypoint index 0 and no last hitter |
| Entities.CreditKill | server.js:367-376 | +10 gold and +1 kill; the level rises by exactly one when the new kill count is a multiple of 5 and stays otherwise; the fire rate changes only with a level-up, and then becomes max(500, old − 50); position and readiness unchanged; 10 gold per kill and one level per 5 kills are preserved |
| Simulation.StartSpawner | server.js:84-87 | the timer runs every `SpawnInterval(wave)` ms, so at least 1000 ms; nothing else changes |
| Simulation.SpawnMob | server.js:63-82 | the room is unchanged exactly when the state is not PLAYING, the game is over or the quota is met; otherwise exactly one mob is added, under the old counter value, with hp = maxHp = currentMobHP, waypoint 0 and no last hitter; the counter and the spawned count rise by one; nothing else changes |
| Simulation.UpdateMobs | server.js:89-113 | nothing happens when the game is over; otherwise every arrived live mob is removed and the core takes one breach per such mob; only mobs, core hp and the game-over flag change |
| Invariants.BreachesClosedForm | server.js:105-112 | k breaches leave the core at max(0, hp − 10k) and set game over exactly when hp − 10k ≤ 0 (or it was already over) |
| Invariants.BreachesKeepCore | server.js:105-112 | from a live core (hp in (0, 100], not over) the core stays in [0, hp] and is over exactly when it is at 0 |
| Server.BreachArrived | server.js:92-114 | the loop over the mob table leaves exactly the mobs that did not arrive, and the core after as many breaches as there were arrived live mobs |
| Simulation.CheckWaveComplete | server.js:122-161 | the room changes exactly when PLAYING, not over, quota spawned and no live mob; then the wave advances by one and `wave` equals it; past wave 3 the state is VICTORY with the timer stopped; otherwise the spawned count is 0, quota and hp are the Wave Director's for the new wave and current players, and the timer runs at that wave's cadence; players, mobs, the core and the mob-id counter are untouched; on victory nothing else changes either (spawned count, quota, hp and players-at-wave-start are kept) |
| MatchProperties.CheckWaveCompleteIdempotent | server.js:122-161 | a second wave check right after the first changes nothing |
| MatchProperties.VictoryAfterLastWave | server.js:129-141 | in a valid room whose wave is done, the check ends in VICTORY exactly when wave 3 was just finished, and stays PLAYING exactly when an earlier wave was |
| MatchProperties.TickAfterWaveStartKeepsWave | server.js:122-161 | the tick after a wave started leaves the wave number alone |
| Simulation.Tick | server.js:251-256 | outside PLAYING the room is unchanged; in PLAYING it is the breach step followed by the wave check |
| Simulation.StartGame | server.js:180-206 | PLAYING, current wave and wave 1, core 100, no mobs, not over, spawned 0, counter 0, wave-1 stats for the connected players, timer every 2000 ms; players unchanged |
| Simulation.FlipReady | server.js:308 | only the given player's ready flag flips; the player set is unchanged |
| Simulation.ToggleReady | server.js:303-315 | ignored for an unknown player or outside the lobby; otherwise the flag flips; the match is PLAYING afterwards exactly when it was already, or when the toggle made every connected player ready; when it starts, the room is exactly `StartGame` of the room with the flipped flag; when it does not start, only players change |
| Simulation.ResetGame | server.js:208-237 | the player set is kept and every player is a fresh player at its respawn point; everything else equals the start-up state: LOBBY, wave counters 0 and 1, core 100, no mobs, quota 5, hp 30, counter 0, timer stopped |
| Server.RespawnAll | server.js:226-237 | the loop over the players keeps the player set and resets every player to a fresh player at its respawn point |
| Simulation.Connect | server.js:273-284 | the new socket's player is a fresh player at the drawn point; nothing else changes |
| Simulation.Disconnect | server.js:398-402 | exactly the leaving player is removed and the others are untouched; nothing else changes, not the timer and not the match |
| Simulation.Input | server.js:317-341 | ignored for an unknown player; otherwise that player's new position is `Move` of the old one under the pressed keys, inside the world, with only x and y changed; no other player and no other field changes |
| Server.GameServer.Input | server.js:317-341 | updates the player in place as `Simulation.Input` does; `playerMoved` is reported exactly when the position changed, which is `Simulation.Moved` |
| Simulation.CreditLastHitter | server.js:367-376 | exactly the recorded last hitter, if still connected, gets `CreditKill`; the player set is unchanged |
| Simulation.ArrowHit | server.js:356-392 | a hit on an absent mob is a no-op; only mobs and players can change; a hit that leaves hp above 0 takes exactly 12 hp and records the caller; a killing hit removes the mob and credits the caller |
| Server.GameServer.ArrowHit | server.js:356-392 | updates the mob table and the killer in place as `Simulation.ArrowHit` does; `mobKilled` is reported exactly when the mob was removed |
| Combat.HitsOnAbsentMob | server.js:357-358 | any number of later hits on a removed or unknown mob id change nothing, so a dead mob never pays out twice |
| Combat.RepeatedHits | server.js:356-392 | after n hits on a mob with h hp: while 12n < h the mob is alive with h − 12n hp, last hit by the latest caller, with nobody rewarded; afterwards it is gone and exactly the sender of hit number (h − 1)/12 was credited, once; other mobs are untouched |
| Invariants.InitialValid | server.js:28-48 | the start-up state satisfies the invariant |
| Invariants.SpawnMobKeepsValid | server.js:63-82 | spawning preserves the invariant, including spawned ≤ quota and live mobs ≤ spawned |
| Invariants.UpdateMobsKeepsValid | server.js:89-120 | the breach step preserves the invariant, so core hp stays in [0, 100] |
| Invariants.CheckWaveCompleteKeepsValid | server.js:122-161 | the wave check preserves the invariant |
| Invariants.TickKeepsValid | server.js:251-256 | the tick preserves the invariant |
| Invariants.StartGameValid | server.js:180-206 | a started match satisfies the invariant whenever the players do |
| Invariants.ToggleReadyKeepsValid | server.js:303-315 | toggling readiness preserves the invariant |
| Invariants.ResetGameValid | server.js:208-237 | a reset from any state satisfies the invariant, given respawn points in the square around the core that holds the spawn circle |
| Invariants.ConnectKeepsValid | server.js:270-284 | a connection preserves the invariant |
| Invariants.DisconnectKeepsValid | server.js:398-402 | a disconnection preserves the invariant |
| Invariants.InputKeepsValid | server.js:317-341 | movement preserves the invariant, so every player stays inside the world |
| Invariants.ArrowHitKeepsValid | server.js:356-392 | hit resolution preserves the invariant, including 10 gold per kill and one level per 5 kills |
| Session.ApplyKeepsValid | server.js:251-402 | every handler and timer callback preserves the invariant |
| Session.RunKeepsValid | server.js:251-402 | any sequence of handler and timer calls preserves the invariant |
| Session.ReachableStates | server.js:28-402 | from start-up, whatever happens: players inside the world, core hp in [0, 100], live mobs within the quota, every live mob with positive hp, the timer never faster than 1000 ms |
| Session.GameOverPersists | server.js:63-161 | once the game is lost, no call other than a reset revives the core, leaves PLAYING, changes a wave counter, spawns a mob or touches the timer |
| Session.TwoPlayersStartAMatch | server.js:303-315 | two players connect and toggle ready: the lobby holds after the first toggle; after the second the match is PLAYING at wave 1 with core 100, a 2000 ms timer, a quota of 14 and 76 hp per mob |
| Server.GameServer.constructor | server.js:28-48 | the fields start as in the source, which is the start-up state, and it satisfies the invariant |
| Server.GameServer.SpawnMob | server.js:63-82 | keeps the invariant and updates the fields as `Simulation.SpawnMob` |
| Server.GameServer.StartSpawner | server.js:84-87 | replaces the timer as `Simulation.StartSpawner` |
| Server.GameServer.UpdateMobs | server.js:89-120 | keeps the invariant and updates the fields as `Simulation.UpdateMobs` |
| Server.GameServer.CheckWaveComplete | server.js:122-161 | keeps the invariant and updates the fields as `Simulation.CheckWaveComplete` |
| Server.GameServer.Tick | server.js:251-256 | keeps the invariant and updates the fields as `Simulation.Tick` |
| Server.GameServer.StartGame | server.js:180-206 | keeps the invariant and updates the fields as `Simulation.StartGame` |
| Server.GameServer.ResetGame | server.js:208-237 | keeps the invariant and updates the fields as `Simulation.ResetGame` |
| Server.GameServer.Connect | server.js:270-284 | keeps the invariant and updates the fields as `Simulation.Connect` |
| Server.GameServer.ToggleReady | server.js:303-315 | keeps the invariant and updates the fields as `Simulation.ToggleReady` |
| Server.GameServer.Disconnect | server.js:398-402 | keeps the invariant and updates the fields as `Simulation.Disconnect` |

## Left out

- Transport: the Express/HTTP/socket.io setup, the listen call and `console.log` (server.js:1-9, 405-408). These are I/O.
- Every `io.emit`/`socket.emit` payload, `emitGameStateChange` and the 50 ms state broadcast (server.js:163-178, 258-268). These are outgoing I/O. The methods report `playerMoved` and `mobKilled` only as boolean results.
- The `shootArrow` handler (server.js:343-354). It only relays a message and changes no state.
- Timers: `setInterval` and `clearInterval` are not modelled. The spawn timer is the `Timer` field. The 60 Hz tick and every timer firing are explicit calls.
- Mob steering: the positions, the `Math.sqrt` distance, the 1.2-unit step and the 30-unit arrival test (server.js:94-101, 117-118) are floating-point geometry. Arrival is the `arrived` parameter, and mobs carry no coordinates.
- The waypoint-advance branch (server.js:102-103). With the two waypoints in the code its condition is never true, so `waypointIndex` stays 0. The invariant records this.
- Randomness: the random vertical offset of a new mob (server.js:74) is dropped with the mob position. Player spawn angles (server.js:233-236, 273-278) become parameters.
- `gameState.mobsKilledThisWave` (server.js:44). It is initialised and never read or written again.
- `public/game.js`, the rendering client. It holds no authoritative state and is not part of this model.
- Rooms, capacity, a shop and upgrades. They do not exist in this code.
- Message payloads are taken as already decoded. An `input` message is four booleans, and an `arrowHit` message is a mob counter value. The source's error path is not modelled: a message without a payload makes `input.up` or `data.mobId` throw (server.js:324, 357). Truthy non-boolean key values are not modelled either. A mob id not of the form `mob_<n>` matches no mob, and the model treats it like an absent counter value.
- WaveDirector.GetWaveStats: hit points are the floor of the exact rational product, not of the JavaScript double-precision product. The two floors differ where the exact product is a whole number that the doubles round just below. For example, wave 2 with four players gives 186 here, and the double computation gives 185.
- Movement.Move: positions are exact reals. There is no floating-point rounding, and the source's movement tests on doubles are modelled as exact comparisons.
- Server.GameServer.UpdateMobs: the mob table is visited in an arbitrary order where the source uses insertion order. The result does not depend on the order. The loop works on local copies of the mob table and the core that are written back when it ends, so the intermediate states are not observable, as in the single-threaded source.
- Server.GameServer.ArrowHit: the mob table and the player table are updated as local copies and written back together. The killer's new record is `Entities.CreditKill` applied to its old one.
- Server.GameServer.StartGame, Server.GameServer.ResetGame and Server.GameServer.CheckWaveComplete: the many field assignments of a match reset or a wave start are made by one call that stores all fields. Only the final state is specified, which is also all the single-threaded source exposes.
