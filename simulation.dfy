/**
 * The match simulation of the server as values: the whole mutable state of
 * the single global room (`players`, `matchConfig`, `gameState`, the mob-id
 * counter and the spawn timer) as one `Room`, and one function per socket
 * handler and timer callback giving the room after it ran.
 */
module Simulation {
  import opened Base
  import opened WaveDirector
  import opened Movement
  import opened Entities

  const MaxWaves: nat := 3
  const MaxCoreHP: int := 100
  const BreachDamage: int := 10
  const ArrowDamage: int := 12

  datatype MatchState = Lobby | Playing | Victory

  /** The spawn interval timer: not running, or firing every `ms` milliseconds. */
  datatype Timer = Stopped | Every(ms: int)

  datatype Room = Room(
    // matchConfig (maxWaves is the constant MaxWaves)
    state: MatchState,
    currentWave: nat,
    // gameState
    coreHP: int,
    wave: nat,
    mobs: map<MobId, Mob>,
    gameOver: bool,
    mobsSpawnedThisWave: nat,
    mobsPerWave: nat,
    playersAtWaveStart: nat,
    currentMobHP: nat,
    // module-level state
    players: map<PlayerId, Player>,
    mobIdCounter: nat,
    spawner: Timer)

  /** The state at start-up, before any connection. */
  const Initial: Room := Room(Lobby, 0, MaxCoreHP, 1, map[], false, 0, 5, 1, 30, map[], 0, Stopped)

  // ---------------------------------------------------------------------------
  // The invariant every reachable state satisfies
  // ---------------------------------------------------------------------------

  /** Core hit points stay in [0, 100]; the game is over exactly when they are 0. */
  ghost predicate CoreValid(r: Room)
  {
    && 0 <= r.coreHP <= MaxCoreHP
    && (r.gameOver <==> r.coreHP == 0)
    && (r.gameOver ==> r.state == Playing)
  }

  /**
   * Each match state fixes the wave counters and the timer: the lobby is the
   * start-up state apart from the players, a running match has its timer at the
   * current wave's cadence, and a won match has no timer and no mobs.
   */
  ghost predicate StageValid(r: Room)
  {
    match r.state
    case Lobby => r.(players := map[]) == Initial
    case Playing =>
      && 1 <= r.currentWave <= MaxWaves
      && r.wave == r.currentWave
      && r.spawner == Every(SpawnInterval(r.wave))
    case Victory =>
      && r.currentWave == MaxWaves + 1
      && r.wave == r.currentWave
      && r.spawner == Stopped
      && r.mobs == map[]
  }

  /** The wave whose parameters are in force (the last one played, after victory). */
  function StatsWave(r: Room): nat
  {
    if r.state == Victory && r.currentWave > 0 then r.currentWave - 1 else r.currentWave
  }

  /** Quota and mob hit points are those the Wave Director gave for the wave in force. */
  ghost predicate StatsValid(r: Room)
  {
    && WaveStats(r.currentMobHP, r.mobsPerWave) == GetWaveStats(StatsWave(r), r.playersAtWaveStart)
    && r.mobsSpawnedThisWave <= r.mobsPerWave
  }

  /** A live mob of a wave whose mobs have `waveHP` hit points. */
  ghost predicate LiveMob(m: Mob, waveHP: int)
  {
    m.maxHp == waveHP && 0 < m.hp <= m.maxHp && m.waypointIndex == 0
  }

  /** Live mobs are no more than were spawned, have ids below the counter, and positive hp. */
  ghost predicate MobsValid(r: Room)
  {
    && |r.mobs| <= r.mobsSpawnedThisWave
    && forall id :: id in r.mobs ==> id < r.mobIdCounter && LiveMob(r.mobs[id], r.currentMobHP)
  }

  ghost predicate PlayersValid(players: map<PlayerId, Player>)
  {
    forall id :: id in players ==> InWorld(players[id].Position()) && ProgressConsistent(players[id])
  }

  ghost predicate Valid(r: Room)
  {
    CoreValid(r) && StageValid(r) && StatsValid(r) && MobsValid(r) && PlayersValid(r.players)
  }

  // ---------------------------------------------------------------------------
  // Wave Director glue and spawning
  // ---------------------------------------------------------------------------

  /** `startSpawner`: (re)start the timer at the cadence of the current wave. */
  function StartSpawner(r: Room): (r': Room)
    ensures r'.spawner == Every(SpawnInterval(r.wave)) && r'.spawner.ms >= MinSpawnInterval
    ensures r' == r.(spawner := r'.spawner)
  {
    r.(spawner := Every(SpawnInterval(r.wave)))
  }

  /** The three early returns of `spawnMob`. */
  predicate SpawnGate(r: Room)
  {
    r.state == Playing && !r.gameOver && r.mobsSpawnedThisWave < r.mobsPerWave
  }

  /** `spawnMob`: one timer firing. */
  function SpawnMob(r: Room): (r': Room)
    ensures r' == r <==> !SpawnGate(r)
    ensures SpawnGate(r) ==> r'.mobIdCounter == r.mobIdCounter + 1
    ensures SpawnGate(r) ==> r'.mobsSpawnedThisWave == r.mobsSpawnedThisWave + 1
    ensures SpawnGate(r) ==> r'.mobs.Keys == r.mobs.Keys + {r.mobIdCounter}
    ensures SpawnGate(r) ==> r'.mobs[r.mobIdCounter] == NewMob(r.currentMobHP)
    ensures SpawnGate(r) ==> forall id :: id in r.mobs && id != r.mobIdCounter ==> r'.mobs[id] == r.mobs[id]
    ensures r' == r.(mobs := r'.mobs, mobIdCounter := r'.mobIdCounter, mobsSpawnedThisWave := r'.mobsSpawnedThisWave)
  {
    if !SpawnGate(r) then r
    else
      var id := r.mobIdCounter;
      r.(mobs := r.mobs[id := NewMob(r.currentMobHP)],
         mobIdCounter := id + 1,
         mobsSpawnedThisWave := r.mobsSpawnedThisWave + 1)
  }

  // ---------------------------------------------------------------------------
  // Breaches: mobs reaching the core in `updateMobs`
  // ---------------------------------------------------------------------------

  /** Core hit points and game-over flag. */
  datatype Core = Core(hp: int, over: bool)

  /** One breach: ten damage; at or below zero the core is clamped to 0 and the game ends. */
  function Breach(c: Core): Core
  {
    var hp := c.hp - BreachDamage;
    if hp <= 0 then Core(0, true) else Core(hp, c.over)
  }

  /** `k` breaches in a row, as the loop of `updateMobs` applies them. */
  function Breaches(c: Core, k: nat): Core
  {
    if k == 0 then c else Breach(Breaches(c, k - 1))
  }

  /**
   * `updateMobs` with mob steering abstracted: `arrived` holds the ids of the mobs
   * that are within the arrival distance of the final waypoint in this tick.
   * Every such live mob is removed and damages the core once.
   */
  function UpdateMobs(r: Room, arrived: set<MobId>): (r': Room)
    ensures r.gameOver ==> r' == r
    ensures !r.gameOver ==> r'.mobs == r.mobs - arrived
    ensures !r.gameOver ==> Core(r'.coreHP, r'.gameOver) == Breaches(Core(r.coreHP, false), |r.mobs.Keys * arrived|)
    ensures r' == r.(mobs := r'.mobs, coreHP := r'.coreHP, gameOver := r'.gameOver)
  {
    if r.gameOver then r
    else
      var c := Breaches(Core(r.coreHP, r.gameOver), |r.mobs.Keys * arrived|);
      r.(mobs := r.mobs - arrived, coreHP := c.hp, gameOver := c.over)
  }

  // ---------------------------------------------------------------------------
  // Match state machine
  // ---------------------------------------------------------------------------

  /** The condition under which `checkWaveComplete` acts. */
  predicate WaveDone(r: Room)
  {
    r.state == Playing && !r.gameOver && r.mobsSpawnedThisWave >= r.mobsPerWave && |r.mobs| == 0
  }

  /** `checkWaveComplete`: advance to the next wave, or to victory after the last. */
  function CheckWaveComplete(r: Room): (r': Room)
    ensures r' == r <==> !WaveDone(r)
    ensures WaveDone(r) ==> r'.currentWave == r.currentWave + 1 && r'.wave == r'.currentWave
    ensures WaveDone(r) && r'.currentWave > MaxWaves ==> r'.state == Victory && r'.spawner == Stopped
    ensures WaveDone(r) && r'.currentWave <= MaxWaves ==>
      && r'.state == Playing
      && r'.mobsSpawnedThisWave == 0
      && WaveStats(r'.currentMobHP, r'.mobsPerWave) == GetWaveStats(r'.wave, |r.players|)
      && r'.spawner == Every(SpawnInterval(r'.wave))
    ensures WaveDone(r) && r'.currentWave > MaxWaves ==>
      r' == r.(currentWave := r'.currentWave, wave := r'.wave, state := Victory, spawner := Stopped)
    ensures r'.players == r.players && r'.mobs == r.mobs && r'.coreHP == r.coreHP && r'.gameOver == r.gameOver
    ensures r'.mobIdCounter == r.mobIdCounter
  {
    if !WaveDone(r) then r
    else
      var next := r.currentWave + 1;
      var r1 := r.(currentWave := next, wave := next);
      if next > MaxWaves then
        r1.(state := Victory, spawner := Stopped)
      else
        var n := |r.players|;
        var s := GetWaveStats(next, n);
        StartSpawner(r1.(mobsSpawnedThisWave := 0, mobsPerWave := s.mobsPerWave,
                         currentMobHP := s.mobHP, playersAtWaveStart := n))
  }

  /** The 60 Hz simulation tick: movement and breaches, then the wave check, while PLAYING. */
  function Tick(r: Room, arrived: set<MobId>): (r': Room)
    ensures r.state != Playing ==> r' == r
    ensures r.state == Playing ==> r' == CheckWaveComplete(UpdateMobs(r, arrived))
  {
    if r.state == Playing then CheckWaveComplete(UpdateMobs(r, arrived)) else r
  }

  /** `startGame`: a fresh match at wave 1 sized for the players now connected. */
  function StartGame(r: Room): (r': Room)
    ensures r'.state == Playing && r'.currentWave == 1 && r'.wave == 1
    ensures r'.coreHP == MaxCoreHP && r'.mobs == map[] && !r'.gameOver
    ensures r'.mobsSpawnedThisWave == 0 && r'.mobIdCounter == 0
    ensures WaveStats(r'.currentMobHP, r'.mobsPerWave) == GetWaveStats(1, |r.players|)
    ensures r'.spawner == Every(BaseSpawnInterval)
    ensures r'.players == r.players
  {
    var n := |r.players|;
    var s := GetWaveStats(1, n);
    StartSpawner(r.(state := Playing, currentWave := 1, wave := 1, coreHP := MaxCoreHP, mobs := map[],
                    gameOver := false, mobsSpawnedThisWave := 0, mobIdCounter := 0,
                    mobsPerWave := s.mobsPerWave, currentMobHP := s.mobHP, playersAtWaveStart := n))
  }

  predicate AllReady(players: map<PlayerId, Player>)
  {
    forall id :: id in players ==> players[id].ready
  }

  /** The players after `id` flips its ready flag. */
  function FlipReady(players: map<PlayerId, Player>, id: PlayerId): (ps: map<PlayerId, Player>)
    requires id in players
    ensures ps.Keys == players.Keys
    ensures ps[id] == players[id].(ready := !players[id].ready)
    ensures forall other :: other in players && other != id ==> ps[other] == players[other]
  {
    players[id := players[id].(ready := !players[id].ready)]
  }

  /** The `toggleReady` handler; the match starts once every connected player is ready. */
  function ToggleReady(r: Room, id: PlayerId): (r': Room)
    ensures id !in r.players || r.state != Lobby ==> r' == r
    ensures id in r.players && r.state == Lobby ==> r'.players == FlipReady(r.players, id)
    ensures r'.state == Playing <==>
      r.state == Playing || (id in r.players && r.state == Lobby && AllReady(FlipReady(r.players, id)))
    ensures r'.state != Playing ==> r' == r.(players := r'.players)
    ensures id in r.players && r.state == Lobby && AllReady(FlipReady(r.players, id)) ==>
      r' == StartGame(r.(players := FlipReady(r.players, id)))
  {
    if id !in r.players || r.state != Lobby then r
    else
      var r1 := r.(players := FlipReady(r.players, id));
      if |r1.players| > 0 && AllReady(r1.players) then StartGame(r1) else r1
  }

  /** `resetGame`: back to the lobby; `place` stands for the random respawn positions. */
  function ResetGame(r: Room, place: PlayerId -> Pos): (r': Room)
    ensures r'.players.Keys == r.players.Keys
    ensures forall id :: id in r'.players ==> r'.players[id] == NewPlayer(place(id))
    ensures r'.(players := map[]) == Initial
  {
    Initial.(players := map id | id in r.players :: NewPlayer(place(id)))
  }

  // ---------------------------------------------------------------------------
  // Per-connection handlers
  // ---------------------------------------------------------------------------

  /** The connection handler: a new player at `at` (a random point on the spawn circle, so near the core). */
  function Connect(r: Room, id: PlayerId, at: Pos): (r': Room)
    ensures r'.players == r.players[id := NewPlayer(at)]
    ensures r' == r.(players := r'.players)
  {
    r.(players := r.players[id := NewPlayer(at)])
  }

  /** The `disconnect` handler; the spawn timer and the match are left as they are. */
  function Disconnect(r: Room, id: PlayerId): (r': Room)
    ensures r'.players.Keys == r.players.Keys - {id}
    ensures forall other :: other in r'.players ==> r'.players[other] == r.players[other]
    ensures r' == r.(players := r'.players)
  {
    r.(players := r.players - {id})
  }

  /** The `input` handler. */
  function Input(r: Room, id: PlayerId, input: MoveInput): (r': Room)
    ensures id !in r.players ==> r' == r
    ensures r' == r.(players := r'.players) && r'.players.Keys == r.players.Keys
    ensures id in r.players ==>
      && r'.players[id].Position() == Move(r.players[id].Position(), input)
      && InWorld(r'.players[id].Position())
      && r'.players[id] == r.players[id].(x := r'.players[id].x, y := r'.players[id].y)
    ensures forall other :: other in r.players && other != id ==> r'.players[other] == r.players[other]
  {
    if id !in r.players then r
    else
      var p := r.players[id];
      var q := Move(p.Position(), input);
      r.(players := r.players[id := p.(x := q.x, y := q.y)])
  }

  /** Whether an `input` message made the server emit `playerMoved`. */
  predicate Moved(r: Room, id: PlayerId, input: MoveInput)
  {
    id in r.players && Input(r, id, input).players[id].Position() != r.players[id].Position()
  }

  // ---------------------------------------------------------------------------
  // Combat resolver
  // ---------------------------------------------------------------------------

  /** Credit the kill to the recorded last hitter, if that player is still connected. */
  function CreditLastHitter(players: map<PlayerId, Player>, lastHitBy: Option<PlayerId>): (ps: map<PlayerId, Player>)
    ensures ps.Keys == players.Keys
    ensures forall id :: id in players ==>
      ps[id] == if lastHitBy == Some(id) then CreditKill(players[id]) else players[id]
  {
    match lastHitBy
    case Some(killer) => if killer in players then players[killer := CreditKill(players[killer])] else players
    case None => players
  }

  /** The `arrowHit` handler: `caller` claims a hit on mob `mobId`. */
  function ArrowHit(r: Room, caller: PlayerId, mobId: MobId): (r': Room)
    ensures mobId !in r.mobs ==> r' == r
    ensures r' == r.(mobs := r'.mobs, players := r'.players)
    ensures mobId in r.mobs && r.mobs[mobId].hp > ArrowDamage ==>
      && r'.mobs == r.mobs[mobId := r.mobs[mobId].(hp := r.mobs[mobId].hp - ArrowDamage, lastHitBy := Some(caller))]
      && r'.players == r.players
    ensures mobId in r.mobs && r.mobs[mobId].hp <= ArrowDamage ==>
      && r'.mobs == r.mobs - {mobId}
      && r'.players == CreditLastHitter(r.players, Some(caller))
  {
    if mobId !in r.mobs then r
    else
      var m := r.mobs[mobId];
      var hit := m.(hp := m.hp - ArrowDamage, lastHitBy := Some(caller));
      if hit.hp <= 0 then
        r.(mobs := r.mobs - {mobId}, players := CreditLastHitter(r.players, hit.lastHitBy))
      else
        r.(mobs := r.mobs[mobId := hit])
  }
}
