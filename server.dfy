/**
 * The server's module-level mutable state as an object, and each socket
 * handler and timer callback as a method that updates its fields in place.
 * Every method keeps `Valid()` and leaves the state that the corresponding
 * function of module Simulation gives for the old state.
 */
module Server {
  import opened Base
  import opened WaveDirector
  import opened Movement
  import opened Entities
  import opened Simulation
  import Invariants

  /**
   * The loop of `updateMobs` over the mob table: every mob that has reached the
   * core is deleted and takes ten hit points off the core, which stops at zero
   * and ends the game there. The mobs are visited in no particular order; the
   * outcome does not depend on it.
   */
  method BreachArrived(mobs: map<MobId, Mob>, coreHP: int, arrived: set<MobId>)
      returns (live: map<MobId, Mob>, hp: int, over: bool)
    ensures live == mobs - arrived
    ensures Core(hp, over) == Breaches(Core(coreHP, false), |mobs.Keys * arrived|)
  {
    live, hp, over := mobs, coreHP, false;
    var todo := mobs.Keys;
    ghost var breached: set<MobId> := {};
    while todo != {}
      invariant todo <= mobs.Keys
      invariant breached == (mobs.Keys - todo) * arrived
      invariant live == mobs - breached
      invariant Core(hp, over) == Breaches(Core(coreHP, false), |breached|)
      decreases todo
    {
      var id :| id in todo;
      Invariants.VisitStep(mobs, todo, arrived, breached, id);
      todo := todo - {id};
      if id in arrived {
        hp := hp - BreachDamage;
        live := live - {id};
        if hp <= 0 {
          hp := 0;
          over := true;
        }
        breached := breached + {id};
      }
    }
    assert breached == mobs.Keys * arrived;
  }

  /**
   * The player loop of `resetGame`: every connected player loses gold, kills,
   * level, fire-rate upgrades and readiness, and is moved to `place(id)`.
   */
  method RespawnAll(players: map<PlayerId, Player>, place: PlayerId -> Pos)
      returns (ps: map<PlayerId, Player>)
    ensures ps.Keys == players.Keys
    ensures forall id :: id in ps ==> ps[id] == NewPlayer(place(id))
  {
    ps := players;
    var todo := players.Keys;
    while todo != {}
      invariant todo <= ps.Keys == players.Keys
      invariant forall id :: id in ps && id !in todo ==> ps[id] == NewPlayer(place(id))
      decreases todo
    {
      var id :| id in todo;
      var p := ps[id];
      p := p.(gold := 0, kills := 0, level := 1, fireRate := 500, ready := false);
      var at := place(id);
      p := p.(x := at.x, y := at.y);
      ps := ps[id := p];
      todo := todo - {id};
    }
  }

  class GameServer {
    // matchConfig
    var state: MatchState
    const maxWaves: nat := MaxWaves
    var currentWave: nat
    // gameState
    var coreHP: int
    var wave: nat
    var mobs: map<MobId, Mob>
    var gameOver: bool
    var mobsSpawnedThisWave: nat
    var mobsPerWave: nat
    var playersAtWaveStart: nat
    var currentMobHP: nat
    // module-level
    var players: map<PlayerId, Player>
    var mobIdCounter: nat
    /** Stands for `spawnIntervalId`: the interval timer, if one is running. */
    var spawner: Timer

    ghost function Snapshot(): Room
      reads this
    {
      Room(state, currentWave, coreHP, wave, mobs, gameOver, mobsSpawnedThisWave, mobsPerWave,
           playersAtWaveStart, currentMobHP, players, mobIdCounter, spawner)
    }

    ghost predicate Valid()
      reads this
    {
      Simulation.Valid(Snapshot())
    }

    /** Overwrite every field at once with the values of `r`. */
    method Store(r: Room)
      modifies this
      ensures Snapshot() == r
    {
      state, currentWave, coreHP, wave, mobs, gameOver, mobsSpawnedThisWave, mobsPerWave,
        playersAtWaveStart, currentMobHP, players, mobIdCounter, spawner :=
        r.state, r.currentWave, r.coreHP, r.wave, r.mobs, r.gameOver, r.mobsSpawnedThisWave, r.mobsPerWave,
        r.playersAtWaveStart, r.currentMobHP, r.players, r.mobIdCounter, r.spawner;
    }

    /** The module-level initialisers. */
    constructor ()
      ensures Valid() && Snapshot() == Initial
    {
      state, currentWave := Lobby, 0;
      coreHP, wave, mobs, gameOver := 100, 1, map[], false;
      mobsSpawnedThisWave, mobsPerWave, playersAtWaveStart, currentMobHP := 0, 5, 1, 30;
      players, mobIdCounter, spawner := map[], 0, Stopped;
      new;
      Invariants.InitialValid();
    }

    /** `spawnMob`, run by the spawn timer. */
    method SpawnMob()
      requires Valid()
      modifies this
      ensures Valid() && Snapshot() == Simulation.SpawnMob(old(Snapshot()))
    {
      Invariants.SpawnMobKeepsValid(Snapshot());
      if state != Playing { return; }
      if gameOver { return; }
      if mobsSpawnedThisWave >= mobsPerWave { return; }
      var id := mobIdCounter;
      mobIdCounter := mobIdCounter + 1;
      var hp := currentMobHP;
      mobs := mobs[id := Mob(hp, hp, 0, None)];
      mobsSpawnedThisWave := mobsSpawnedThisWave + 1;
    }

    /** `startSpawner`: replace any running timer by one at the current wave's cadence. */
    method StartSpawner()
      modifies this
      ensures Snapshot() == Simulation.StartSpawner(old(Snapshot()))
    {
      spawner := Every(SpawnInterval(wave));
    }

    /**
     * `updateMobs`: visit every live mob once; a mob in `arrived` has reached the
     * core, is deleted and costs the core ten hit points, ending the game when
     * they reach zero.
     */
    method UpdateMobs(arrived: set<MobId>)
      requires Valid()
      modifies this
      ensures Valid() && Snapshot() == Simulation.UpdateMobs(old(Snapshot()), arrived)
    {
      ghost var r := Snapshot();
      Invariants.UpdateMobsKeepsValid(r, arrived);
      if gameOver { return; }
      var live, hp, over := BreachArrived(mobs, coreHP, arrived);
      mobs, coreHP, gameOver := live, hp, over;
      assert Snapshot() == Simulation.UpdateMobs(r, arrived);
    }

    /** `checkWaveComplete`. */
    method CheckWaveComplete()
      requires Valid()
      modifies this
      ensures Valid() && Snapshot() == Simulation.CheckWaveComplete(old(Snapshot()))
    {
      ghost var r := Snapshot();
      Invariants.CheckWaveCompleteKeepsValid(r);
      if state != Playing { return; }
      if gameOver { return; }
      var allSpawned := mobsSpawnedThisWave >= mobsPerWave;
      var allKilled := |mobs| == 0;
      if allSpawned && allKilled {
        var next := currentWave + 1;
        if next > maxWaves {
          currentWave, wave, state, spawner := next, next, Victory, Stopped;
          return;
        }
        var numPlayers := |players|;
        var stats := GetWaveStats(next, numPlayers);
        Store(Room(state, next, coreHP, next, mobs, gameOver, 0, stats.mobsPerWave, numPlayers,
                   stats.mobHP, players, mobIdCounter, spawner));
        StartSpawner();
      }
    }

    /** The 60 Hz simulation timer callback. */
    method Tick(arrived: set<MobId>)
      requires Valid()
      modifies this
      ensures Valid() && Snapshot() == Simulation.Tick(old(Snapshot()), arrived)
    {
      if state == Playing {
        UpdateMobs(arrived);
        CheckWaveComplete();
      }
    }

    /** `startGame`. */
    method StartGame()
      requires Valid()
      modifies this
      ensures Valid() && Snapshot() == Simulation.StartGame(old(Snapshot()))
    {
      ghost var r := Snapshot();
      Invariants.StartGameValid(r);
      var numPlayers := |players|;
      var stats := GetWaveStats(1, numPlayers);
      Store(Room(Playing, 1, MaxCoreHP, 1, map[], false, 0, stats.mobsPerWave, numPlayers,
        stats.mobHP, players, 0, spawner));
      StartSpawner();
      assert Snapshot() == Simulation.StartGame(r);
    }

    /** `resetGame`; `place(id)` is the random respawn point of player `id`. */
    method ResetGame(place: PlayerId -> Pos)
      requires Valid() && Invariants.PlacementNearCore(place)
      modifies this
      ensures Valid() && Snapshot() == Simulation.ResetGame(old(Snapshot()), place)
    {
      ghost var r := Snapshot();
      Invariants.ResetGameValid(r, place);
      var ps := RespawnAll(players, place);
      assert ps == Simulation.ResetGame(r, place).players;
      Store(Initial.(players := ps));
    }

    /** The connection handler (the new player appears at `at`). */
    method Connect(id: PlayerId, at: Pos)
      requires Valid() && NearCore(at)
      modifies this
      ensures Valid() && Snapshot() == Simulation.Connect(old(Snapshot()), id, at)
    {
      Invariants.ConnectKeepsValid(Snapshot(), id, at);
      players := players[id := Player(at.x, at.y, 0, 0, 1, 500, false)];
    }

    /** The `toggleReady` handler. */
    method ToggleReady(id: PlayerId)
      requires Valid()
      modifies this
      ensures Valid() && Snapshot() == Simulation.ToggleReady(old(Snapshot()), id)
    {
      Invariants.ToggleReadyKeepsValid(Snapshot(), id);
      if id !in players { return; }
      if state != Lobby { return; }
      var player := players[id];
      players := players[id := player.(ready := !player.ready)];
      if |players| > 0 && AllReady(players) {
        StartGame();
      }
    }

    /** The `input` handler; `moved` tells whether `playerMoved` is broadcast. */
    method Input(id: PlayerId, input: MoveInput) returns (moved: bool)
      requires Valid()
      modifies this
      ensures Valid() && Snapshot() == Simulation.Input(old(Snapshot()), id, input)
      ensures moved <==> Simulation.Moved(old(Snapshot()), id, input)
      ensures moved <==> id in players && players[id].Position() != old(players)[id].Position()
    {
      ghost var r := Snapshot();
      Invariants.InputKeepsValid(r, id, input);
      if id !in players {
        moved := false;
        return;
      }
      var player := players[id];
      var prevX, prevY := player.x, player.y;
      var x, y := player.x, player.y;
      if input.up { y := y - Speed; }
      if input.down { y := y + Speed; }
      if input.left { x := x - Speed; }
      if input.right { x := x + Speed; }
      x := MaxReal(PlayerSize / 2.0, MinReal(WorldWidth - PlayerSize / 2.0, x));
      y := MaxReal(PlayerSize / 2.0, MinReal(WorldHeight - PlayerSize / 2.0, y));
      ghost var q := Move(player.Position(), input);
      assert x == q.x && y == q.y;
      players := players[id := player.(x := x, y := y)];
      assert Snapshot() == Simulation.Input(r, id, input);
      moved := x != prevX || y != prevY;
    }

    /** The `arrowHit` handler; `killed` tells whether `mobKilled` is broadcast. */
    method ArrowHit(caller: PlayerId, mobId: MobId) returns (killed: bool)
      requires Valid()
      modifies this
      ensures Valid() && Snapshot() == Simulation.ArrowHit(old(Snapshot()), caller, mobId)
      ensures killed <==> mobId in old(mobs) && mobId !in mobs
    {
      ghost var r := Snapshot();
      Invariants.ArrowHitKeepsValid(r, caller, mobId);
      if mobId !in mobs {
        killed := false;
        return;
      }
      // The table updates go to local copies that are written back together.
      var ms, ps := mobs, players;
      var mob := ms[mobId];
      mob := mob.(hp := mob.hp - ArrowDamage, lastHitBy := Some(caller));
      ms := ms[mobId := mob];
      killed := mob.hp <= 0;
      if killed {
        ms := ms - {mobId};
        if mob.lastHitBy.Some? && mob.lastHitBy.value in ps {
          var killerId := mob.lastHitBy.value;
          ps := ps[killerId := CreditKill(ps[killerId])];
        }
        assert ps == CreditLastHitter(r.players, mob.lastHitBy);
      }
      assert r.(mobs := ms, players := ps) == Simulation.ArrowHit(r, caller, mobId);
      mobs, players := ms, ps;
      assert Snapshot() == Simulation.ArrowHit(r, caller, mobId);
    }

    /** The `disconnect` handler. */
    method Disconnect(id: PlayerId)
      requires Valid()
      modifies this
      ensures Valid() && Snapshot() == Simulation.Disconnect(old(Snapshot()), id)
    {
      Invariants.DisconnectKeepsValid(Snapshot(), id);
      players := players - {id};
    }
  }
}
