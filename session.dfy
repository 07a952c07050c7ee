/**
 * Runs of intents against the room: every message and timer callback the
 * server handles, applied in order. Properties of whole runs live here.
 */
module Session {
  import opened Base
  import opened WaveDirector
  import opened Movement
  import opened Entities
  import opened Simulation
  import opened Invariants

  /** One thing that can happen to the room: a timer firing or a socket event. */
  datatype Intent =
    | SpawnTimerFired
    | SimulationTick(arrived: set<MobId>)
    | ReadyToggled(id: PlayerId)
    | MoveRequested(id: PlayerId, input: MoveInput)
    | HitClaimed(id: PlayerId, mobId: MobId)
    | Connected(id: PlayerId, at: Pos)
    | Disconnected(id: PlayerId)
    | ResetRequested(place: PlayerId -> Pos)

  function Apply(r: Room, e: Intent): Room
  {
    match e
    case SpawnTimerFired => SpawnMob(r)
    case SimulationTick(arrived) => Tick(r, arrived)
    case ReadyToggled(id) => ToggleReady(r, id)
    case MoveRequested(id, input) => Input(r, id, input)
    case HitClaimed(id, mobId) => ArrowHit(r, id, mobId)
    case Connected(id, at) => Connect(r, id, at)
    case Disconnected(id) => Disconnect(r, id)
    case ResetRequested(place) => ResetGame(r, place)
  }

  function Run(r: Room, es: seq<Intent>): Room
    decreases |es|
  {
    if es == [] then r else Run(Apply(r, es[0]), es[1..])
  }

  /** Random positions drawn by the server lie in the square around the core that holds the spawn circle. */
  ghost predicate Admissible(e: Intent)
  {
    match e
    case Connected(_, at) => NearCore(at)
    case ResetRequested(place) => PlacementNearCore(place)
    case _ => true
  }

  lemma ApplyKeepsValid(r: Room, e: Intent)
    requires Valid(r) && Admissible(e)
    ensures Valid(Apply(r, e))
  {
    match e
    case SpawnTimerFired => SpawnMobKeepsValid(r);
    case SimulationTick(arrived) => TickKeepsValid(r, arrived);
    case ReadyToggled(id) => ToggleReadyKeepsValid(r, id);
    case MoveRequested(id, input) => InputKeepsValid(r, id, input);
    case HitClaimed(id, mobId) => ArrowHitKeepsValid(r, id, mobId);
    case Connected(id, at) => ConnectKeepsValid(r, id, at);
    case Disconnected(id) => DisconnectKeepsValid(r, id);
    case ResetRequested(place) => ResetGameValid(r, place);
  }

  /** The invariant holds after every run of intents. */
  lemma {:induction false} RunKeepsValid(r: Room, es: seq<Intent>)
    requires Valid(r)
    requires forall i :: 0 <= i < |es| ==> Admissible(es[i])
    ensures Valid(Run(r, es))
    decreases |es|
  {
    if es != [] {
      ApplyKeepsValid(r, es[0]);
      RunKeepsValid(Apply(r, es[0]), es[1..]);
    }
  }

  /**
   * From start-up, whatever happens: every player is inside the world, the core
   * has between 0 and 100 hit points, at most a quota of mobs is alive, no
   * spawned mob has non-positive hit points, and the spawn timer never fires
   * faster than once a second.
   */
  lemma ReachableStates(es: seq<Intent>)
    requires forall i :: 0 <= i < |es| ==> Admissible(es[i])
    ensures var r := Run(Initial, es);
      && (forall id :: id in r.players ==> InWorld(r.players[id].Position()))
      && 0 <= r.coreHP <= MaxCoreHP
      && |r.mobs| <= r.mobsPerWave
      && (forall id :: id in r.mobs ==> r.mobs[id].hp > 0)
      && (r.spawner.Every? ==> r.spawner.ms >= MinSpawnInterval)
  {
    InitialValid();
    RunKeepsValid(Initial, es);
  }

  /**
   * Game over is terminal until a reset: no intent other than a reset revives the
   * core, leaves PLAYING, advances the wave, spawns a mob or touches the timer.
   */
  lemma {:induction false} GameOverPersists(r: Room, es: seq<Intent>)
    requires r.gameOver && r.state == Playing
    requires forall i :: 0 <= i < |es| ==> !es[i].ResetRequested?
    ensures var r' := Run(r, es);
      && r'.gameOver && r'.state == Playing && r'.coreHP == r.coreHP
      && r'.currentWave == r.currentWave && r'.wave == r.wave
      && r'.mobIdCounter == r.mobIdCounter && r'.mobsSpawnedThisWave == r.mobsSpawnedThisWave
      && r'.mobs.Keys <= r.mobs.Keys
      && r'.spawner == r.spawner
    decreases |es|
  {
    if es != [] {
      var r1 := Apply(r, es[0]);
      assert r1.mobs.Keys <= r.mobs.Keys;
      GameOverPersists(r1, es[1..]);
    }
  }

  /**
   * Two players join and both toggle ready: the lobby holds after the first
   * toggle and the match starts on the second, at wave 1 with a full core, a
   * 2000 ms spawn timer, a quota of 14 and 76 hit points per mob.
   */
  lemma TwoPlayersStartAMatch(a: PlayerId, b: PlayerId, pa: Pos, pb: Pos)
    requires a != b
    ensures Run(Initial, [Connected(a, pa), Connected(b, pb), ReadyToggled(a)]).state == Lobby
    ensures var r := Run(Initial, [Connected(a, pa), Connected(b, pb), ReadyToggled(a), ReadyToggled(b)]);
      && r.state == Playing && r.currentWave == 1 && r.wave == 1
      && r.coreHP == MaxCoreHP && !r.gameOver && r.mobs == map[]
      && r.spawner == Every(2000)
      && r.mobsPerWave == 14 && r.currentMobHP == 76
  {
    var r1 := Connect(Initial, a, pa);
    var r2 := Connect(r1, b, pb);
    var r3 := ToggleReady(r2, a);
    var r4 := ToggleReady(r3, b);
    assert r3 == r2.(players := FlipReady(r2.players, a)) by {
      assert !AllReady(FlipReady(r2.players, a)) by {
        assert b in FlipReady(r2.players, a) && !FlipReady(r2.players, a)[b].ready;
      }
    }
    assert |r3.players| == 2 by {
      assert r3.players.Keys == {a, b};
    }
    var r5 := r3.(players := FlipReady(r3.players, b));
    assert AllReady(r5.players);
    assert r4 == StartGame(r5);
    assert GetWaveStats(1, |r5.players|) == WaveStats(76, 14);
    assert Apply(Initial, Connected(a, pa)) == r1 && Apply(r1, Connected(b, pb)) == r2;
    assert Apply(r2, ReadyToggled(a)) == r3 && Apply(r3, ReadyToggled(b)) == r4;
    RunThree(Initial, Connected(a, pa), Connected(b, pb), ReadyToggled(a));
    RunFour(Initial, Connected(a, pa), Connected(b, pb), ReadyToggled(a), ReadyToggled(b));
    assert Run(Initial, [Connected(a, pa), Connected(b, pb), ReadyToggled(a), ReadyToggled(b)]) == r4;
  }

  lemma RunThree(r: Room, e1: Intent, e2: Intent, e3: Intent)
    ensures Run(r, [e1, e2, e3]) == Apply(Apply(Apply(r, e1), e2), e3)
  {
    var r1 := Apply(r, e1);
    var r2 := Apply(r1, e2);
    assert [e1, e2, e3][1..] == [e2, e3] && [e2, e3][1..] == [e3] && [e3][1..] == [];
    assert Run(r2, [e3]) == Apply(r2, e3);
    assert Run(r1, [e2, e3]) == Run(r2, [e3]);
    assert Run(r, [e1, e2, e3]) == Run(r1, [e2, e3]);
  }

  lemma RunFour(r: Room, e1: Intent, e2: Intent, e3: Intent, e4: Intent)
    ensures Run(r, [e1, e2, e3, e4]) == Apply(Apply(Apply(Apply(r, e1), e2), e3), e4)
  {
    var es := [e1, e2, e3, e4];
    assert es[0] == e1 && es[1..] == [e2, e3, e4];
    assert Run(r, es) == Run(Apply(r, e1), [e2, e3, e4]);
    RunThree(Apply(r, e1), e2, e3, e4);
  }
}
