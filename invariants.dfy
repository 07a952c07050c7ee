/**
 * Every handler and timer callback keeps the room invariant `Valid`, and
 * start-up establishes it.
 */
module Invariants {
  import opened Base
  import opened WaveDirector
  import opened Movement
  import opened Entities
  import opened Simulation

  lemma InitialValid()
    ensures Valid(Initial)
  {
    assert GetWaveStats(0, 1) == WaveStats(30, 5);
  }

  /** Closed form of a run of breaches on a non-negative core. */
  lemma {:induction false} BreachesClosedForm(c: Core, k: nat)
    requires c.hp >= 0
    ensures Breaches(c, k) == if k == 0 then c else Core(Max(0, c.hp - BreachDamage * k), c.over || c.hp - BreachDamage * k <= 0)
  {
    if k > 1 {
      BreachesClosedForm(c, k - 1);
    }
  }

  /** Breaches never drive the core below 0 nor raise it, and the game ends when it reaches 0. */
  lemma BreachesKeepCore(c: Core, k: nat)
    requires 0 < c.hp <= MaxCoreHP && !c.over
    ensures var d := Breaches(c, k); 0 <= d.hp <= c.hp && (d.over <==> d.hp == 0)
  {
    BreachesClosedForm(c, k);
  }

  lemma SpawnMobKeepsValid(r: Room)
    requires Valid(r)
    ensures Valid(SpawnMob(r))
  {
    var r' := SpawnMob(r);
    if SpawnGate(r) {
      assert r.mobIdCounter !in r.mobs;
      assert |r'.mobs| == |r.mobs| + 1;
    }
  }

  lemma MapMinusSize<K, V>(m: map<K, V>, s: set<K>)
    ensures |m - s| <= |m|
  {
    assert (m - s).Keys <= m.Keys;
    SubsetSize((m - s).Keys, m.Keys);
  }

  lemma {:induction false} SubsetSize<T>(a: set<T>, b: set<T>)
    requires a <= b
    ensures |a| <= |b|
    decreases b
  {
    if a != {} {
      var x :| x in a;
      SubsetSize(a - {x}, b - {x});
    }
  }

  /**
   * One visit of the breach loop in `updateMobs`: `breached` holds the arrived
   * mobs among those already visited; visiting `id` extends it by `id` if it arrived.
   */
  lemma VisitStep<K, V>(m0: map<K, V>, todo: set<K>, arrived: set<K>, breached: set<K>, id: K)
    requires todo <= m0.Keys && id in todo
    requires breached == (m0.Keys - todo) * arrived
    ensures id !in breached
    ensures (if id in arrived then breached + {id} else breached) == (m0.Keys - (todo - {id})) * arrived
    ensures (m0 - breached) - {id} == m0 - (breached + {id})
    ensures id in arrived ==> |breached + {id}| == |breached| + 1
  {
  }

  lemma UpdateMobsKeepsValid(r: Room, arrived: set<MobId>)
    requires Valid(r)
    ensures Valid(UpdateMobs(r, arrived))
  {
    if !r.gameOver {
      var k := |r.mobs.Keys * arrived|;
      BreachesKeepCore(Core(r.coreHP, false), k);
      MapMinusSize(r.mobs, arrived);
      if r.state != Playing {
        assert r.mobs == map[];
        assert r.mobs.Keys * arrived == {};
      }
    }
  }

  lemma CheckWaveCompleteKeepsValid(r: Room)
    requires Valid(r)
    ensures Valid(CheckWaveComplete(r))
  {
    if WaveDone(r) {
      assert r.mobs == map[];
    }
  }

  lemma TickKeepsValid(r: Room, arrived: set<MobId>)
    requires Valid(r)
    ensures Valid(Tick(r, arrived))
  {
    if r.state == Playing {
      UpdateMobsKeepsValid(r, arrived);
      CheckWaveCompleteKeepsValid(UpdateMobs(r, arrived));
    }
  }

  lemma StartGameValid(r: Room)
    requires PlayersValid(r.players)
    ensures Valid(StartGame(r))
  {
  }

  lemma ToggleReadyKeepsValid(r: Room, id: PlayerId)
    requires Valid(r)
    ensures Valid(ToggleReady(r, id))
  {
    if id in r.players && r.state == Lobby {
      var r1 := r.(players := FlipReady(r.players, id));
      assert PlayersValid(r1.players);
      if |r1.players| > 0 && AllReady(r1.players) {
        StartGameValid(r1);
      }
    }
  }

  /** The random respawn points all lie in the square around the core that holds the spawn circle. */
  ghost predicate PlacementNearCore(place: PlayerId -> Pos)
  {
    forall id :: NearCore(place(id))
  }

  lemma ResetGameValid(r: Room, place: PlayerId -> Pos)
    requires PlacementNearCore(place)
    ensures Valid(ResetGame(r, place))
  {
    var r' := ResetGame(r, place);
    InitialValid();
    forall id | id in r'.players
      ensures InWorld(r'.players[id].Position()) && ProgressConsistent(r'.players[id])
    {
      NearCoreIsInWorld(place(id));
    }
  }

  lemma ConnectKeepsValid(r: Room, id: PlayerId, at: Pos)
    requires Valid(r) && NearCore(at)
    ensures Valid(Connect(r, id, at))
  {
    NearCoreIsInWorld(at);
    if r.state == Lobby {
      assert Connect(r, id, at).(players := map[]) == r.(players := map[]);
    }
  }

  lemma DisconnectKeepsValid(r: Room, id: PlayerId)
    requires Valid(r)
    ensures Valid(Disconnect(r, id))
  {
    if r.state == Lobby {
      assert Disconnect(r, id).(players := map[]) == r.(players := map[]);
    }
  }

  lemma InputKeepsValid(r: Room, id: PlayerId, input: MoveInput)
    requires Valid(r)
    ensures Valid(Input(r, id, input))
  {
    if r.state == Lobby {
      assert Input(r, id, input).(players := map[]) == r.(players := map[]);
    }
  }

  lemma ArrowHitKeepsValid(r: Room, caller: PlayerId, mobId: MobId)
    requires Valid(r)
    ensures Valid(ArrowHit(r, caller, mobId))
  {
    if mobId in r.mobs {
      var r' := ArrowHit(r, caller, mobId);
      if r.mobs[mobId].hp <= ArrowDamage {
        MapMinusSize(r.mobs, {mobId});
      }
      assert PlayersValid(r'.players);
    }
  }
}
