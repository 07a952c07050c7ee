/** The two kinds of record the server keeps: players and mobs. */
module Entities {
  import opened Base
  import opened Movement

  /** A socket id. */
  type PlayerId = string
  /** The counter value n of a mob id `mob_<n>`. */
  type MobId = nat

  const GoldReward: nat := 10
  const KillsToLevel: nat := 5
  const StartFireRate: int := 500
  const FireRateFloor: int := 500
  const FireRateStep: int := 50

  datatype Player = Player(x: real, y: real, gold: nat, kills: nat, level: nat, fireRate: int, ready: bool)
  {
    function Position(): Pos { Pos(x, y) }
  }

  /** A mob; its position and steering are not modelled. */
  datatype Mob = Mob(hp: int, maxHp: int, waypointIndex: nat, lastHitBy: Option<PlayerId>)

  /** The record a new connection gets. */
  function NewPlayer(at: Pos): (p: Player)
    ensures p.Position() == at && !p.ready
    ensures ProgressConsistent(p) && p.kills == 0
  {
    Player(at.x, at.y, 0, 0, 1, StartFireRate, false)
  }

  /** The record `spawnMob` creates: full health, at the first waypoint, never hit. */
  function NewMob(hp: int): (m: Mob)
    ensures m.hp == m.maxHp == hp && m.waypointIndex == 0 && m.lastHitBy == None
  {
    Mob(hp, hp, 0, None)
  }

  /**
   * How kills, gold, level and fire rate stay related: ten gold per kill, one
   * level per five kills, and a fire rate that never leaves 500 because its floor
   * is its starting value.
   */
  ghost predicate ProgressConsistent(p: Player)
  {
    p.gold == GoldReward * p.kills && p.level == 1 + p.kills / KillsToLevel && p.fireRate == StartFireRate
  }

  /** The reward a killer gets in `arrowHit`. */
  function CreditKill(p: Player): (q: Player)
    ensures q.gold == p.gold + GoldReward && q.kills == p.kills + 1
    ensures q.level != p.level <==> q.kills % KillsToLevel == 0
    ensures p.level <= q.level <= p.level + 1
    ensures q.level == p.level ==> q.fireRate == p.fireRate
    ensures q.level != p.level ==> q.fireRate == Max(FireRateFloor, p.fireRate - FireRateStep)
    ensures q.level != p.level ==> FireRateFloor <= q.fireRate <= Max(FireRateFloor, p.fireRate)
    ensures q.Position() == p.Position() && q.ready == p.ready
    ensures ProgressConsistent(p) ==> ProgressConsistent(q)
  {
    var kills := p.kills + 1;
    var q := p.(gold := p.gold + GoldReward, kills := kills);
    if kills % KillsToLevel == 0 then
      q.(level := q.level + 1, fireRate := Max(FireRateFloor, q.fireRate - FireRateStep))
    else
      q
  }
}
