/**
 * The Combat Resolver over a run of hit claims on one mob: damage accumulates
 * twelve per claim, the mob is removed by exactly one claim, and exactly that
 * claim's sender is credited, once.
 */
module Combat {
  import opened Base
  import opened Entities
  import opened Simulation

  /** `arrowHit` messages on `mobId` from `callers`, in arrival order. */
  function HitAll(r: Room, mobId: MobId, callers: seq<PlayerId>): Room
    decreases |callers|
  {
    if callers == [] then r else HitAll(ArrowHit(r, callers[0], mobId), mobId, callers[1..])
  }

  /** Claims against a mob that is gone (already killed, or never spawned) change nothing. */
  lemma {:induction false} HitsOnAbsentMob(r: Room, mobId: MobId, callers: seq<PlayerId>)
    requires mobId !in r.mobs
    ensures HitAll(r, mobId, callers) == r
    decreases |callers|
  {
    if callers != [] {
      HitsOnAbsentMob(ArrowHit(r, callers[0], mobId), mobId, callers[1..]);
    }
  }

  /**
   * After any run of claims on a live mob with `h` hit points: while fewer than
   * `h / 12` claims have arrived the mob is alive with exactly twelve hit points
   * less per claim, attributed to the latest claimant, and nobody is rewarded;
   * after that the mob is gone and only the sender of claim number `(h - 1) / 12`
   * (counting from 0) has been credited, once. Other mobs are untouched.
   */
  lemma {:induction false} RepeatedHits(r: Room, mobId: MobId, callers: seq<PlayerId>)
    requires mobId in r.mobs && r.mobs[mobId].hp > 0
    ensures var h := r.mobs[mobId].hp; var r' := HitAll(r, mobId, callers);
      && r' == r.(mobs := r'.mobs, players := r'.players)
      && r'.mobs - {mobId} == r.mobs - {mobId}
      && (ArrowDamage * |callers| < h ==>
            && mobId in r'.mobs
            && r'.mobs[mobId].hp == h - ArrowDamage * |callers|
            && r'.mobs[mobId].maxHp == r.mobs[mobId].maxHp
            && (callers != [] ==> r'.mobs[mobId].lastHitBy == Some(callers[|callers| - 1]))
            && r'.players == r.players)
      && (ArrowDamage * |callers| >= h ==>
            && mobId !in r'.mobs
            && r'.players == CreditLastHitter(r.players, Some(callers[(h - 1) / ArrowDamage])))
    decreases |callers|
  {
    var h := r.mobs[mobId].hp;
    if callers != [] {
      var r1 := ArrowHit(r, callers[0], mobId);
      var rest := callers[1..];
      if h <= ArrowDamage {
        HitsOnAbsentMob(r1, mobId, rest);
        assert (h - 1) / ArrowDamage == 0;
      } else {
        RepeatedHits(r1, mobId, rest);
        assert r1.mobs[mobId].hp == h - ArrowDamage;
        if ArrowDamage * |callers| >= h {
          assert (h - ArrowDamage - 1) / ArrowDamage == (h - 1) / ArrowDamage - 1;
          assert rest[(h - ArrowDamage - 1) / ArrowDamage] == callers[(h - 1) / ArrowDamage];
        } else if rest != [] {
          assert rest[|rest| - 1] == callers[|callers| - 1];
        }
      }
    }
  }
}
