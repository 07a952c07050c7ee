/** Properties of the match state machine across consecutive calls. */
module MatchProperties {
  import opened WaveDirector
  import opened Entities
  import opened Simulation

  /** Evaluating the wave check again right after it fired does nothing. */
  lemma CheckWaveCompleteIdempotent(r: Room)
    ensures CheckWaveComplete(CheckWaveComplete(r)) == CheckWaveComplete(r)
  {
    var r' := CheckWaveComplete(r);
    if WaveDone(r) && r'.state == Playing {
      assert r'.mobsSpawnedThisWave == 0 < r'.mobsPerWave;
    }
  }

  /** The match is won exactly when the wave that just completed was the last one. */
  lemma VictoryAfterLastWave(r: Room)
    requires Valid(r) && WaveDone(r)
    ensures CheckWaveComplete(r).state == Victory <==> r.currentWave == MaxWaves
    ensures CheckWaveComplete(r).state == Playing <==> r.currentWave < MaxWaves
  {
  }

  /** A tick right after a wave transition does nothing to the wave counters. */
  lemma TickAfterWaveStartKeepsWave(r: Room, arrived: set<MobId>)
    requires Valid(r) && WaveDone(r) && r.currentWave < MaxWaves
    ensures var r' := CheckWaveComplete(r); Tick(r', arrived).currentWave == r'.currentWave
  {
    var r' := CheckWaveComplete(r);
    assert r'.mobs == map[];
  }
}
