/**
 * The Wave Director: per-wave mob hit points and quota as a function of the
 * wave number and the number of connected players, and the spawn cadence.
 */
module WaveDirector {
  import opened Base

  /** Hit points of a wave-0, single-player mob, before any scaling. */
  const BaseMobHP: nat := 30
  /** Quota of a wave-0 wave, before scaling by players. */
  const BaseQuota: nat := 5
  const BaseSpawnInterval: int := 2000
  const MinSpawnInterval: int := 1000
  const SpawnIntervalStep: int := 300

  datatype WaveStats = WaveStats(mobHP: nat, mobsPerWave: nat)

  /** `Math.max(1, numPlayers)`: an empty server is priced as one player. */
  function PlayerCount(numPlayers: nat): (p: nat)
    ensures p >= 1
    ensures numPlayers >= 1 ==> p == numPlayers
    ensures numPlayers == 0 ==> p == 1
  {
    if numPlayers < 1 then 1 else numPlayers
  }

  /**
   * The source's hit-point expression `30 * (1 + wave * 0.5) * (1 + (p - 1) * 0.7)`,
   * read as an exact rational number.
   */
  ghost function HPProduct(wave: nat, p: nat): real
  {
    30.0 * (1.0 + wave as real * 0.5) * (1.0 + (p as real - 1.0) * 0.7)
  }

  /**
   * `getWaveStats`: the hit points of every mob of a wave and how many mobs the
   * wave spawns. The hit points are `floor(3 (2 + w) (3 + 7 p) / 2)`, which is the
   * floor of `HPProduct` (lemma MobHPIsFloorOfProduct).
   */
  function GetWaveStats(wave: nat, numPlayers: nat): (s: WaveStats)
    ensures s.mobHP >= BaseMobHP
    ensures s.mobsPerWave >= BaseQuota + 2 * wave
    ensures s.mobsPerWave == (BaseQuota + 2 * wave) * PlayerCount(numPlayers)
  {
    var p := PlayerCount(numPlayers);
    MulAtLeast(BaseQuota + 2 * wave, p);
    MulAtLeast(3 * (2 + wave), 3 + 7 * p);
    WaveStats(3 * (2 + wave) * (3 + 7 * p) / 2, (BaseQuota + 2 * wave) * p)
  }

  lemma MulAtLeast(a: nat, b: nat)
    requires b >= 1
    ensures a * b >= a
  {
    assert a * b == a * (b - 1) + a;
  }

  lemma MulMonotone(a: nat, b: nat, c: nat)
    requires a <= b
    ensures a * c <= b * c
  {
    assert b * c == a * c + (b - a) * c;
  }

  /** The integer formula of GetWaveStats is exactly the floor of the source's product. */
  lemma MobHPIsFloorOfProduct(wave: nat, numPlayers: nat)
    ensures var hp := GetWaveStats(wave, numPlayers).mobHP;
      hp as real <= HPProduct(wave, PlayerCount(numPlayers)) < hp as real + 1.0
  {
    var p := PlayerCount(numPlayers);
    var a := 2 + wave;
    var b := 3 + 7 * p;
    var n := 3 * a * b;
    assert 1.0 + wave as real * 0.5 == a as real / 2.0;
    assert 1.0 + (p as real - 1.0) * 0.7 == b as real / 10.0;
    CastTripleProduct(a, b);
    assert HPProduct(wave, p) == n as real / 2.0;
    HalfFloor(n);
  }

  lemma CastTripleProduct(a: nat, b: nat)
    ensures (3 * a * b) as real == 3.0 * (a as real) * (b as real)
  {
    assert (3 * a) as real == 3.0 * (a as real);
    assert ((3 * a) * b) as real == ((3 * a) as real) * (b as real);
  }

  lemma HalfFloor(n: nat)
    ensures (n / 2) as real <= n as real / 2.0 < (n / 2) as real + 1.0
  {
    assert n == 2 * (n / 2) + n % 2;
  }

  /** Quota and hit points never fall as the wave number grows. */
  lemma {:induction false} WaveStatsMonotoneInWave(w1: nat, w2: nat, numPlayers: nat)
    requires w1 <= w2
    ensures GetWaveStats(w1, numPlayers).mobHP <= GetWaveStats(w2, numPlayers).mobHP
    ensures GetWaveStats(w1, numPlayers).mobsPerWave <= GetWaveStats(w2, numPlayers).mobsPerWave
  {
    var p := PlayerCount(numPlayers);
    MulMonotone(BaseQuota + 2 * w1, BaseQuota + 2 * w2, p);
    MulMonotone(3 * (2 + w1), 3 * (2 + w2), 3 + 7 * p);
  }

  /** Quota and hit points never fall as the number of players grows. */
  lemma {:induction false} WaveStatsMonotoneInPlayers(wave: nat, n1: nat, n2: nat)
    requires n1 <= n2
    ensures GetWaveStats(wave, n1).mobHP <= GetWaveStats(wave, n2).mobHP
    ensures GetWaveStats(wave, n1).mobsPerWave <= GetWaveStats(wave, n2).mobsPerWave
  {
    var p1, p2 := PlayerCount(n1), PlayerCount(n2);
    assert BaseQuota + 2 * wave >= 0;
    MulMonotone(p1, p2, BaseQuota + 2 * wave);
    MulMonotone(3 + 7 * p1, 3 + 7 * p2, 3 * (2 + wave));
    assert (BaseQuota + 2 * wave) * p1 == p1 * (BaseQuota + 2 * wave);
    assert (BaseQuota + 2 * wave) * p2 == p2 * (BaseQuota + 2 * wave);
    assert 3 * (2 + wave) * (3 + 7 * p1) == (3 + 7 * p1) * (3 * (2 + wave));
    assert 3 * (2 + wave) * (3 + 7 * p2) == (3 + 7 * p2) * (3 * (2 + wave));
  }

  /**
   * `getSpawnInterval`: milliseconds between spawns in the given wave. It starts
   * at 2000 ms in wave 1, drops 300 ms per wave and never goes below 1000 ms.
   */
  function SpawnInterval(wave: nat): (ms: int)
    ensures ms >= MinSpawnInterval
    ensures wave >= 1 ==> ms <= BaseSpawnInterval
    ensures wave == 1 ==> ms == BaseSpawnInterval
    ensures ms > MinSpawnInterval ==> ms == BaseSpawnInterval - (wave - 1) * SpawnIntervalStep
    ensures ms >= BaseSpawnInterval - (wave - 1) * SpawnIntervalStep
  {
    Max(MinSpawnInterval, BaseSpawnInterval - (wave - 1) * SpawnIntervalStep)
  }

  /** Later waves never spawn more slowly. */
  lemma SpawnIntervalNonIncreasing(w1: nat, w2: nat)
    requires w1 <= w2
    ensures SpawnInterval(w2) <= SpawnInterval(w1)
  {
  }
}
