/**
 * World geometry and the movement intent: a player moves SPEED units per
 * pressed key and is then clamped to the world rectangle shrunk by half a
 * player on every side.
 */
module Movement {
  import opened Base

  const WorldWidth: real := 800.0
  const WorldHeight: real := 600.0
  const PlayerSize: real := 32.0
  const Speed: real := 4.0
  const CoreX: real := 400.0
  const CoreY: real := 300.0
  /** Players (re)appear at this distance from the core. */
  const SpawnRadius: real := 100.0

  const MinX: real := PlayerSize / 2.0
  const MaxX: real := WorldWidth - PlayerSize / 2.0
  const MinY: real := PlayerSize / 2.0
  const MaxY: real := WorldHeight - PlayerSize / 2.0

  datatype Pos = Pos(x: real, y: real)

  /** The four direction flags of an `input` message. */
  datatype MoveInput = MoveInput(up: bool, down: bool, left: bool, right: bool)

  /** The rectangle every player position is kept in: [16, 784] x [16, 584]. */
  predicate InWorld(p: Pos)
  {
    MinX <= p.x <= MaxX && MinY <= p.y <= MaxY
  }

  /**
   * The square around the core that contains the circle of radius SpawnRadius
   * on which a (re)spawned player is placed at a random angle.
   */
  predicate NearCore(p: Pos)
  {
    CoreX - SpawnRadius <= p.x <= CoreX + SpawnRadius && CoreY - SpawnRadius <= p.y <= CoreY + SpawnRadius
  }

  lemma NearCoreIsInWorld(p: Pos)
    requires NearCore(p)
    ensures InWorld(p)
  {
  }

  /** `Math.max(lo, Math.min(hi, v))`. */
  function Clamp(lo: real, hi: real, v: real): (c: real)
    requires lo <= hi
    ensures lo <= c <= hi
    ensures lo <= v <= hi ==> c == v
    ensures v < lo ==> c == lo
    ensures v > hi ==> c == hi
  {
    MaxReal(lo, MinReal(hi, v))
  }

  /** Net displacement along one axis: SPEED towards each pressed key. */
  function Axis(towardsLow: bool, towardsHigh: bool): real
  {
    (if towardsHigh then Speed else 0.0) - (if towardsLow then Speed else 0.0)
  }

  /** The position after one `input` message. */
  function Move(p: Pos, input: MoveInput): (q: Pos)
    ensures InWorld(q)
    ensures InWorld(p) ==> -Speed <= q.x - p.x <= Speed && -Speed <= q.y - p.y <= Speed
    ensures InWorld(p) && input.left == input.right ==> q.x == p.x
    ensures InWorld(p) && input.up == input.down ==> q.y == p.y
    ensures InWorld(p) && input.right && !input.left ==> q.x == MinReal(MaxX, p.x + Speed)
    ensures InWorld(p) && input.left && !input.right ==> q.x == MaxReal(MinX, p.x - Speed)
    ensures InWorld(p) && input.down && !input.up ==> q.y == MinReal(MaxY, p.y + Speed)
    ensures InWorld(p) && input.up && !input.down ==> q.y == MaxReal(MinY, p.y - Speed)
  {
    Pos(Clamp(MinX, MaxX, p.x + Axis(input.left, input.right)),
        Clamp(MinY, MaxY, p.y + Axis(input.up, input.down)))
  }
}
