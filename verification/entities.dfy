/**
 * Falling entities: the laddoos to catch and the hazards to avoid, how they are spawned
 * at the top of the playfield and how they fall.
 */
module Entities {
  import opened Geometry

  /** Logical playfield size; the drawing surface is scaled, the game space is not. */
  const BaseWidth: real := 375.0
  const BaseHeight: real := 667.0
  const GameWidth: real := BaseWidth
  const GameHeight: real := BaseHeight

  /** Per-frame spawn probabilities, base fall speeds and the off-screen spawn margin. */
  const LaddooSpawnRate: real := 0.015
  const LaddooSpeed: real := 2.5
  const BadObjectSpawnRate: real := 0.015
  const BadObjectSpeed: real := 2.5
  const SpawnPadding: real := 60.0

  /** Size and starting height of every spawned entity. */
  const EntitySize: real := 50.0
  const SpawnY: real := -30.0

  /** What an entity is; the four hazard kinds only select a picture. */
  datatype Kind = Laddoo | Ball | Poop | Hanger | Boots
  {
    predicate IsHazard() { !Laddoo? }
  }

  /** The hazard kinds in the order a random draw indexes them. */
  const BadObjectTypes: seq<Kind> := [Ball, Poop, Hanger, Boots]

  datatype Entity = Entity(x: real, y: real, width: real, height: real, speed: real, kind: Kind)
  {
    function Box(): Rect { Rect(x, y, width, height) }
  }

  /** Horizontal spawn position for a draw `r` in [0, 1): a stretch wider than the field. */
  function SpawnX(r: real): (x: real)
    ensures 0.0 <= r < 1.0 ==> -SpawnPadding <= x < BaseWidth - EntitySize + SpawnPadding
  {
    -SpawnPadding + r * (BaseWidth - EntitySize + SpawnPadding * 2.0)
  }

  /** A fresh laddoo from the two draws for its position and its speed. */
  function NewLaddoo(rx: real, rs: real): (e: Entity)
    requires 0.0 <= rx < 1.0 && 0.0 <= rs < 1.0
    ensures e.kind == Laddoo && e.x == SpawnX(rx)
    ensures e.y == SpawnY && e.width == EntitySize && e.height == EntitySize
    ensures -SpawnPadding <= e.x < BaseWidth - EntitySize + SpawnPadding
    ensures e.speed == LaddooSpeed + rs * 2.0 && LaddooSpeed <= e.speed < LaddooSpeed + 2.0
  {
    Entity(SpawnX(rx), SpawnY, EntitySize, EntitySize, LaddooSpeed + rs * 2.0, Laddoo)
  }

  /** The hazard kind selected by a draw `r` in [0, 1): the floor of `4 * r` indexes the list. */
  function HazardKind(r: real): (k: Kind)
    requires 0.0 <= r < 1.0
    ensures k.IsHazard() && k in BadObjectTypes
  {
    BadObjectTypes[(r * |BadObjectTypes| as real).Floor]
  }

  /** A fresh hazard from the draws for its kind, its position and its speed. */
  function NewBadObject(rk: real, rx: real, rs: real): (e: Entity)
    requires 0.0 <= rk < 1.0 && 0.0 <= rx < 1.0 && 0.0 <= rs < 1.0
    ensures e.kind == HazardKind(rk) && e.x == SpawnX(rx)
    ensures e.y == SpawnY && e.width == EntitySize && e.height == EntitySize
    ensures -SpawnPadding <= e.x < BaseWidth - EntitySize + SpawnPadding
    ensures e.speed == BadObjectSpeed + rs * 2.0 && BadObjectSpeed <= e.speed < BadObjectSpeed + 2.0
  {
    Entity(SpawnX(rx), SpawnY, EntitySize, EntitySize, BadObjectSpeed + rs * 2.0, HazardKind(rk))
  }

  /**
   * Every hazard kind is chosen on a quarter of the unit interval: kind number `i` is
   * picked exactly by the draws in [i/4, (i+1)/4).
   */
  lemma HazardKindQuarters(r: real, i: nat)
    requires 0.0 <= r < 1.0 && i < |BadObjectTypes|
    ensures HazardKind(r) == BadObjectTypes[i] <==> i as real / 4.0 <= r < (i + 1) as real / 4.0
  {
    var n := (r * 4.0).Floor;
    assert n as real <= r * 4.0 < n as real + 1.0;
    assert 0 <= n < 4;
    assert forall p, q :: 0 <= p < 4 && 0 <= q < 4 && BadObjectTypes[p] == BadObjectTypes[q] ==> p == q;
    assert HazardKind(r) == BadObjectTypes[i] <==> n == i;
  }

  /** Every position of the spawn stretch is reached by exactly one draw in [0, 1). */
  lemma SpawnXCoversStretch(x: real)
    requires -SpawnPadding <= x < BaseWidth - EntitySize + SpawnPadding
    ensures exists r :: 0.0 <= r < 1.0 && SpawnX(r) == x
    ensures forall r, r' :: SpawnX(r) == x && SpawnX(r') == x ==> r == r'
  {
    var r := (x + SpawnPadding) / (BaseWidth - EntitySize + SpawnPadding * 2.0);
    assert SpawnX(r) == x;
  }

  /**
   * One frame of falling: the entity moves down by exactly its own speed and nothing else
   * about it changes. The contract names each field on its own rather than as a record
   * update, which keeps the proofs that unfold a pass cheap.
   */
  function Moved(e: Entity): (m: Entity)
    ensures m.y == e.y + e.speed
    ensures m.x == e.x && m.width == e.width && m.height == e.height && m.speed == e.speed && m.kind == e.kind
  {
    e.(y := e.y + e.speed)
  }

  /** An entity stays in play until its top edge is below the playfield's bottom. */
  predicate OnField(e: Entity)
  {
    !(e.y > GameHeight)
  }
}
