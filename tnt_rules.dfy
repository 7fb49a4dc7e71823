/**
 The rules of the tiny TNT block, stated on values.

 A `Snapshot` is the part of the world the block's callbacks change: the grid
 positions that hold a tiny TNT block and the list of primed tiny TNT entities.
 Every callback of the block is one function from the snapshot before the call
 to the snapshot after it; the engine's delivery of events to the block is
 `Step`, and `Run` replays a sequence of events.
 */
module TinyTntRules {

  datatype Option<T> = None | Some(value: T)

  /** A block position in the world grid. */
  datatype Pos = Pos(x: int, y: int, z: int)

  /** The stable identity (UUID) of an entity of the world. */
  type EntityId = int

  /** A primed tiny TNT entity: centred on block `centre`, attributed to
      `igniter` (none for a redstone ignition), with `fuse` ticks to go. */
  datatype Primed = Primed(centre: Pos, igniter: Option<EntityId>, fuse: int)

  /** The kind of a held item; only flint and steel matters to the block. */
  datatype Item = FlintAndSteel | OtherItem(id: nat)

  /** An entity crossing the block: an arrow, burning or not, with the UUID of
      its shooter when it has one, or any other entity. */
  datatype Crossing = Arrow(burning: bool, shooter: Option<EntityId>) | OtherEntity

  /** An explosion, known by the entity that placed the explosive, if any. */
  datatype Explosion = Explosion(placedBy: Option<EntityId>)

  /** `Delegated` stands for whatever the superclass's activation handler returns. */
  datatype ActionResult = Success | Delegated

  datatype Snapshot = Snapshot(blocks: set<Pos>, entities: seq<Primed>)

  /** Fixed facts about a world: whether it is the client (non-authoritative)
      side, whether it is a server world, and the fuse that a freshly built
      primed entity starts with. */
  datatype Env = Env(isClient: bool, isServerWorld: bool, baseFuse: nat)

  /** `startFuse`: on the server side, one primed entity centred on `pos` is
      appended; on the client side nothing happens. */
  function StartFuse(s: Snapshot, env: Env, pos: Pos, igniter: Option<EntityId>): (r: Snapshot)
    ensures r.blocks == s.blocks
    ensures env.isClient ==> r.entities == s.entities
    ensures !env.isClient ==> r.entities == s.entities + [Primed(pos, igniter, env.baseFuse)]
  {
    if env.isClient then s
    else s.(entities := s.entities + [Primed(pos, igniter, env.baseFuse)])
  }

  /** `World.removeBlock`, an engine primitive. */
  function RemoveBlock(s: Snapshot, pos: Pos): Snapshot {
    s.(blocks := s.blocks - {pos})
  }

  /** The ignition performed by every trigger: `startFuse`, then removal of
      the block, the latter on both sides. */
  function Ignite(s: Snapshot, env: Env, pos: Pos, igniter: Option<EntityId>): (r: Snapshot)
    ensures r.blocks == s.blocks - {pos}
    ensures env.isClient ==> r.entities == s.entities
    ensures !env.isClient ==> r.entities == s.entities + [Primed(pos, igniter, env.baseFuse)]
  {
    RemoveBlock(StartFuse(s, env, pos, igniter), pos)
  }

  predicate IsFlintAndSteel(held: Option<Item>) {
    held == Some(FlintAndSteel)
  }

  /** `onActivated` by `player` holding `held` (None for no item). */
  function Activated(s: Snapshot, env: Env, pos: Pos, player: EntityId, held: Option<Item>): (r: Snapshot)
    ensures IsFlintAndSteel(held) ==> r.blocks == s.blocks - {pos}
    ensures IsFlintAndSteel(held) && !env.isClient ==>
              r.entities == s.entities + [Primed(pos, Some(player), env.baseFuse)]
    ensures IsFlintAndSteel(held) && env.isClient ==> r.entities == s.entities
    ensures !IsFlintAndSteel(held) ==> r == s
  {
    if IsFlintAndSteel(held) then Ignite(s, env, pos, Some(player)) else s
  }

  /** What `onActivated` returns. */
  function ActivationResult(held: Option<Item>): (res: ActionResult)
    ensures res == Success <==> IsFlintAndSteel(held)
    ensures res == Delegated <==> !IsFlintAndSteel(held)
  {
    if IsFlintAndSteel(held) then Success else Delegated
  }

  /** `neighborChanged` and `onBlockAdded` with `power` the redstone power the
      block receives from its neighbours. */
  function Powered(s: Snapshot, env: Env, pos: Pos, power: int): (r: Snapshot)
    ensures power > 0 ==> r.blocks == s.blocks - {pos}
    ensures power > 0 && !env.isClient ==> r.entities == s.entities + [Primed(pos, None, env.baseFuse)]
    ensures power > 0 && env.isClient ==> r.entities == s.entities
    ensures power <= 0 ==> r == s
  {
    if power > 0 then Ignite(s, env, pos, None) else s
  }

  /** The igniter credited for a burning arrow: its shooter, provided the
      world is a server world and the lookup of the shooter's UUID in
      `living` (UUID to "is a living entity") finds a living entity; none
      otherwise. */
  function ShooterIgniter(isServerWorld: bool, living: map<EntityId, bool>, shooter: Option<EntityId>): (r: Option<EntityId>)
    ensures r.Some? <==> isServerWorld && shooter.Some? && shooter.value in living && living[shooter.value]
    ensures r.Some? ==> r == shooter
  {
    if isServerWorld && shooter.Some? && shooter.value in living && living[shooter.value] then shooter
    else None
  }

  /** True when a crossing entity sets the block off on this side. */
  predicate IgnitesOnCrossing(env: Env, entity: Crossing) {
    entity.Arrow? && !env.isClient && entity.burning
  }

  /** `onEntityWalk`: only a burning arrow, on the server side, ignites. */
  function EntityWalk(s: Snapshot, env: Env, pos: Pos, entity: Crossing, living: map<EntityId, bool>): (r: Snapshot)
    ensures IgnitesOnCrossing(env, entity) ==>
              && r.blocks == s.blocks - {pos}
              && r.entities == s.entities + [Primed(pos, ShooterIgniter(env.isServerWorld, living, entity.shooter), env.baseFuse)]
    ensures !IgnitesOnCrossing(env, entity) ==> r == s
  {
    if entity.Arrow? && !env.isClient then
      if entity.burning then Ignite(s, env, pos, ShooterIgniter(env.isServerWorld, living, entity.shooter))
      else s
    else s
  }

  /** `canDropFromExplosion`: the block never drops itself when blown up.
      The engine asks this before it drops anything; the snapshot keeps no
      dropped items, so the answer is stated here and nothing else reads it. */
  function CanDropFromExplosion(exp: Explosion): (r: bool)
    ensures !r
  {
    false
  }

  /** The fuse given to a primed entity spawned by a chain reaction, from a
      primed entity whose default fuse is `fuse` and the random draw `draw`
      made with bound `fuse / 4`. */
  function ChainFuse(fuse: nat, draw: int): (f: int)
    requires 0 <= draw < fuse / 4
    ensures fuse / 8 <= f < fuse / 8 + fuse / 4
    ensures 0 <= f < fuse
  {
    draw + fuse / 8
  }

  /** The draw that leads to the chain fuse `f`: every value of
      [fuse/8, fuse/8 + fuse/4) is the chain fuse of some valid draw. */
  function ChainDraw(fuse: nat, f: int): (draw: int)
    requires fuse / 8 <= f < fuse / 8 + fuse / 4
    ensures 0 <= draw < fuse / 4
    ensures ChainFuse(fuse, draw) == f
  {
    f - fuse / 8
  }

  /** The outcome of a callback: it returns normally, or an exception escapes
      it; either way, `snap` is the world as the callback leaves it. */
  datatype Outcome = Returned(snap: Snapshot) | Threw(snap: Snapshot)

  /** On the server side, `onExplosionDestroy` asks the random generator for
      `nextInt(baseFuse / 4)`, which throws when the bound is not positive. */
  predicate DrawThrows(env: Env) {
    !env.isClient && env.baseFuse / 4 <= 0
  }

  /** `onExplosionDestroy`: on the server side, one primed entity centred on
      `pos`, attributed to the explosion's placer, with the chain fuse of the
      draw, is appended. With a default fuse below 4 the draw throws before
      anything is added. The block itself is removed by the engine. */
  function ExplosionDestroy(s: Snapshot, env: Env, pos: Pos, exp: Explosion, draw: int): (r: Outcome)
    requires DrawThrows(env) || env.isClient || 0 <= draw < env.baseFuse / 4
    ensures env.isClient ==> r == Returned(s)
    ensures DrawThrows(env) ==> r == Threw(s)
    ensures !env.isClient && !DrawThrows(env) ==>
              && r.Returned?
              && r.snap.blocks == s.blocks
              && |r.snap.entities| == |s.entities| + 1
              && r.snap.entities[..|s.entities|] == s.entities
              && r.snap.entities[|s.entities|] == Primed(pos, exp.placedBy, ChainFuse(env.baseFuse, draw))
              && env.baseFuse / 8 <= r.snap.entities[|s.entities|].fuse < env.baseFuse / 8 + env.baseFuse / 4
              && r.snap.entities[|s.entities|].fuse < env.baseFuse
  {
    if env.isClient then Returned(s)
    else
      var built := Primed(pos, exp.placedBy, env.baseFuse);
      if built.fuse / 4 <= 0 then Threw(s)
      else
        var primed := built.(fuse := ChainFuse(built.fuse, draw));
        assert (s.entities + [primed])[..|s.entities|] == s.entities;
        Returned(s.(entities := s.entities + [primed]))
  }

  /** An engine event addressed to the tiny TNT block at `pos`. */
  datatype Event =
    | Activate(pos: Pos, player: EntityId, held: Option<Item>)
    | NeighborChange(pos: Pos, power: int)
    | Place(pos: Pos, power: int)
    | Cross(pos: Pos, entity: Crossing, living: map<EntityId, bool>)
    | Destroy(pos: Pos, exp: Explosion, draw: int)

  /** The random draw of an explosion event, when one is made, is within the
      bound `nextInt` is given. */
  predicate Drawable(env: Env, e: Event) {
    e.Destroy? ==> DrawThrows(env) || env.isClient || 0 <= e.draw < env.baseFuse / 4
  }

  predicate AllDrawable(env: Env, evs: seq<Event>) {
    forall i | 0 <= i < |evs| :: Drawable(env, evs[i])
  }

  /** The engine delivers an event. A callback only reaches the block that
      occupies the cell: an event at a position without a tiny TNT block
      changes nothing. Placing a block puts it in the grid and then calls
      `onBlockAdded`; an explosion clears the cell and then calls
      `onExplosionDestroy`, which is the only callback that can throw. */
  function Deliver(s: Snapshot, env: Env, e: Event): Outcome
    requires Drawable(env, e)
  {
    match e
    case Place(pos, power) =>
      Returned(if pos in s.blocks then s else Powered(s.(blocks := s.blocks + {pos}), env, pos, power))
    case Activate(pos, player, held) =>
      Returned(if pos !in s.blocks then s else Activated(s, env, pos, player, held))
    case NeighborChange(pos, power) =>
      Returned(if pos !in s.blocks then s else Powered(s, env, pos, power))
    case Cross(pos, entity, living) =>
      Returned(if pos !in s.blocks then s else EntityWalk(s, env, pos, entity, living))
    case Destroy(pos, exp, draw) =>
      if pos !in s.blocks then Returned(s) else ExplosionDestroy(RemoveBlock(s, pos), env, pos, exp, draw)
  }

  /** The world after an event is delivered, whether or not it threw. */
  function Step(s: Snapshot, env: Env, e: Event): Snapshot
    requires Drawable(env, e)
  {
    Deliver(s, env, e).snap
  }

  /** The events of `evs`, delivered in order. An exception that escapes a
      callback is not caught by the engine and ends the run: the events after
      it are never delivered. */
  function Run(s: Snapshot, env: Env, evs: seq<Event>): Snapshot
    requires AllDrawable(env, evs)
    decreases |evs|
  {
    if evs == [] then s
    else match Deliver(s, env, evs[0])
      case Threw(t) => t
      case Returned(t) => Run(t, env, evs[1..])
  }
}
