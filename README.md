# Tiny TNT: ignition and chain reaction

A model of the tiny TNT block of Applied Energistics 2. This block is a small
explosive. It has no state of its own. Each engine callback on it is one
guarded change to its world:

- a player uses it with flint and steel in hand;
- it gets redstone power, on a neighbour change or when it is placed;
- a burning arrow crosses it;
- another explosion destroys it.

If the callback fires, it spawns a primed tiny TNT entity centred on the block
and removes the block. When an explosion destroys the block, the new primed
entity gets a random fuse that is shorter than the default.

Files:

- `tnt_rules.dfy` (module `TinyTntRules`) describes the rules on values. A
  `Snapshot` holds the set of grid positions that contain the block and the
  list of primed entities. Each entity has a centre, an optional igniter and a
  fuse. Each callback is one function from the snapshot before to the
  snapshot after. `Deliver` models how the engine delivers an event to the
  block in a cell, with the outcome `Returned` or `Threw`. `Step` is the world
  after one delivery, and `Run` replays a sequence of events, stopping at the
  first exception.
- `game_world.dfy` (module `GameWorld`) holds the mutable engine objects. The
  `World` class has fields for the blocks and the entities, the side flags
  and the default fuse, plus the engine primitives `RemoveBlock` and
  `AddEntity`. The `ItemStack` class holds an item kind and a durability
  damage counter.
- `tiny_tnt_block.dfy` (module `TinyTntBlock`) has the block's callbacks as
  methods that change a `World` in place. Each one is proved to leave the world
  in the snapshot given by the matching rule function.
- `tnt_properties.dfy` (module `TinyTntProperties`) proves properties of whole
  event sequences. On the client no entity ever appears. On the server, over
  a sequence without placements, each block that disappears becomes exactly
  one primed entity centred on it, so no position is ignited twice; a
  placement puts a block back, and that cell can then be ignited again.
  Delivering the same event twice has the effect of delivering it once, for
  every event except a placement.

These engine services become parameters:

- the redstone power the block gets from its neighbours is `power`;
- the random draw `rand.nextInt(fuse / 4)` is `draw`, with `0 <= draw < fuse / 4`
  whenever that bound is positive; when it is not, `nextInt` throws, and the
  model returns that as the outcome `Threw`;
- the lookup of a shooter's UUID is `living`, a partial map from UUID to "is a
  living entity";
- the default fuse of a freshly built primed entity is `baseFuse`.

A primed entity's spawn point `pos + 0.5` in each coordinate is modelled as
"centred on block `pos`".

The block removals in `onActivated`, `neighborChanged` and `onBlockAdded`
(TinyTNTBlock.java lines 74, 99 and 109) have no `isClient` guard, so these
triggers remove the block on the client too. Only the spawn, in `startFuse`,
is skipped there. `ClientTriggerRemovesOnly` states this. The arrow trigger
checks the side before it does anything. In `onExplosionDestroy` the
superclass call runs on both sides, and only the spawn is guarded by the side
check.

## Model

| member | source | states |
|---|---|---|
| TinyTntRules.StartFuse | src/main/java/appeng/block/misc/TinyTNTBlock.java:84-92 | on the server exactly one primed entity, centred on `pos`, with the given igniter and the default fuse, is appended; on the client the entities are unchanged; the blocks never change |
| TinyTntBlock.StartFuse | src/main/java/appeng/block/misc/TinyTNTBlock.java:84-92 | the world after the call is the snapshot `TinyTntRules.StartFuse` gives, so an entity is added only on the server side |
| TinyTntRules.Ignite | src/main/java/appeng/block/misc/TinyTNTBlock.java:73-74 | the shared ignition (start the fuse, then remove the block) removes exactly `pos` on both sides and adds one entity at `pos` with that igniter on the server only |
| TinyTntRules.Activated | src/main/java/appeng/block/misc/TinyTNTBlock.java:70-82 | flint and steel removes the block and, on the server, adds one entity credited to the player; a null or other item leaves the world unchanged |
| TinyTntRules.ActivationResult | src/main/java/appeng/block/misc/TinyTNTBlock.java:72-81 | the result is SUCCESS if and only if the held item is flint and steel, otherwise the superclass's result |
| GameWorld.Held | src/main/java/appeng/block/misc/TinyTNTBlock.java:72 | an empty hand is seen as no item; a held stack is seen as its item |
| TinyTntBlock.OnActivated | src/main/java/appeng/block/misc/TinyTNTBlock.java:70-82 | the world becomes `Activated` of the old world; with flint and steel the stack's damage grows by exactly 1, otherwise it is untouched; the result is `ActivationResult` |
| TinyTntRules.Powered | src/main/java/appeng/block/misc/TinyTNTBlock.java:95-111 | power > 0 removes the block and, on the server, adds one entity with no igniter; power 0 leaves the world unchanged |
| TinyTntBlock.NeighborChanged | src/main/java/appeng/block/misc/TinyTNTBlock.java:95-101 | the world becomes `Powered` of the old world for the neighbours' redstone power |
| TinyTntBlock.OnBlockAdded | src/main/java/appeng/block/misc/TinyTNTBlock.java:104-111 | the world becomes `Powered` of the old world; the superclass call changes nothing modelled |
| TinyTntRules.ShooterIgniter | src/main/java/appeng/block/misc/TinyTNTBlock.java:119-128 | the igniter is the shooter exactly when the world is a server world and the shooter's UUID resolves to a living entity; otherwise there is none, and a failed lookup is not an error |
| TinyTntRules.EntityWalk | src/main/java/appeng/block/misc/TinyTNTBlock.java:114-133 | a burning arrow on the server removes the block and adds one entity credited by `ShooterIgniter`; a non-arrow, an arrow that is not burning, or any entity on the client leaves the world unchanged |
| TinyTntBlock.OnEntityWalk | src/main/java/appeng/block/misc/TinyTNTBlock.java:114-133 | the world becomes `EntityWalk` of the old world |
| TinyTntRules.CanDropFromExplosion | src/main/java/appeng/block/misc/TinyTNTBlock.java:136-138 | the block never drops when destroyed by an explosion |
| TinyTntRules.ChainFuse | src/main/java/appeng/block/misc/TinyTNTBlock.java:146-147 | for a draw in [0, fuse/4) the chain fuse lies in [fuse/8, fuse/8 + fuse/4) and is non-negative and strictly below the default fuse |
| TinyTntRules.ChainDraw | src/main/java/appeng/block/misc/TinyTNTBlock.java:146-147 | every fuse in [fuse/8, fuse/8 + fuse/4) is the chain fuse of some valid draw, so the whole range is reachable |
| TinyTntProperties.ChainFuseInjective | src/main/java/appeng/block/misc/TinyTNTBlock.java:146-147 | two valid draws that give the same chain fuse are the same draw, so the random draw is never flattened to a fixed delay |
| TinyTntRules.ExplosionDestroy | src/main/java/appeng/block/misc/TinyTNTBlock.java:141-150 | on the server with baseFuse/4 > 0 it returns normally, the blocks stay the same and exactly one entity is appended, `Primed(pos, placer, ChainFuse(baseFuse, draw))`, whose fuse lies in [baseFuse/8, baseFuse/8 + baseFuse/4) below baseFuse; on the server with baseFuse/4 <= 0 `nextInt` throws and nothing is added; on the client it returns and nothing changes |
| TinyTntBlock.OnExplosionDestroy | src/main/java/appeng/block/misc/TinyTNTBlock.java:141-150 | the outcome (thrown or returned) and the new world are those `ExplosionDestroy` gives for the old world; the draw must be in [0, baseFuse/4) only where it is made |
| GameWorld.World.RemoveBlock | src/main/java/appeng/block/misc/TinyTNTBlock.java:74 | the cell `pos` no longer holds the block; nothing else changes |
| GameWorld.World.AddEntity | src/main/java/appeng/block/misc/TinyTNTBlock.java:88 | the entity is appended to the live entities; the blocks are unchanged |
| TinyTntProperties.ServerStepConverts | src/main/java/appeng/block/misc/TinyTNTBlock.java:70-150 | on the server, with a default fuse for which the draw does not throw, any delivered callback other than placement returns normally and either changes nothing or removes exactly the block at its position and adds one entity centred there |
| TinyTntProperties.PlacementStep | src/main/java/appeng/block/misc/TinyTNTBlock.java:104-111 | placing on a free cell with power converts the block at once (one entity with no igniter and the default fuse on the server, nothing on the client) and leaves the cell empty; without power the block joins the grid and nothing else changes |
| TinyTntProperties.ThrowingExplosionEndsRun | src/main/java/appeng/block/misc/TinyTNTBlock.java:141-150 | on the server with a default fuse below 4, destroying a block by explosion throws after the engine cleared the cell, adds no entity, and no later event is delivered |
| TinyTntProperties.ServerRunConvertsEachBlockOnce | src/main/java/appeng/block/misc/TinyTNTBlock.java:70-150 | on the server, with a default fuse for which the draw does not throw, over any sequence of events without placements, blocks are only removed and old entities stay; there are as many new entities as removed blocks, each centred on a removed block, and no two share a centre (no double trigger) |
| TinyTntProperties.ClientRunSpawnsNothing | src/main/java/appeng/block/misc/TinyTNTBlock.java:84-150 | on the client, over any sequence of events including placements, the entity list never changes |
| TinyTntProperties.ClientTriggerRemovesOnly | src/main/java/appeng/block/misc/TinyTNTBlock.java:72-101 | on the client, flint and steel or redstone power removes the block and adds no entity |
| TinyTntProperties.RetriggerIsNoOp | src/main/java/appeng/block/misc/TinyTNTBlock.java:70-150 | delivering any non-placement event a second time changes nothing more; once removed, the block gives a repeated trigger nothing to act on |
| TinyTntProperties.PlaceThenPowerExample | src/main/java/appeng/block/misc/TinyTNTBlock.java:95-111 | with default fuse 32, placing at an unpowered cell and then powering it leaves no block and one entity at the cell with no igniter and fuse 32 |
| TinyTntProperties.ChainReactionExample | src/main/java/appeng/block/misc/TinyTNTBlock.java:141-150 | with default fuse 32, a block destroyed by an explosion placed by E becomes one entity at the cell credited to E, with a fuse of draw + 4, in [4, 12) |

## Left out

- `getOpacity` and `getShape` are constant presentation and collision data (an opacity of 2 and a float box). They play no part in ignition.
- The ignition sound in `startFuse` is a side effect with no return value, so it is not modelled.
- The break animation callback passed to `damageItem` is not modelled. The damage itself is modelled only as a damage counter that goes up by 1. The engine's own rules for unbreakable items, creative mode and breaking at full damage are not modelled.
- The superclass handlers (`super.onActivated`, `super.onBlockAdded`, `super.onExplosionDestroy`) are engine code that is not part of this model. They change nothing in the modelled state, and the superclass's activation result is the single value `Delegated`.
- The primed entity's own tick countdown and detonation are not modelled, because the primed entity class is not part of this model. Of that class, only its construction fields and `setFuse` are modelled: an entity is a value that is built, has its fuse set, and is then added. So the model does not cover that the fuse strictly decreases, that detonation happens exactly once, or an end-to-end run up to detonation.
- The Java random generator, UUID resolution and the redstone power computation are engine services. They appear as the parameters `draw`, `living` and `power`.
- Spawn coordinates are floats (`pos + 0.5`) in the source. They are modelled as the block position the entity is centred on. Entity movement is not modelled.
- TinyTntProperties.ServerStepConverts: holds only when the default fuse is at least 4. With a smaller default fuse, `nextInt` throws in `onExplosionDestroy` after the engine has cleared the cell, so a block goes without an entity. `ThrowingExplosionEndsRun` states that case.
- TinyTntProperties.ServerRunConvertsEachBlockOnce: needs a default fuse of at least 4 for the same reason, and a sequence without placements, because a placement puts a block back.
- The engine's reaction to an exception that escapes `onExplosionDestroy` (a crash report) is modelled only as the end of the run: the events after it are not delivered.
- `Step` is a model of the engine. It is not code of this repository. It assumes that the engine calls the block only for a cell that holds the block, that placement puts the block in the grid before `onBlockAdded`, and that an explosion clears the cell before `onExplosionDestroy`, with no drops because `canDropFromExplosion` is false. The snapshot keeps no dropped items, so `CanDropFromExplosion` is stated on its own and nothing else reads it.
- Each callback runs to completion before the next one in the single-threaded engine, so atomicity with respect to other systems is not modelled.
- `RenderTypeComponent` registers a render layer and `MolecularAssemblerPatternSlot.isItemValid` forwards to a container check. Both are thin wrappers around engine or container code that is not part of this model, so neither is modelled.
