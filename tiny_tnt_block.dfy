/**
 The tiny TNT block's callbacks. The block holds no state of its own; every
 callback changes the world `w` it is given (and, for activation, the held
 item), exactly as the matching function of `TinyTntRules` describes.
 */
module TinyTntBlock {
  import opened TinyTntRules
  import opened GameWorld

  /** Server side: one primed entity centred on `pos`, credited to `igniter`,
      joins the world. Client side: nothing. */
  method StartFuse(w: World, pos: Pos, igniter: Option<EntityId>)
    modifies w
    ensures w.Snap() == TinyTntRules.StartFuse(old(w.Snap()), w.Setting(), pos, igniter)
  {
    if !w.isClient {
      var primed := Primed(pos, igniter, w.baseFuse);
      w.AddEntity(primed);
    }
  }

  /** A player uses the block with `held` in hand. Flint and steel ignites the
      block, crediting the player, costs the stack one point of durability and
      succeeds; anything else is handed to the superclass, which changes
      nothing that is modelled here. */
  method OnActivated(w: World, pos: Pos, player: EntityId, held: ItemStack?) returns (res: ActionResult)
    modifies w, held
    ensures w.Snap() == Activated(old(w.Snap()), w.Setting(), pos, player, Held(held))
    ensures held != null && held.item == FlintAndSteel ==> held.damage == old(held.damage) + 1
    ensures held != null && held.item != FlintAndSteel ==> held.damage == old(held.damage)
    ensures res == ActivationResult(Held(held))
  {
    if held != null && held.item == FlintAndSteel {
      StartFuse(w, pos, Some(player));
      w.RemoveBlock(pos);
      held.damage := held.damage + 1;
      res := Success;
    } else {
      res := Delegated;
    }
  }

  /** A neighbour changed; `power` is the redstone power the block now
      receives from its neighbours. Any power ignites it, with no igniter. */
  method NeighborChanged(w: World, pos: Pos, power: int)
    modifies w
    ensures w.Snap() == Powered(old(w.Snap()), w.Setting(), pos, power)
  {
    if power > 0 {
      StartFuse(w, pos, None);
      w.RemoveBlock(pos);
    }
  }

  /** The block was just placed; `power` is the redstone power it receives
      from its neighbours. The superclass's handler changes nothing modelled. */
  method OnBlockAdded(w: World, pos: Pos, power: int)
    modifies w
    ensures w.Snap() == Powered(old(w.Snap()), w.Setting(), pos, power)
  {
    if power > 0 {
      StartFuse(w, pos, None);
      w.RemoveBlock(pos);
    }
  }

  /** `entity` crosses the block; `living` answers, for each UUID the world
      knows, whether its entity is a living one. */
  method OnEntityWalk(w: World, pos: Pos, entity: Crossing, living: map<EntityId, bool>)
    modifies w
    ensures w.Snap() == EntityWalk(old(w.Snap()), w.Setting(), pos, entity, living)
  {
    if entity.Arrow? && !w.isClient {
      if entity.burning {
        var igniter: Option<EntityId> := None;
        if w.isServerWorld {
          var shooter := entity.shooter;
          if shooter.Some? && shooter.value in living && living[shooter.value] {
            igniter := shooter;
          }
        }
        StartFuse(w, pos, igniter);
        w.RemoveBlock(pos);
      }
    }
  }

  /** Another explosion destroyed the block; `draw` is the world random
      generator's `nextInt` with bound a quarter of the default fuse.
      `thrown` reports that `nextInt` threw because that bound is not
      positive; the world is then left as it was when the exception escaped. */
  method OnExplosionDestroy(w: World, pos: Pos, exp: Explosion, draw: int) returns (thrown: bool)
    requires DrawThrows(w.Setting()) || w.isClient || 0 <= draw < w.baseFuse / 4
    modifies w
    ensures (if thrown then Threw(w.Snap()) else Returned(w.Snap()))
            == ExplosionDestroy(old(w.Snap()), w.Setting(), pos, exp, draw)
  {
    thrown := false;
    if !w.isClient {
      var primed := Primed(pos, exp.placedBy, w.baseFuse);
      var bound := primed.fuse / 4;
      if bound <= 0 {
        thrown := true;
        return;
      }
      primed := primed.(fuse := draw + primed.fuse / 8);
      w.AddEntity(primed);
    }
  }
}
