/**
 The engine objects the tiny TNT block acts on: the world, with the block grid
 and the live entities it changes in place, and the item stack a player holds.
 */
module GameWorld {
  import opened TinyTntRules

  /** A stack of items in a player's hand; its kind never changes, its
      durability damage does. */
  class ItemStack {
    const item: Item
    var damage: int

    constructor (item: Item, damage: int)
      ensures this.item == item && this.damage == damage
    {
      this.item := item;
      this.damage := damage;
    }
  }

  /** The kind of the held stack, None when the hand is empty. */
  function Held(stack: ItemStack?): (held: Option<Item>)
    ensures held.Some? <==> stack != null
    ensures stack != null ==> held.value == stack.item
  {
    if stack == null then None else Some(stack.item)
  }

  /** One side of the game world. `blocks` are the cells holding a tiny TNT
      block, `entities` the primed tiny TNT entities added so far. */
  class World {
    const isClient: bool
    const isServerWorld: bool
    /** The fuse a freshly built primed tiny TNT entity starts with. */
    const baseFuse: nat
    var blocks: set<Pos>
    var entities: seq<Primed>

    constructor (isClient: bool, isServerWorld: bool, baseFuse: nat, blocks: set<Pos>)
      ensures Setting() == Env(isClient, isServerWorld, baseFuse)
      ensures Snap() == Snapshot(blocks, [])
    {
      this.isClient := isClient;
      this.isServerWorld := isServerWorld;
      this.baseFuse := baseFuse;
      this.blocks := blocks;
      this.entities := [];
    }

    function Setting(): Env {
      Env(isClient, isServerWorld, baseFuse)
    }

    function Snap(): Snapshot
      reads this
    {
      Snapshot(blocks, entities)
    }

    /** `removeBlock`: the cell no longer holds a tiny TNT block. */
    method RemoveBlock(pos: Pos)
      modifies this
      ensures Snap() == TinyTntRules.RemoveBlock(old(Snap()), pos)
    {
      blocks := blocks - {pos};
    }

    /** `addEntity`: the entity joins the world's live entities. */
    method AddEntity(e: Primed)
      modifies this
      ensures blocks == old(blocks)
      ensures entities == old(entities) + [e]
    {
      entities := entities + [e];
    }
  }
}
