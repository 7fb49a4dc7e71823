/**
 What the tiny TNT block's rules guarantee over whole sequences of engine
 events: the client side never spawns anything, the server side turns each
 removed block into exactly one primed entity centred on it, and a trigger
 that has fired cannot fire again at the same position.
 */
module TinyTntProperties {
  import opened TinyTntRules

  predicate NoPlacements(evs: seq<Event>) {
    forall i | 0 <= i < |evs| :: !evs[i].Place?
  }

  /** `t` arises from `s` by converting some tiny TNT blocks, each exactly
      once, into primed entities appended after the existing ones: blocks are
      only removed, the old entities stay, there are as many new entities as
      removed blocks, each new entity is centred on a removed block, and no
      two new entities share a centre. */
  ghost predicate ConvertedFrom(s: Snapshot, t: Snapshot) {
    && t.blocks <= s.blocks
    && |s.entities| <= |t.entities|
    && t.entities[..|s.entities|] == s.entities
    && |t.entities| - |s.entities| == |s.blocks| - |t.blocks|
    && (forall i | |s.entities| <= i < |t.entities| :: t.entities[i].centre in s.blocks - t.blocks)
    && (forall i, j | |s.entities| <= i < j < |t.entities| :: t.entities[i].centre != t.entities[j].centre)
  }

  lemma ConvertedFromReflexive(s: Snapshot)
    ensures ConvertedFrom(s, s)
  {
  }

  /** Two conversions in a row are one conversion. */
  lemma ConvertedFromTransitive(a: Snapshot, b: Snapshot, c: Snapshot)
    requires ConvertedFrom(a, b) && ConvertedFrom(b, c)
    ensures ConvertedFrom(a, c)
  {
  }

  /** On the server side, with a default fuse for which the chain-reaction
      draw does not throw, an event other than a placement returns normally
      and either changes nothing or converts the block at its position into
      one primed entity centred there. */
  lemma ServerStepConverts(s: Snapshot, env: Env, e: Event)
    requires !env.isClient && !DrawThrows(env) && Drawable(env, e) && !e.Place?
    ensures Deliver(s, env, e).Returned?
    ensures ConvertedFrom(s, Step(s, env, e))
    ensures Step(s, env, e) == s || Step(s, env, e).blocks == s.blocks - {e.pos}
  {
  }

  /** Server side, no placements, a default fuse for which the draw does not
      throw: the whole run is one conversion, so every block that disappears
      becomes exactly one primed entity centred on it and no position is
      ignited twice. */
  lemma {:induction false} ServerRunConvertsEachBlockOnce(s: Snapshot, env: Env, evs: seq<Event>)
    requires !env.isClient && !DrawThrows(env) && AllDrawable(env, evs) && NoPlacements(evs)
    ensures ConvertedFrom(s, Run(s, env, evs))
    decreases |evs|
  {
    if evs == [] {
      ConvertedFromReflexive(s);
    } else {
      var t := Step(s, env, evs[0]);
      assert AllDrawable(env, evs[1..]) && NoPlacements(evs[1..]) by {
        forall i | 0 <= i < |evs[1..]|
          ensures Drawable(env, evs[1..][i]) && !evs[1..][i].Place?
        {
          assert evs[1..][i] == evs[i + 1];
        }
      }
      ServerStepConverts(s, env, evs[0]);
      ServerRunConvertsEachBlockOnce(t, env, evs[1..]);
      ConvertedFromTransitive(s, t, Run(t, env, evs[1..]));
    }
  }

  /** On the client side no event, placements included, ever adds a primed
      entity. */
  lemma {:induction false} ClientRunSpawnsNothing(s: Snapshot, env: Env, evs: seq<Event>)
    requires env.isClient && AllDrawable(env, evs)
    ensures Run(s, env, evs).entities == s.entities
    decreases |evs|
  {
    if evs != [] {
      var t := Step(s, env, evs[0]);
      assert t.entities == s.entities;
      assert AllDrawable(env, evs[1..]) by {
        forall i | 0 <= i < |evs[1..]|
          ensures Drawable(env, evs[1..][i])
        {
          assert evs[1..][i] == evs[i + 1];
        }
      }
      ClientRunSpawnsNothing(t, env, evs[1..]);
    }
  }

  /** With a default fuse below 4 on the server side, an explosion that
      destroys a tiny TNT block throws from the random draw: the engine has
      already cleared the cell, no primed entity is added, and the events
      after it are never delivered. */
  lemma ThrowingExplosionEndsRun(s: Snapshot, env: Env, pos: Pos, exp: Explosion, draw: int, rest: seq<Event>)
    requires DrawThrows(env) && pos in s.blocks
    requires AllDrawable(env, [Destroy(pos, exp, draw)] + rest)
    ensures Deliver(s, env, Destroy(pos, exp, draw)) == Threw(Snapshot(s.blocks - {pos}, s.entities))
    ensures Run(s, env, [Destroy(pos, exp, draw)] + rest) == Snapshot(s.blocks - {pos}, s.entities)
  {
  }

  /** The chain fuse tells the draws apart: distinct draws give distinct
      fuses, so together with `ChainDraw` the draws [0, fuse/4) correspond
      one-to-one to the fuses [fuse/8, fuse/8 + fuse/4). */
  lemma ChainFuseInjective(fuse: nat, d1: int, d2: int)
    requires 0 <= d1 < fuse / 4 && 0 <= d2 < fuse / 4
    requires ChainFuse(fuse, d1) == ChainFuse(fuse, d2)
    ensures d1 == d2
  {
  }

  /** A placement on a free cell: powered, the block is converted at once
      (a primed entity on the server, nothing on the client) and the cell
      stays empty; unpowered, the block simply joins the grid. */
  lemma PlacementStep(s: Snapshot, env: Env, pos: Pos, power: int)
    requires pos !in s.blocks
    ensures power > 0 && !env.isClient ==>
              Step(s, env, Place(pos, power)) == Snapshot(s.blocks, s.entities + [Primed(pos, None, env.baseFuse)])
    ensures power > 0 && env.isClient ==> Step(s, env, Place(pos, power)) == s
    ensures power <= 0 ==> Step(s, env, Place(pos, power)) == Snapshot(s.blocks + {pos}, s.entities)
  {
  }

  /** On the client side the blocks still go: activation with flint and steel
      or redstone power removes the block while no entity appears. */
  lemma ClientTriggerRemovesOnly(s: Snapshot, env: Env, e: Event)
    requires env.isClient && e.pos in s.blocks
    requires (e.Activate? && IsFlintAndSteel(e.held)) || (e.NeighborChange? && e.power > 0)
    ensures Step(s, env, e) == Snapshot(s.blocks - {e.pos}, s.entities)
  {
  }

  /** Delivering the same event twice has the effect of delivering it once:
      a trigger that fired removed the block, so the second delivery finds
      nothing to act on. Placement is the exception, since it puts a block
      back. */
  lemma RetriggerIsNoOp(s: Snapshot, env: Env, e: Event)
    requires Drawable(env, e) && !e.Place?
    ensures Step(Step(s, env, e), env, e) == Step(s, env, e)
  {
  }

  /** The placement and power example with a default fuse of 32: a block
      placed at an unpowered cell stays; power then primes it, with no
      igniter and the full fuse, and the cell is empty. */
  lemma PlaceThenPowerExample(p: Pos, power: int)
    requires power > 0
    ensures Run(Snapshot({}, []), Env(false, true, 32), [Place(p, 0), NeighborChange(p, power)])
            == Snapshot({}, [Primed(p, None, 32)])
  {
    var env := Env(false, true, 32);
    var evs := [Place(p, 0), NeighborChange(p, power)];
    var s1 := Step(Snapshot({}, []), env, evs[0]);
    assert s1 == Snapshot({p}, []);
    var s2 := Step(s1, env, evs[1]);
    assert s2 == Snapshot({}, [Primed(p, None, 32)]) by {
      assert {p} - {p} == {};
    }
    assert evs[1..] == [NeighborChange(p, power)];
    assert Run(s2, env, evs[1..][1..]) == s2 by {
      assert evs[1..][1..] == [];
    }
  }

  /** The chain reaction example with a default fuse of 32: a block blown up
      by an explosion placed by `placer` becomes a primed entity credited to
      `placer`, with a fuse in [4, 12). */
  lemma ChainReactionExample(p: Pos, placer: EntityId, draw: int)
    requires 0 <= draw < 8
    ensures var t := Step(Snapshot({p}, []), Env(false, true, 32), Destroy(p, Explosion(Some(placer)), draw));
            && t.blocks == {}
            && |t.entities| == 1
            && t.entities[0].centre == p
            && t.entities[0].igniter == Some(placer)
            && t.entities[0].fuse == draw + 4
            && 4 <= t.entities[0].fuse < 12
  {
  }
}
