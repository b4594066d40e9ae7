/**
 * The level editor's tile value types: a tile kind, a set of wall sides
 * packed into the low four bits of an integer, and the tile that pairs them.
 */
module Tiles {

  /** The five kinds of tile a cell can hold. */
  datatype TileType = Empty | Floor | Marble | Goal | Hole

  /**
   * A set of wall sides held as the bits of an integer: bit 0 is Up, bit 1
   * Right, bit 2 Down, bit 3 Left. Only these four bits are kept, so every
   * mask lies in [0, 16).
   */
  datatype WallMask = WallMask(bits: bv4) {

    static const None: WallMask := WallMask(0)
    static const Up: WallMask := WallMask(1)
    static const Right: WallMask := WallMask(2)
    static const Down: WallMask := WallMask(4)
    static const Left: WallMask := WallMask(8)
    static const All: WallMask := Up.With(Right).With(Down).With(Left)

    /** The four single-side masks, in the order of their bits. */
    static const Sides: set<WallMask> := {Up, Right, Down, Left}

    /** Any-of test: true as soon as the two masks share one bit. */
    predicate Has(mask: WallMask) {
      bits & mask.bits != 0
    }

    /** Union of two masks: the result holds a side when either mask does. */
    function With(mask: WallMask): (r: WallMask)
      ensures forall x :: x in Sides ==> (r.Has(x) <==> Has(x) || mask.Has(x))
    {
      WallMask(bits | mask.bits)
    }

    /**
     * `without` as the application writes it: a bitwise AND of the two masks,
     * which holds a side only when both masks do.
     */
    function WithoutAsWritten(mask: WallMask): (r: WallMask)
      ensures forall x :: x in Sides ==> (r.Has(x) <==> Has(x) && mask.Has(x))
    {
      WallMask(bits & mask.bits)
    }

    /** `without` as its name promises: the sides of this mask not in `mask`. */
    function Without(mask: WallMask): (r: WallMask)
      ensures forall x :: x in Sides ==> (r.Has(x) <==> Has(x) && !mask.Has(x))
    {
      WallMask(bits & !mask.bits)
    }

    /** The named sides this mask holds. */
    function SideSet(): (s: set<WallMask>)
      ensures s <= Sides
    {
      set q | q in Sides && Has(q)
    }
  }

  /** A cell's content; the defaults give the plain floor tile with no walls. */
  datatype Tile = Tile(tileType: TileType := TileType.Floor, walls: WallMask := WallMask.None)

  // ---------------------------------------------------------------------
  // The constants

  /** The default tile is a floor tile with no walls. */
  lemma DefaultTile()
    ensures Tile() == Tile(TileType.Floor, WallMask.None)
    ensures Tile().walls.SideSet() == {}
  {
  }

  /** The four side masks are single, distinct bits: each holds itself and no other side. */
  lemma SidesAreSingleBits()
    ensures WallMask.Up.bits == 1 && WallMask.Right.bits == 2
    ensures WallMask.Down.bits == 4 && WallMask.Left.bits == 8
    ensures forall x, y :: x in WallMask.Sides && y in WallMask.Sides ==> (x.Has(y) <==> x == y)
    ensures forall x :: x in WallMask.Sides ==> x.SideSet() == {x}
  {
    forall x | x in WallMask.Sides
      ensures x.SideSet() == {x}
    {
      assert x in x.SideSet();
    }
  }

  /** None holds no side; it shares no bit with any mask at all. */
  lemma NoneHasNothing(x: WallMask)
    ensures !WallMask.None.Has(x) && !x.Has(WallMask.None)
    ensures WallMask.None.SideSet() == {}
  {
  }

  /** All is the value 15 and holds each of the four sides. */
  lemma AllHasEverySide()
    ensures WallMask.All.bits == 15
    ensures WallMask.All.SideSet() == WallMask.Sides
  {
    assert forall q :: q in WallMask.Sides ==> WallMask.All.Has(q);
  }

  // ---------------------------------------------------------------------
  // Has

  /**
   * For masks within the four side bits, Has is any-of: it holds exactly when
   * the two masks have a side in common (so `m.Has(All)` holds as soon as `m`
   * has one wall, rather than all four).
   */
  lemma HasIsAnyOf(m: WallMask, q: WallMask)
    ensures m.Has(q) <==> m.SideSet() * q.SideSet() != {}
  {
    if m.Has(q) {
      var common := m.bits & q.bits;
      var w: WallMask;
      if common & 1 != 0 {
        w := WallMask.Up;
      } else if common & 2 != 0 {
        w := WallMask.Right;
      } else if common & 4 != 0 {
        w := WallMask.Down;
      } else {
        w := WallMask.Left;
      }
      assert w in m.SideSet() * q.SideSet();
    } else {
      forall w | w in WallMask.Sides
        ensures !(m.Has(w) && q.Has(w))
      {
      }
    }
  }

  /** A mask is determined by the sides it holds. */
  lemma SideSetDetermines(a: WallMask, b: WallMask)
    requires a.SideSet() == b.SideSet()
    ensures a == b
  {
    forall q | q in WallMask.Sides
      ensures a.Has(q) == b.Has(q)
    {
      assert a.Has(q) <==> q in a.SideSet();
      assert b.Has(q) <==> q in b.SideSet();
    }
    assert a.Has(WallMask.Up) == b.Has(WallMask.Up);
    assert a.Has(WallMask.Right) == b.Has(WallMask.Right);
    assert a.Has(WallMask.Down) == b.Has(WallMask.Down);
    assert a.Has(WallMask.Left) == b.Has(WallMask.Left);
  }

  // ---------------------------------------------------------------------
  // With and Without as operations on side sets

  /** With is union of side sets. */
  lemma WithIsUnion(a: WallMask, b: WallMask)
    ensures a.With(b).SideSet() == a.SideSet() + b.SideSet()
  {
  }

  /** With is commutative. */
  lemma WithCommutes(a: WallMask, b: WallMask)
    ensures a.With(b) == b.With(a)
  {
  }

  /** With is associative. */
  lemma WithAssociates(a: WallMask, b: WallMask, c: WallMask)
    ensures a.With(b).With(c) == a.With(b.With(c))
  {
  }

  /** With is idempotent: adding sides already present changes nothing. */
  lemma WithIdempotent(a: WallMask, b: WallMask)
    ensures a.With(a) == a
    ensures a.With(b).With(b) == a.With(b)
  {
  }

  /** None is the identity of With. */
  lemma NoneIsWithIdentity(a: WallMask)
    ensures a.With(WallMask.None) == a && WallMask.None.With(a) == a
  {
  }

  /** With adds sides without removing any. */
  lemma WithKeepsSides(a: WallMask, b: WallMask)
    ensures a.SideSet() <= a.With(b).SideSet()
    ensures a.With(b).Has(a) || a == WallMask.None
  {
    WithIsUnion(a, b);
  }

  /**
   * Without as written keeps, rather than removes, the sides it is given:
   * its side set is the intersection of the two masks' side sets.
   */
  lemma WithoutAsWrittenIsIntersection(a: WallMask, b: WallMask)
    ensures a.WithoutAsWritten(b).SideSet() == a.SideSet() * b.SideSet()
  {
  }

  /** Removing Up from {Up, Right} as written leaves Up, where Right was meant. */
  lemma WithoutAsWrittenKeepsNamedSide()
    ensures WallMask.Up.With(WallMask.Right).WithoutAsWritten(WallMask.Up) == WallMask.Up
    ensures WallMask.Up.With(WallMask.Right).Without(WallMask.Up) == WallMask.Right
  {
  }

  /** The corrected Without is set difference of side sets. */
  lemma WithoutIsDifference(a: WallMask, b: WallMask)
    ensures a.Without(b).SideSet() == a.SideSet() - b.SideSet()
  {
  }

  /** Adding then removing the same sides leaves the sides not added. */
  lemma WithThenWithout(a: WallMask, b: WallMask)
    ensures a.With(b).Without(b) == a.Without(b)
  {
  }
}
