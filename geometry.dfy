/** The host-side integer arithmetic of the scan: tile count and launch geometry. */
module Geometry {

  /** Multiplication by a positive factor is monotone. */
  lemma MulMonotone(a: int, b: int, t: int)
    requires a <= b && t > 0
    ensures a * t <= b * t
  {
    assert b * t - a * t == (b - a) * t;
  }

  /** `(n + t - 1) / t`, the number of tiles of size t needed to cover n items.
      For the non-negative operands used here C++'s truncating division and
      Dafny's Euclidean division agree. The result is the ceiling of n / t. */
  function TileCount(n: int, t: int): (c: int)
    requires n >= 0 && t > 0
    ensures c >= 0
    ensures n <= c * t < n + t
  {
    (n + t - 1) / t
  }

  /** The ceiling is the only count whose tiles cover n items with less than one tile to spare. */
  lemma TileCountUnique(n: int, t: int, c: int)
    requires n >= 0 && t > 0
    requires n <= c * t < n + t
    ensures TileCount(n, t) == c
  {
    var d := TileCount(n, t);
    if c < d {
      MulMonotone(c + 1, d, t);
    } else if d < c {
      MulMonotone(d + 1, c, t);
    }
  }

  /** There are no tiles exactly when there are no items. */
  lemma TileCountZero(n: int, t: int)
    requires n >= 0 && t > 0
    ensures TileCount(n, t) == 0 <==> n == 0
  {
    if n == 0 {
      TileCountUnique(0, t, 0);
    }
  }

  /** An item index lies in tile `j / t`, which is below the tile count. */
  lemma TileOfIndex(n: int, t: int, j: int)
    requires n >= 0 && t > 0 && 0 <= j < n
    ensures 0 <= j / t < TileCount(n, t)
    ensures (j / t) * t <= j < (j / t) * t + t
  {
    var c := TileCount(n, t);
    if c <= j / t {
      MulMonotone(c, j / t, t);
    }
  }

  /** The index j lies in tile u exactly when u is j / t. */
  lemma DivInTile(j: int, u: int, t: int)
    requires t > 0 && u >= 0 && u * t <= j < u * t + t
    ensures j / t == u
  {
    var q := j / t;
    assert q * t <= j < q * t + t;
    if q < u {
      MulMonotone(q + 1, u, t);
    } else if u < q {
      MulMonotone(u + 1, q, t);
    }
  }

  /** The global work size of the tile-scan and uniform-add launches:
      `tile_count * TILE_SIZE` work items. It covers every item, wastes less
      than one work-group, and is a whole number of work-groups of size t. */
  function GlobalSize(n: int, t: int): (g: int)
    requires n >= 0 && t > 0
    ensures n <= g < n + t
    ensures g % t == 0 && g / t == TileCount(n, t)
  {
    var c := TileCount(n, t);
    DivInTile(c * t, c, t);
    c * t
  }

  /** The shape the offset scan accepts: the tile count fits in one work-group
      of the tile size exactly when n is at most t * t. */
  lemma ShapeAccepted(n: int, t: int)
    requires n >= 0 && t > 0
    ensures TileCount(n, t) <= t <==> n <= t * t
  {
    var c := TileCount(n, t);
    if c <= t {
      MulMonotone(c, t, t);
    } else {
      MulMonotone(t, c - 1, t);
    }
  }

  /** The boundary cases: `tile_count == t` is accepted and `tile_count == t + 1` is not. */
  lemma ShapeBoundary(t: int)
    requires t > 0
    ensures TileCount(t * t, t) == t
    ensures TileCount(t * t + 1, t) == t + 1
  {
    TileCountUnique(t * t, t, t);
    TileCountUnique(t * t + 1, t, t + 1);
  }
}
