/** `computeHoroscopeTargets`: the twelve card targets of the horoscope spread on a
  * responsive grid, six columns by two rows on wide screens and three by four otherwise,
  * inset 8 percent from every edge. */
module HoroscopeLayout {
  import opened Common

  /** Six columns from a renderer width of 768 up, three below. */
  function Cols(W: real): nat
  {
    if W >= 768.0 then 6 else 3
  }

  function Rows(W: real): nat
  {
    if W >= 768.0 then 2 else 4
  }

  /** The centre of cell (r, c) in percent: `8 + (84 / n) (i + 0.5)` along each axis. */
  function CellPercent(n: nat, i: nat): real
    requires n > 0
  {
    8.0 + (100.0 - 8.0 * 2.0) / n as real * (i as real + 0.5)
  }

  /** The target of cell (r, c) in pixels, unrotated. */
  function GridTarget(W: real, H: real, r: nat, c: nat): Target
  {
    Target(CellPercent(Cols(W), c) / 100.0 * W, CellPercent(Rows(W), r) / 100.0 * H, Some(0.0))
  }

  /** The twelve targets in row-major order. */
  function HoroscopeGrid(screen: Size): (r: seq<Target>)
    ensures |r| == 12
  {
    seq(12, k requires 0 <= k < 12 =>
      GridTarget(screen.width, screen.height, k / Cols(screen.width), k % Cols(screen.width)))
  }

  /** Both grids hold exactly twelve cells. */
  lemma GridHoldsTwelve(W: real)
    ensures Cols(W) * Rows(W) == 12
  {
  }

  /** Position k of a row-major walk over `cols` columns is row `k / cols`, column
    * `k % cols`. */
  lemma RowMajorIndex(r: nat, c: nat, cols: nat)
    requires c < cols
    ensures (r * cols + c) / cols == r && (r * cols + c) % cols == c
  {
    var k := r * cols + c;
    var q, m := k / cols, k % cols;
    assert (q - r) * cols == c - m;
    MultipleBelowIsZero(q - r, cols, c - m);
  }

  /** The only multiple of `n` strictly between `-n` and `n` is `0 * n`. */
  lemma MultipleBelowIsZero(d: int, n: nat, e: int)
    requires d * n == e && -(n as int) < e < n
    ensures d == 0
  {
    if d >= 1 {
      MulAtLeast(d, n);
    } else if d <= -1 {
      MulAtLeast(-d, n);
    }
  }

  lemma MulAtLeast(d: int, n: nat)
    requires d >= 1
    ensures d * n >= n
  {
    assert d * n == n + (d - 1) * n;
  }

  /** The grid walk: rows outer, columns inner, each push the next cell, the inner loop
    * leaving as soon as twelve targets exist. */
  method ComputeHoroscopeTargets(screen: Size) returns (targets: seq<Target>)
    ensures targets == HoroscopeGrid(screen)
  {
    var W := screen.width;
    var H := screen.height;
    var isDesktop := W >= 768.0;
    var cols: nat := if isDesktop then 6 else 3;
    var rows: nat := if isDesktop then 2 else 4;
    targets := [];
    var r := 0;
    while r < rows
      invariant 0 <= r <= rows && |targets| == r * cols
      invariant forall k :: 0 <= k < |targets| ==> targets[k] == GridTarget(W, H, k / cols, k % cols)
    {
      var c := 0;
      assert (r + 1) * cols <= rows * cols by {
        assert (cols == 6 && rows == 2) || (cols == 3 && rows == 4);
      }
      while c < cols
        invariant 0 <= c <= cols && |targets| == r * cols + c
        invariant forall k :: 0 <= k < |targets| ==> targets[k] == GridTarget(W, H, k / cols, k % cols)
      {
        if |targets| == 12 {
          // never taken: the walk visits exactly twelve cells
          assert false;
          break;
        }
        RowMajorIndex(r, c, cols);
        targets := targets + [GridTarget(W, H, r, c)];
        c := c + 1;
      }
      r := r + 1;
    }
    assert |targets| == 12 by {
      assert (cols == 6 && rows == 2) || (cols == 3 && rows == 4);
    }
  }

  /** Every cell centre lies strictly inside the 8 percent inset: x in (0.08 W, 0.92 W),
    * y in (0.08 H, 0.92 H) for a positive renderer size. */
  lemma GridTargetInside(W: real, H: real, r: nat, c: nat)
    requires W > 0.0 && H > 0.0 && c < Cols(W) && r < Rows(W)
    ensures 0.08 * W < GridTarget(W, H, r, c).x < 0.92 * W
    ensures 0.08 * H < GridTarget(W, H, r, c).y < 0.92 * H
    ensures GridTarget(W, H, r, c).angle == Some(0.0)
  {
    CellPercentInside(Cols(W), c);
    CellPercentInside(Rows(W), r);
    var t := GridTarget(W, H, r, c);
    ScaledInside(CellPercent(Cols(W), c), W, t.x);
    ScaledInside(CellPercent(Rows(W), r), H, t.y);
  }

  /** A percentage strictly between 8 and 92 of a positive length lies strictly inside the
    * 8 percent inset. */
  lemma ScaledInside(p: real, W: real, x: real)
    requires 8.0 < p < 92.0 && W > 0.0 && x == p / 100.0 * W
    ensures 0.08 * W < x < 0.92 * W
  {
    var q := p / 100.0;
    assert 0.08 < q < 0.92;
    assert x == q * W;
    assert x - 0.08 * W == (q - 0.08) * W;
    assert 0.92 * W - x == (0.92 - q) * W;
    MulPositive(q - 0.08, W);
    MulPositive(0.92 - q, W);
    assert 0.92 * W - x > 0.0;
  }

  lemma CellPercentInside(n: nat, i: nat)
    requires n > 0 && i < n
    ensures 8.0 < CellPercent(n, i) < 92.0
  {
    var nr := n as real;
    var x := i as real + 0.5;
    var w := 84.0 / nr;
    assert w * nr == 84.0;
    assert 0.0 < x < nr;
    MulPositive(w, x);
    MulPositive(w, nr - x);
    assert w * nr - w * x == w * (nr - x);
    assert CellPercent(n, i) == 8.0 + w * x;
  }

  lemma MulPositive(a: real, b: real)
    requires a > 0.0 && b > 0.0
    ensures a * b > 0.0
  {
  }
}
