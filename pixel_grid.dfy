/** The raster scan that both particle canvases run over the RGBA bytes of an
    off-screen canvas: walk the rows top to bottom and each row left to right in
    steps of `gap`, and keep the cells whose chosen channel byte is above a threshold. */
module PixelGrid {

  /** A pixel position in an image, column `x`, row `y`. */
  datatype Cell = Cell(x: nat, y: nat)

  /** Row-major order: earlier row first, then smaller column. */
  predicate Before(a: Cell, b: Cell)
  {
    a.y < b.y || (a.y == b.y && a.x < b.x)
  }

  /** The RGBA byte index `(y * w + x) * 4 + channel` of a pixel inside a `w` x `h` image
      is inside the `w * h * 4` bytes that `getImageData` returns. */
  lemma ByteIndexInBounds(w: nat, h: nat, x: nat, y: nat, channel: nat)
    requires x < w && y < h && channel < 4
    ensures (y * w + x) * 4 + channel < w * h * 4
  {
    MulMonotone(w, y + 1, h);
    assert w * (y + 1) == w * y + w;
    assert w * y == y * w && w * h == h * w;
    var k, n := y * w + x, w * h;
    assert k < n;
    assert (y * w + x) * 4 + channel == k * 4 + channel;
    assert w * h * 4 == n * 4;
  }

  /** The byte the scan reads for a pixel. */
  function ByteAt(data: seq<int>, w: nat, h: nat, channel: nat, x: nat, y: nat): int
    requires |data| == w * h * 4 && channel < 4 && x < w && y < h
  {
    ByteIndexInBounds(w, h, x, y, channel);
    data[(y * w + x) * 4 + channel]
  }

  /** A cell the scan keeps: inside the image, on the grid, and above the threshold. */
  predicate Kept(data: seq<int>, w: nat, h: nat, gap: nat, channel: nat, threshold: int, c: Cell)
    requires |data| == w * h * 4 && channel < 4 && gap > 0
  {
    c.x < w && c.y < h && c.x % gap == 0 && c.y % gap == 0
    && ByteAt(data, w, h, channel, c.x, c.y) > threshold
  }

  /** Euclidean division is unique: `g * q + d` with `0 <= d < g` leaves remainder `d`. */
  lemma ModUnique(u: nat, g: nat, q: nat, d: nat)
    requires g > 0 && d < g && u == g * q + d
    ensures u % g == d
  {
    var p := u / g;
    var r := u % g;
    assert u == g * p + r;
    assert g * (p + 1) == g * p + g;
    assert g * (q + 1) == g * q + g;
    MulMonotone(g, p + 1, q);
    MulMonotone(g, q + 1, p);
    if p != q {
      assert false;
    }
  }

  lemma MulMonotone(g: nat, a: nat, b: nat)
    ensures a <= b ==> g * a <= g * b
  {
    if a <= b {
      assert g * b - g * a == g * (b - a);
    }
  }

  /** Between two neighbouring multiples of `gap` there is no other multiple. */
  lemma NoGridLineBetween(v: nat, gap: nat, u: nat)
    requires gap > 0 && v % gap == 0 && v < u < v + gap
    ensures u % gap != 0
  {
    var q := v / gap;
    assert v == gap * q;
    ModUnique(u, gap, q, u - v);
  }

  /** One step of `gap` from a multiple of `gap` lands on the next multiple. */
  lemma NextGridLine(v: nat, gap: nat)
    requires gap > 0 && v % gap == 0
    ensures (v + gap) % gap == 0
  {
    var q := v / gap;
    assert v == gap * q;
    assert v + gap == gap * (q + 1) + 0;
    ModUnique(v + gap, gap, q + 1, 0);
  }

  /** The nested `for (y = 0; y < h; y += gap) for (x = 0; x < w; x += gap)` scan.
      The result holds exactly the kept cells, each once, in row-major order. */
  method Scan(data: seq<int>, w: nat, h: nat, gap: nat, channel: nat, threshold: int)
    returns (cells: seq<Cell>)
    requires |data| == w * h * 4 && channel < 4 && gap > 0
    ensures forall c :: c in cells <==> Kept(data, w, h, gap, channel, threshold, c)
    ensures forall i, j :: 0 <= i < j < |cells| ==> Before(cells[i], cells[j])
  {
    cells := [];
    var y := 0;
    while y < h
      invariant y % gap == 0
      invariant forall c :: c in cells <==> Kept(data, w, h, gap, channel, threshold, c) && c.y < y
      invariant forall i, j :: 0 <= i < j < |cells| ==> Before(cells[i], cells[j])
    {
      var x := 0;
      while x < w
        invariant x % gap == 0
        invariant forall c :: c in cells <==>
          Kept(data, w, h, gap, channel, threshold, c) && (c.y < y || (c.y == y && c.x < x))
        invariant forall i, j :: 0 <= i < j < |cells| ==> Before(cells[i], cells[j])
      {
        if ByteAt(data, w, h, channel, x, y) > threshold {
          cells := cells + [Cell(x, y)];
        }
        forall c: Cell | c.y == y && x < c.x < x + gap
          ensures !Kept(data, w, h, gap, channel, threshold, c)
        {
          NoGridLineBetween(x, gap, c.x);
        }
        NextGridLine(x, gap);
        x := x + gap;
      }
      forall c: Cell | y < c.y < y + gap
        ensures !Kept(data, w, h, gap, channel, threshold, c)
      {
        NoGridLineBetween(y, gap, c.y);
      }
      NextGridLine(y, gap);
      y := y + gap;
    }
  }
}
