/**
 * The sphere layout of src/index.ts: `genSpheres` enumerates a
 * `rowCount x colCount` grid row by row and gives each cell a pair of ratios
 * in [0, 1] and a position on a rectangle of size `width x height`.
 *
 * Numbers are modelled as `real` (no float rounding) and the counts as `nat`.
 * Of the sphere's `Transform` only the two position components that
 * `genSpheres` writes are kept.
 */
module SphereGrid {
  import opened RealArith

  datatype SphereGenProperties = SphereGenProperties(
    rowCount: nat,
    colCount: nat,
    width: real,
    height: real,
    centerX: real,
    centerY: real)

  /** `sphereGenDefaults`: the layout the application generates at start-up. */
  const SphereGenDefaults := SphereGenProperties(5, 5, 1.1, 1.1, 0.0, 0.0)

  /** A generated sphere: its transform's x and y position and its two ratios. */
  datatype SphereObject = SphereObject(posX: real, posY: real, xRatio: real, yRatio: real)

  /**
   * The ratios `x / (colCount - 1)` and `y / (rowCount - 1)` never divide by
   * zero: either the grid has no cell at all, or it has at least two rows and
   * two columns.
   */
  predicate Divisible(p: SphereGenProperties) {
    p.rowCount == 0 || p.colCount == 0 || (p.rowCount >= 2 && p.colCount >= 2)
  }

  /** `origin + i * spacing`: the coordinate of the `i`-th sphere along one axis. */
  function Offset(origin: real, i: nat, spacing: real): real {
    origin + i as real * spacing
  }

  /** `i / n`: the ratio of the `i`-th of `n + 1` cells along one axis. */
  function Ratio(i: nat, n: nat): real
    requires n > 0
  {
    i as real / n as real
  }

  /**
   * The sphere generated for column `x` of row `y`: spacings `width / colCount`
   * and `-height / rowCount` from the origin `(centerX - width / 2,
   * centerY + height / 2)`, and ratios `x / (colCount - 1)`, `y / (rowCount - 1)`.
   */
  function SphereAt(p: SphereGenProperties, x: nat, y: nat): SphereObject
    requires Divisible(p) && x < p.colCount && y < p.rowCount
  {
    SphereObject(Offset(p.centerX - p.width / 2.0, x, p.width / p.colCount as real),
                 Offset(p.centerY + p.height / 2.0, y, -p.height / p.rowCount as real),
                 Ratio(x, p.colCount - 1), Ratio(y, p.rowCount - 1))
  }

  /** A grid cell: column `x` of row `y`. */
  datatype Cell = Cell(x: nat, y: nat)

  /** The first `n` cells of row `y`, by increasing column. */
  function RowCells(y: nat, n: nat): (r: seq<Cell>)
    ensures |r| == n
    ensures forall i :: 0 <= i < n ==> r[i].x < n && r[i].y == y
  {
    if n == 0 then [] else RowCells(y, n - 1) + [Cell(n - 1, y)]
  }

  /** The cells of the first `n` rows of a grid `c` columns wide, row after row. */
  function Cells(n: nat, c: nat): (r: seq<Cell>)
    ensures |r| == n * c
    ensures forall i :: 0 <= i < |r| ==> r[i].x < c && r[i].y < n
  {
    if n == 0 then [] else Cells(n - 1, c) + RowCells(n - 1, c)
  }

  /** Every cell lies inside the `rowCount x colCount` grid. */
  ghost predicate InGrid(p: SphereGenProperties, cells: seq<Cell>) {
    forall i :: 0 <= i < |cells| ==> cells[i].x < p.colCount && cells[i].y < p.rowCount
  }

  /** The spheres generated for `cells`, in the same order. */
  function Place(p: SphereGenProperties, cells: seq<Cell>): (r: seq<SphereObject>)
    requires Divisible(p) && InGrid(p, cells)
    ensures |r| == |cells|
  {
    if cells == [] then []
    else
      var last := cells[|cells| - 1];
      Place(p, cells[..|cells| - 1]) + [SphereAt(p, last.x, last.y)]
  }

  /** The whole grid in row-major order. */
  function Grid(p: SphereGenProperties): seq<SphereObject>
    requires Divisible(p)
  {
    Place(p, Cells(p.rowCount, p.colCount))
  }

  lemma {:induction false} RowCellsAt(y: nat, n: nat, x: nat)
    requires x < n
    ensures RowCells(y, n)[x] == Cell(x, y)
  {
    if x < n - 1 {
      RowCellsAt(y, n - 1, x);
    }
  }

  lemma {:induction false} CellsAt(n: nat, c: nat, x: nat, y: nat)
    requires x < c && y < n
    ensures y * c + x < n * c
    ensures Cells(n, c)[y * c + x] == Cell(x, y)
  {
    CellBeforeRow(x, y, n, c);
    if y < n - 1 {
      CellsAt(n - 1, c, x, y);
    } else {
      assert |Cells(n - 1, c)| == y * c;
      RowCellsAt(y, c, x);
    }
  }

  /**
   * The spheres `genSpheres` has pushed when its loops reach column `x` of
   * row `y`: every earlier row in full, then the first `x` cells of row `y`.
   */
  ghost function Pushed(p: SphereGenProperties, y: nat, x: nat): seq<SphereObject>
    requires Divisible(p) && y <= p.rowCount && x <= p.colCount && (x > 0 ==> y < p.rowCount)
    decreases y, x
  {
    if x > 0 then Pushed(p, y, x - 1) + [SphereAt(p, x - 1, y)]
    else if y > 0 then Pushed(p, y - 1, p.colCount)
    else []
  }

  /** The cells of the rows before `y`, then of the first `x` columns of row `y`, lie in the grid. */
  lemma PrefixInGrid(p: SphereGenProperties, y: nat, x: nat)
    requires y <= p.rowCount && x <= p.colCount && (x > 0 ==> y < p.rowCount)
    ensures InGrid(p, Cells(y, p.colCount) + RowCells(y, x))
  {
    var cells := Cells(y, p.colCount) + RowCells(y, x);
    forall i | 0 <= i < |cells|
      ensures cells[i].x < p.colCount && cells[i].y < p.rowCount
    {
      if i >= |Cells(y, p.colCount)| {
        assert cells[i] == RowCells(y, x)[i - |Cells(y, p.colCount)|];
      }
    }
  }

  /** The step of the inner loop: one more cell of row `y` pushes that cell's sphere. */
  lemma PushedNext(p: SphereGenProperties, y: nat, x: nat)
    requires Divisible(p) && y < p.rowCount && x < p.colCount
    requires InGrid(p, Cells(y, p.colCount) + RowCells(y, x))
    requires Pushed(p, y, x) == Place(p, Cells(y, p.colCount) + RowCells(y, x))
    ensures InGrid(p, Cells(y, p.colCount) + RowCells(y, x + 1))
    ensures Pushed(p, y, x + 1) == Place(p, Cells(y, p.colCount) + RowCells(y, x + 1))
  {
    PrefixInGrid(p, y, x + 1);
    var done := Cells(y, p.colCount) + RowCells(y, x);
    var cells := Cells(y, p.colCount) + RowCells(y, x + 1);
    assert cells == done + [Cell(x, y)];
    assert cells[..|cells| - 1] == done;
    assert Place(p, cells) == Place(p, done) + [SphereAt(p, x, y)];
  }

  /** The step of the outer loop: row `y` starts where row `y - 1` ended. */
  lemma PushedRowStart(p: SphereGenProperties, y: nat)
    requires Divisible(p) && 0 < y <= p.rowCount
    requires InGrid(p, Cells(y - 1, p.colCount) + RowCells(y - 1, p.colCount))
    requires Pushed(p, y - 1, p.colCount) == Place(p, Cells(y - 1, p.colCount) + RowCells(y - 1, p.colCount))
    ensures InGrid(p, Cells(y, p.colCount) + RowCells(y, 0))
    ensures Pushed(p, y, 0) == Place(p, Cells(y, p.colCount) + RowCells(y, 0))
  {
    assert Cells(y, p.colCount) + RowCells(y, 0) == Cells(y, p.colCount);
  }

  /** What the loops have pushed is the row-major prefix of the grid's cells, placed. */
  lemma {:induction false} PushedPlaced(p: SphereGenProperties, y: nat, x: nat)
    requires Divisible(p) && y <= p.rowCount && x <= p.colCount && (x > 0 ==> y < p.rowCount)
    ensures InGrid(p, Cells(y, p.colCount) + RowCells(y, x))
    ensures Pushed(p, y, x) == Place(p, Cells(y, p.colCount) + RowCells(y, x))
    decreases y, x
  {
    if x > 0 {
      PushedPlaced(p, y, x - 1);
      PushedNext(p, y, x - 1);
    } else if y > 0 {
      PushedPlaced(p, y - 1, p.colCount);
      PushedRowStart(p, y);
    } else {
      assert Cells(y, p.colCount) + RowCells(y, x) == [];
    }
  }

  /** Once every row has been pushed, the loops have produced the whole grid. */
  lemma PushedGrid(p: SphereGenProperties)
    requires Divisible(p)
    ensures Pushed(p, p.rowCount, 0) == Grid(p)
  {
    PushedPlaced(p, p.rowCount, 0);
    assert Cells(p.rowCount, p.colCount) + RowCells(p.rowCount, 0) == Cells(p.rowCount, p.colCount);
  }

  lemma {:induction false} PlaceAt(p: SphereGenProperties, cells: seq<Cell>, k: nat)
    requires Divisible(p) && InGrid(p, cells) && k < |cells|
    ensures Place(p, cells)[k] == SphereAt(p, cells[k].x, cells[k].y)
  {
    var n := |cells| - 1;
    if k < n {
      PlaceAt(p, cells[..n], k);
      assert cells[..n][k] == cells[k];
    }
  }

  /** Cell `(x, y)` of a grid `c` columns wide comes before row `n` when `y < n`. */
  lemma {:induction false} CellBeforeRow(x: nat, y: nat, n: nat, c: nat)
    requires x < c && y < n
    ensures y * c + x < n * c
  {
    assert (n - 1) * c + c == n * c;
    if y < n - 1 {
      CellBeforeRow(x, y, n - 1, c);
    }
  }

  /** Index `k` of a grid `c` columns wide and `n` rows high lies in row `k / c`, column `k % c`. */
  lemma IndexRow(k: nat, c: nat, n: nat)
    requires k < n * c
    ensures c > 0 && k / c < n && k == (k / c) * c + k % c
  {
  }

  /**
   * The grid has `rowCount * colCount` spheres, and the sphere of column `x`
   * of row `y` is at index `y * colCount + x`.
   */
  lemma GridAt(p: SphereGenProperties, x: nat, y: nat)
    requires Divisible(p) && x < p.colCount && y < p.rowCount
    ensures y * p.colCount + x < p.rowCount * p.colCount == |Grid(p)|
    ensures Grid(p)[y * p.colCount + x] == SphereAt(p, x, y)
  {
    var cells := Cells(p.rowCount, p.colCount);
    CellsAt(p.rowCount, p.colCount, x, y);
    PlaceAt(p, cells, y * p.colCount + x);
  }

  /** Conversely, index `k` of the grid holds column `k % colCount` of row `k / colCount`. */
  lemma GridIndex(p: SphereGenProperties, k: nat)
    requires Divisible(p) && k < |Grid(p)|
    ensures p.colCount > 0 && k / p.colCount < p.rowCount
    ensures Grid(p)[k] == SphereAt(p, k % p.colCount, k / p.colCount)
  {
    var c := p.colCount;
    IndexRow(k, c, p.rowCount);
    GridAt(p, k % c, k / c);
  }

  /** `i / n` for `i <= n`: in [0, 1], 0 exactly when `i = 0`, 1 exactly when `i = n`. */
  lemma UnitRatio(i: nat, n: nat)
    requires 0 < n && i <= n
    ensures 0.0 <= Ratio(i, n) <= 1.0
    ensures Ratio(i, n) == 0.0 <==> i == 0
    ensures Ratio(i, n) == 1.0 <==> i == n
  {
    var nr, q := n as real, Ratio(i, n);
    assert q * nr == i as real;
    assert (1.0 - q) * nr == nr - i as real;
    if i == n {
      ZeroProduct(1.0 - q, nr);
    }
  }


  /** `i / n < j / n` when `i < j`. */
  lemma RatioIncreasing(i: nat, j: nat, n: nat)
    requires 0 < n && i < j
    ensures Ratio(i, n) < Ratio(j, n)
  {
    assert Ratio(j, n) - Ratio(i, n) == (j - i) as real / n as real;
  }

  /** Consecutive offsets are one spacing apart. */
  lemma OffsetStep(origin: real, i: nat, spacing: real)
    ensures Offset(origin, i + 1, spacing) == Offset(origin, i, spacing) + spacing
  {
  }

  /** Offsets strictly increase with the index for a positive spacing, and strictly decrease for a negative one. */
  lemma OffsetMonotone(origin: real, i: nat, j: nat, spacing: real)
    requires i < j
    ensures spacing > 0.0 ==> Offset(origin, i, spacing) < Offset(origin, j, spacing)
    ensures spacing < 0.0 ==> Offset(origin, i, spacing) > Offset(origin, j, spacing)
  {
    var d := (j - i) as real;
    assert Offset(origin, j, spacing) - Offset(origin, i, spacing) == d * spacing;
    if spacing > 0.0 {
      PositiveProduct(d, spacing);
    } else if spacing < 0.0 {
      PositiveProduct(d, -spacing);
    }
  }

  /**
   * `n` offsets with spacing `w / n` run from `origin` to `origin + w - w / n`,
   * and the `i`-th and the `(n - 1 - i)`-th average to the middle of that run.
   */
  lemma OffsetSpan(origin: real, i: nat, n: nat, w: real)
    requires i < n
    ensures var s := w / n as real;
      && Offset(origin, i, s) + Offset(origin, n - 1 - i, s) == 2.0 * origin + w - s
      && (w >= 0.0 ==> origin <= Offset(origin, i, s) <= origin + w - s)
      && (w <= 0.0 ==> origin + w - s <= Offset(origin, i, s) <= origin)
  {
    var s := w / n as real;
    var a, b := i as real * s, (n - 1 - i) as real * s;
    assert n as real * s == w;
    assert a + b == (n - 1) as real * s == w - s;
    if w >= 0.0 {
      assert s >= 0.0;
      NonNegativeProduct(i as real, s);
      NonNegativeProduct((n - 1 - i) as real, s);
    }
    if w <= 0.0 {
      assert -s >= 0.0;
      NonNegativeProduct(i as real, -s);
      NonNegativeProduct((n - 1 - i) as real, -s);
    }
  }

  /**
   * Both ratios lie in [0, 1]; a ratio is 0 exactly on the first column (row)
   * and 1 exactly on the last one.
   */
  lemma CellRatios(p: SphereGenProperties, x: nat, y: nat)
    requires Divisible(p) && x < p.colCount && y < p.rowCount
    ensures 0.0 <= SphereAt(p, x, y).xRatio <= 1.0 && 0.0 <= SphereAt(p, x, y).yRatio <= 1.0
    ensures SphereAt(p, x, y).xRatio == 0.0 <==> x == 0
    ensures SphereAt(p, x, y).xRatio == 1.0 <==> x == p.colCount - 1
    ensures SphereAt(p, x, y).yRatio == 0.0 <==> y == 0
    ensures SphereAt(p, x, y).yRatio == 1.0 <==> y == p.rowCount - 1
  {
    UnitRatio(x, p.colCount - 1);
    UnitRatio(y, p.rowCount - 1);
  }

  /**
   * Along a row the y position and the y ratio stay the same, the x ratio
   * strictly increases, and so does the x position when the rectangle has a
   * positive width.
   */
  lemma AlongRow(p: SphereGenProperties, y: nat, x1: nat, x2: nat)
    requires Divisible(p) && y < p.rowCount && x1 < x2 < p.colCount
    ensures SphereAt(p, x1, y).posY == SphereAt(p, x2, y).posY
    ensures SphereAt(p, x1, y).yRatio == SphereAt(p, x2, y).yRatio
    ensures SphereAt(p, x1, y).xRatio < SphereAt(p, x2, y).xRatio
    ensures p.width > 0.0 ==> SphereAt(p, x1, y).posX < SphereAt(p, x2, y).posX
  {
    RatioIncreasing(x1, x2, p.colCount - 1);
    var spacing := p.width / p.colCount as real;
    OffsetMonotone(p.centerX - p.width / 2.0, x1, x2, spacing);
    if p.width > 0.0 {
      assert spacing > 0.0;
    }
  }

  /**
   * Down a column the x position and the x ratio stay the same, the y ratio
   * strictly increases, and the y position strictly decreases when the
   * rectangle has a positive height.
   */
  lemma DownColumn(p: SphereGenProperties, x: nat, y1: nat, y2: nat)
    requires Divisible(p) && x < p.colCount && y1 < y2 < p.rowCount
    ensures SphereAt(p, x, y1).posX == SphereAt(p, x, y2).posX
    ensures SphereAt(p, x, y1).xRatio == SphereAt(p, x, y2).xRatio
    ensures SphereAt(p, x, y1).yRatio < SphereAt(p, x, y2).yRatio
    ensures p.height > 0.0 ==> SphereAt(p, x, y1).posY > SphereAt(p, x, y2).posY
  {
    RatioIncreasing(y1, y2, p.rowCount - 1);
    var spacing := -p.height / p.rowCount as real;
    OffsetMonotone(p.centerY + p.height / 2.0, y1, y2, spacing);
    if p.height > 0.0 {
      assert spacing < 0.0;
    }
  }

  /**
   * Neighbours in a row are `width / colCount` apart, neighbours in a column
   * `height / rowCount` apart.
   */
  lemma Spacing(p: SphereGenProperties, x: nat, y: nat)
    requires Divisible(p) && x < p.colCount && y < p.rowCount
    ensures x + 1 < p.colCount ==>
      SphereAt(p, x + 1, y).posX == SphereAt(p, x, y).posX + p.width / p.colCount as real
    ensures y + 1 < p.rowCount ==>
      SphereAt(p, x, y + 1).posY == SphereAt(p, x, y).posY - p.height / p.rowCount as real
  {
    OffsetStep(p.centerX - p.width / 2.0, x, p.width / p.colCount as real);
    OffsetStep(p.centerY + p.height / 2.0, y, -p.height / p.rowCount as real);
    assert -p.height / p.rowCount as real == -(p.height / p.rowCount as real);
  }

  /**
   * The spheres cover the rectangle from its top-left corner to one spacing
   * short of its bottom-right corner. So a row is centred on
   * `centerX - width / (2 * colCount)`, not on `centerX`: the spheres of
   * columns `x` and `colCount - 1 - x` average to that abscissa (and a column
   * is centred on `centerY + height / (2 * rowCount)` likewise).
   */
  lemma CellExtent(p: SphereGenProperties, x: nat, y: nat)
    requires Divisible(p) && x < p.colCount && y < p.rowCount
    requires p.width >= 0.0 && p.height >= 0.0
    ensures p.centerX - p.width / 2.0 <= SphereAt(p, x, y).posX
              <= p.centerX + p.width / 2.0 - p.width / p.colCount as real
    ensures p.centerY - p.height / 2.0 + p.height / p.rowCount as real
              <= SphereAt(p, x, y).posY <= p.centerY + p.height / 2.0
    ensures SphereAt(p, x, y).posX + SphereAt(p, p.colCount - 1 - x, y).posX
              == 2.0 * p.centerX - p.width / p.colCount as real
    ensures SphereAt(p, x, y).posY + SphereAt(p, x, p.rowCount - 1 - y).posY
              == 2.0 * p.centerY + p.height / p.rowCount as real
  {
    OffsetSpan(p.centerX - p.width / 2.0, x, p.colCount, p.width);
    OffsetSpan(p.centerY + p.height / 2.0, y, p.rowCount, -p.height);
    assert -p.height / p.rowCount as real == -(p.height / p.rowCount as real);
  }

  /**
   * The grid has `rowCount * colCount` spheres; the first one sits at the
   * top-left corner of the rectangle with ratios (0, 0), the last one one
   * spacing short of the bottom-right corner with ratios (1, 1).
   */
  lemma GridCorners(p: SphereGenProperties)
    requires p.rowCount >= 2 && p.colCount >= 2
    ensures |Grid(p)| == p.rowCount * p.colCount
    ensures Grid(p)[0] == SphereObject(p.centerX - p.width / 2.0, p.centerY + p.height / 2.0, 0.0, 0.0)
    ensures Grid(p)[|Grid(p)| - 1] ==
      SphereObject(p.centerX + p.width / 2.0 - p.width / p.colCount as real,
                   p.centerY - p.height / 2.0 + p.height / p.rowCount as real, 1.0, 1.0)
  {
    var r, c := p.rowCount, p.colCount;
    GridAt(p, 0, 0);
    GridAt(p, c - 1, r - 1);
    assert (r - 1) * c + (c - 1) == r * c - 1;
    UnitRatio(0, c - 1);
    UnitRatio(0, r - 1);
    UnitRatio(c - 1, c - 1);
    UnitRatio(r - 1, r - 1);
    OffsetSpan(p.centerX - p.width / 2.0, 0, c, p.width);
    OffsetSpan(p.centerY + p.height / 2.0, 0, r, -p.height);
    assert -p.height / r as real == -(p.height / r as real);
  }

  /** The default layout: 25 spheres from (-0.55, 0.55) to (0.33, -0.33), 0.22 apart. */
  lemma DefaultGrid()
    ensures Divisible(SphereGenDefaults)
    ensures |Grid(SphereGenDefaults)| == 25
    ensures Grid(SphereGenDefaults)[0] == SphereObject(-0.55, 0.55, 0.0, 0.0)
    ensures Grid(SphereGenDefaults)[24] == SphereObject(0.33, -0.33, 1.0, 1.0)
  {
    GridCorners(SphereGenDefaults);
  }

  /** The sphere `genSpheres` pushes for cell `(x, y)`, from the origin and spacings it computes first. */
  lemma CellSphere(p: SphereGenProperties, x: nat, y: nat, originX: real, originY: real, spacingX: real, spacingY: real)
    requires Divisible(p) && x < p.colCount && y < p.rowCount
    requires originX == p.centerX - p.width / 2.0 && originY == p.centerY + p.height / 2.0
    requires spacingX == (if p.colCount == 0 then 0.0 else p.width / p.colCount as real)
    requires spacingY == (if p.rowCount == 0 then 0.0 else -p.height / p.rowCount as real)
    ensures SphereObject(Offset(originX, x, spacingX), Offset(originY, y, spacingY),
                         Ratio(x, p.colCount - 1), Ratio(y, p.rowCount - 1)) == SphereAt(p, x, y)
  {
  }

  /**
   * `genSpheres`: nested loops over rows and then columns push one sphere per
   * cell; the result is the row-major grid.
   */
  method GenSpheres(p: SphereGenProperties) returns (spheres: seq<SphereObject>)
    requires Divisible(p)
    ensures spheres == Grid(p)
    ensures |spheres| == p.rowCount * p.colCount
  {
    spheres := [];
    // With no column (no row), `width / 0` is never used: no cell reads it.
    var spacingX := if p.colCount == 0 then 0.0 else p.width / p.colCount as real;
    var spacingY := if p.rowCount == 0 then 0.0 else -p.height / p.rowCount as real;
    var originX := p.centerX - p.width / 2.0;
    var originY := p.centerY + p.height / 2.0;
    for y := 0 to p.rowCount
      invariant spheres == Pushed(p, y, 0)
    {
      for x := 0 to p.colCount
        invariant spheres == Pushed(p, y, x)
      {
        var xRatio := Ratio(x, p.colCount - 1);
        var yRatio := Ratio(y, p.rowCount - 1);
        var sphereX := Offset(originX, x, spacingX);
        var sphereY := Offset(originY, y, spacingY);
        CellSphere(p, x, y, originX, originY, spacingX, spacingY);
        spheres := spheres + [SphereObject(sphereX, sphereY, xRatio, yRatio)];
      }
    }
    PushedGrid(p);
  }
}
