/** The raster image of a QR code for thermal printers. A byte is eight bits, the highest first. */
module QrRaster {
  import opened LocalTables

  type Byte = b: seq<bool> | |b| == 8 witness seq(8, i => false)

  const ZERO: Byte := seq(8, i => false)
  const QUIET: int := 4

  function Or(a: Byte, b: Byte): (c: Byte)
    ensures forall i :: 0 <= i < 8 ==> c[i] == (a[i] || b[i])
  {
    seq(8, i requires 0 <= i < 8 => a[i] || b[i])
  }

  /** 0x80 >> k. */
  function Mask(k: int): (m: Byte)
    ensures forall i :: 0 <= i < 8 ==> m[i] == (i == k)
  {
    seq(8, i => i == k)
  }

  /** The byte of a dot. */
  function Index(rowBytes: int, x: int, y: int): int { y * rowBytes + x / 8 }

  predicate OnPaper(rowBytes: int, height: int, x: int, y: int) {
    0 <= x < 8 * rowBytes && 0 <= y < height
  }

  lemma IndexInBounds(rowBytes: int, height: int, x: int, y: int)
    requires OnPaper(rowBytes, height, x, y)
    ensures 0 <= Index(rowBytes, x, y) < rowBytes * height
  {
    assert 0 <= y * rowBytes;
    assert y * rowBytes + rowBytes == (y + 1) * rowBytes <= height * rowBytes;
  }

  lemma NextMultiple(a: int, b: int, d: int)
    requires d > 0
    ensures a < b ==> a * d + d <= b * d
  {
    if a < b { assert (a + 1) * d == a * d + d && (b - a - 1) * d >= 0 && (b - a - 1) * d == b * d - (a + 1) * d; }
  }

  lemma IndexDecides(rowBytes: int, x: int, y: int, u: int, v: int)
    requires 0 <= x < 8 * rowBytes && 0 <= u < 8 * rowBytes && Index(rowBytes, x, y) == Index(rowBytes, u, v)
    ensures y == v && x / 8 == u / 8
  {
    NextMultiple(y, v, rowBytes);
    NextMultiple(v, y, rowBytes);
    assert 0 <= x / 8 < rowBytes && 0 <= u / 8 < rowBytes;
  }

  function Lit(pixels: array<Byte>, rowBytes: int, height: int, x: int, y: int): bool
    reads pixels
  {
    OnPaper(rowBytes, height, x, y)
    && (IndexInBounds(rowBytes, height, x, y);
       Index(rowBytes, x, y) < pixels.Length && pixels[Index(rowBytes, x, y)][x % 8])
  }

  /** A square matrix of modules. */
  predicate IsMatrix(modules: seq<seq<bool>>) {
    forall row :: 0 <= row < |modules| ==> |modules[row]| == |modules|
  }

  /** The module behind a dot exists and is dark. */
  predicate Dark(modules: seq<seq<bool>>, dots: int, x: int, y: int)
    requires dots > 0 && IsMatrix(modules)
  {
    var row, col := y / dots - QUIET, x / dots - QUIET;
    0 <= row < |modules| && 0 <= col < |modules| && modules[row][col]
  }

  /** One dot: the OR into its byte lights it and no other. */
  method SetDot(pixels: array<Byte>, rowBytes: int, height: int, x: int, y: int)
    requires OnPaper(rowBytes, height, x, y) && pixels.Length == rowBytes * height
    modifies pixels
    ensures forall u, v :: Lit(pixels, rowBytes, height, u, v) <==>
      old(Lit(pixels, rowBytes, height, u, v)) || (u == x && v == y)
  {
    IndexInBounds(rowBytes, height, x, y);
    var index := Index(rowBytes, x, y);
    pixels[index] := Or(pixels[index], Mask(x % 8));
    forall u, v
      ensures Lit(pixels, rowBytes, height, u, v) <==> old(Lit(pixels, rowBytes, height, u, v)) || (u == x && v == y)
    {
      if OnPaper(rowBytes, height, u, v) {
        IndexInBounds(rowBytes, height, u, v);
        if Index(rowBytes, u, v) == index { IndexDecides(rowBytes, x, y, u, v); }
      }
    }
  }

  predicate InSquare(top: int, left: int, dots: int, u: int, v: int) {
    top <= v < top + dots && left <= u < left + dots
  }

  /** The two inner loops: one module becomes a square of dots. */
  method PaintModule(pixels: array<Byte>, rowBytes: int, height: int, top: int, left: int, dots: int)
    requires pixels.Length == rowBytes * height && 0 <= top && 0 <= left && 0 < dots
    requires top + dots <= height && left + dots <= 8 * rowBytes
    modifies pixels
    ensures forall u, v :: Lit(pixels, rowBytes, height, u, v) <==>
      old(Lit(pixels, rowBytes, height, u, v)) || InSquare(top, left, dots, u, v)
  {
    for dy := 0 to dots
      invariant forall u, v :: Lit(pixels, rowBytes, height, u, v)
                  <==> old(Lit(pixels, rowBytes, height, u, v)) || (InSquare(top, left, dots, u, v) && v < top + dy)
    {
      for dx := 0 to dots
        invariant forall u, v :: Lit(pixels, rowBytes, height, u, v)
                    <==> old(Lit(pixels, rowBytes, height, u, v))
                         || (InSquare(top, left, dots, u, v) && (v < top + dy || (v == top + dy && u < left + dx)))
      {
        SetDot(pixels, rowBytes, height, left + dx, top + dy);
      }
    }
  }

  lemma SquareOfModule(dots: int, row: int, col: int, u: int, v: int)
    requires dots > 0
    ensures InSquare((row + QUIET) * dots, (col + QUIET) * dots, dots, u, v)
      <==> v / dots - QUIET == row && u / dots - QUIET == col
  {
    DivisionDecides(v, dots, row + QUIET);
    DivisionDecides(u, dots, col + QUIET);
  }

  lemma DivisionDecides(n: int, d: int, q: int)
    requires d > 0
    ensures q * d <= n < q * d + d <==> n / d == q
  {
    NextMultiple(n / d, q, d);
    NextMultiple(q, n / d, d);
    assert n == d * (n / d) + n % d && d * (n / d) == (n / d) * d;
  }

  /** Dots whose module comes before (row, col) in the order of the loops. */
  predicate Before(dots: int, row: int, col: int, u: int, v: int)
    requires dots > 0
  {
    v / dots - QUIET < row || (v / dots - QUIET == row && u / dots - QUIET < col)
  }

  datatype Raster = Raster(width: int, height: int, rowBytes: int)

  function PaperDots(columns: int): int { if columns == 32 then 384 else 576 }

  function ModuleDots(paper: int, modules: int): int
    requires modules > 0
  {
    if paper / modules < 4 then paper / modules else 4
  }

  /** The largest number of dots up to four at which all modules fit. */
  lemma ModuleDotsFit(paper: int, modules: int, dots: int)
    requires modules > 0 && 0 < dots <= 4
    ensures ModuleDots(paper, modules) >= dots <==> dots * modules <= paper
  {
    NextMultiple(paper / modules, dots, modules);
    NextMultiple(dots, paper / modules, modules);
    assert paper == modules * (paper / modules) + paper % modules
      && modules * (paper / modules) == (paper / modules) * modules;
  }

  /** Whole modules only, at most four dots each; None: the code does not fit and it throws. */
  function Layout(size: nat, columns: int): Option<(int, Raster)> {
    var modules := size + 2 * QUIET;
    var dots := ModuleDots(PaperDots(columns), modules);
    var width := modules * dots;
    if dots < 2 then None else Some((dots, Raster(width, width, (width + 7) / 8)))
  }

  /** The code is refused exactly when two dots a module do not fit; otherwise the image with its
      quiet zone of four modules never exceeds the paper, and no larger scale up to four would fit. */
  lemma LayoutFits(size: nat, columns: int)
    ensures var paper := if columns == 32 then 384 else 576;
      && (Layout(size, columns).None? <==> 2 * (size + 8) > paper)
      && (Layout(size, columns).Some? ==>
            var dots, raster := Layout(size, columns).value.0, Layout(size, columns).value.1;
            && 2 <= dots <= 4
            && raster.width == raster.height == (size + 8) * dots <= paper
            && raster.width <= 8 * raster.rowBytes < raster.width + 8
            && (dots < 4 ==> (dots + 1) * (size + 8) > paper))
  {
    var paper, modules := PaperDots(columns), size + 2 * QUIET;
    ModuleDotsFit(paper, modules, 2);
    ModuleDotsFit(paper, modules, 3);
    ModuleDotsFit(paper, modules, 4);
    var dots := ModuleDots(paper, modules);
    assert dots == 2 || dots == 3 || dots == 4 ==> modules * dots == dots * modules;
  }

  /** The modules before (row, col) are painted and nothing else is. */
  ghost predicate Painted(image: array<Byte>, modules: seq<seq<bool>>, dots: int, raster: Raster, row: int, col: int)
    requires dots > 0 && IsMatrix(modules)
    reads image
  {
    && image.Length == raster.rowBytes * raster.height
    && forall u, v :: Lit(image, raster.rowBytes, raster.height, u, v)
         <==> OnPaper(raster.rowBytes, raster.height, u, v) && Dark(modules, dots, u, v) && Before(dots, row, col, u, v)
  }

  method PaintIfDark(image: array<Byte>, modules: seq<seq<bool>>, dots: int, raster: Raster, row: int, col: int)
    requires IsMatrix(modules) && 0 <= row < |modules| && 0 <= col < |modules| && dots > 0
    requires raster.width == raster.height == (|modules| + 2 * QUIET) * dots && raster.width <= 8 * raster.rowBytes
    requires Painted(image, modules, dots, raster, row, col)
    modifies image
    ensures Painted(image, modules, dots, raster, row, col + 1)
  {
    SquareFits(|modules|, dots, raster, row, col);
    if modules[row][col] {
      PaintModule(image, raster.rowBytes, raster.height, (row + QUIET) * dots, (col + QUIET) * dots, dots);
    }
    forall u, v ensures Lit(image, raster.rowBytes, raster.height, u, v)
      <==> (OnPaper(raster.rowBytes, raster.height, u, v) && Dark(modules, dots, u, v)
            && Before(dots, row, col + 1, u, v))
    {
      SquareOfModule(dots, row, col, u, v);
    }
  }

  lemma RowDone(image: array<Byte>, modules: seq<seq<bool>>, dots: int, raster: Raster, row: int)
    requires IsMatrix(modules) && dots > 0 && Painted(image, modules, dots, raster, row, |modules|)
    ensures Painted(image, modules, dots, raster, row + 1, 0)
  {
    forall u, v | Dark(modules, dots, u, v)
      ensures Before(dots, row, |modules|, u, v) <==> Before(dots, row + 1, 0, u, v)
    {
    }
  }

  ghost predicate Shows(image: array<Byte>, modules: seq<seq<bool>>, dots: int, raster: Raster)
    requires dots > 0 && IsMatrix(modules)
    reads image
  {
    && image.Length == raster.rowBytes * raster.height
    && forall x, y :: OnPaper(raster.rowBytes, raster.height, x, y) ==>
         (Lit(image, raster.rowBytes, raster.height, x, y) <==> Dark(modules, dots, x, y))
  }

  lemma AllPainted(image: array<Byte>, modules: seq<seq<bool>>, dots: int, raster: Raster)
    requires IsMatrix(modules) && dots > 0 && Painted(image, modules, dots, raster, |modules|, 0)
    ensures Shows(image, modules, dots, raster)
  {
    forall x, y | Dark(modules, dots, x, y) ensures Before(dots, |modules|, 0, x, y) {
    }
  }

  lemma NonePainted(image: array<Byte>, modules: seq<seq<bool>>, dots: int, raster: Raster)
    requires IsMatrix(modules) && dots > 0 && image.Length == raster.rowBytes * raster.height
    requires forall i :: 0 <= i < image.Length ==> image[i] == ZERO
    ensures Painted(image, modules, dots, raster, 0, 0)
  {
    forall u, v | Dark(modules, dots, u, v) ensures !Before(dots, 0, 0, u, v) {
    }
  }

  /** The two outer loops. */
  method PaintAll(image: array<Byte>, modules: seq<seq<bool>>, dots: int, raster: Raster)
    requires IsMatrix(modules) && dots > 0 && Painted(image, modules, dots, raster, 0, 0)
    requires raster.width == raster.height == (|modules| + 2 * QUIET) * dots && raster.width <= 8 * raster.rowBytes
    modifies image
    ensures Shows(image, modules, dots, raster)
  {
    for row := 0 to |modules|
      invariant Painted(image, modules, dots, raster, row, 0)
    {
      for col := 0 to |modules|
        invariant Painted(image, modules, dots, raster, row, col)
      {
        PaintIfDark(image, modules, dots, raster, row, col);
      }
      RowDone(image, modules, dots, raster, row);
    }
    AllPainted(image, modules, dots, raster);
  }

  /** The raster image: a dot is lit exactly when the module behind it exists and is dark, so the
      quiet zone and the padding bits of a row stay unlit. */
  method EncodeRaster(modules: seq<seq<bool>>, columns: int) returns (dots: int, raster: Raster, pixels: array?<Byte>)
    requires IsMatrix(modules)
    ensures pixels == null <==> Layout(|modules|, columns).None?
    ensures pixels != null ==>
      fresh(pixels) && dots > 0 && Layout(|modules|, columns) == Some((dots, raster))
        && Shows(pixels, modules, dots, raster)
  {
    LayoutFits(|modules|, columns);
    var layout := Layout(|modules|, columns);
    if layout.None? { return 1, Raster(0, 0, 0), null; }
    dots, raster := layout.value.0, layout.value.1;
    assert 0 <= raster.rowBytes * raster.height;
    var image := new Byte[raster.rowBytes * raster.height](_ => ZERO);
    NonePainted(image, modules, dots, raster);
    PaintAll(image, modules, dots, raster);
    pixels := image;
  }

  /** Nothing is lit in the quiet zone or in the padding behind the last module. */
  lemma MarginsStayUnlit(modules: seq<seq<bool>>, dots: int, x: int, y: int)
    requires dots > 0 && IsMatrix(modules)
    ensures Dark(modules, dots, x, y) ==>
      QUIET * dots <= x < (|modules| + QUIET) * dots && QUIET * dots <= y < (|modules| + QUIET) * dots
  {
    if Dark(modules, dots, x, y) {
      SquareOfModule(dots, y / dots - QUIET, x / dots - QUIET, x, y);
      NextMultiple(x / dots, |modules| + QUIET, dots);
      NextMultiple(y / dots, |modules| + QUIET, dots);
      NextMultiple(QUIET, x / dots, dots);
      NextMultiple(QUIET, y / dots, dots);
    }
  }

  lemma SquareFits(size: nat, dots: int, raster: Raster, row: int, col: int)
    requires dots > 0 && 0 <= row < size && 0 <= col < size
    requires raster.width == raster.height == (size + 2 * QUIET) * dots && raster.width <= 8 * raster.rowBytes
    ensures 0 <= (row + QUIET) * dots && (row + QUIET) * dots + dots <= raster.height
    ensures 0 <= (col + QUIET) * dots && (col + QUIET) * dots + dots <= 8 * raster.rowBytes
    ensures forall u, v :: InSquare((row + QUIET) * dots, (col + QUIET) * dots, dots, u, v) ==>
      OnPaper(raster.rowBytes, raster.height, u, v)
  {
    assert (row + QUIET) * dots + dots == (row + QUIET + 1) * dots <= (size + 2 * QUIET) * dots;
    assert (col + QUIET) * dots + dots == (col + QUIET + 1) * dots <= (size + 2 * QUIET) * dots;
  }
}
