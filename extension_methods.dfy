/**
 * `ExtensionMethods.Convert1DArrayInto2DArray`: cuts the flat, sorted sprite
 * array of a sheet into one `height` x `width` grid per variant.
 *
 * The sheet holds its N variants side by side: each sheet row is N blocks of
 * `width` sprites, block k belonging to variant k. So cell [i, j] of grid k is
 * read from flat index `(i*N + k)*width + j` (`FlatIndex`), which the source
 * computes with a `rowOffset` that grows by `N*width - 1` per row.
 *
 * The C# code guards nothing; the exceptions it then throws are modelled as
 * `Failure` results (`ReshapeFault` says which one).
 */
module ExtensionMethods {
  import opened Wrappers

  /** `numberOf2DArrays`: `(len + w*h - 1) / (w*h)` in C# integer division. */
  function GridCount(len: nat, width: int, height: int): int
    requires width * height != 0
  {
    TruncDiv(len + width * height - 1, width * height)
  }

  /** The flat index that cell [i, j] of grid k is read from, for N grids of `width` columns. */
  function FlatIndex(n: int, width: int, k: int, i: int, j: int): int
  {
    (i * n + k) * width + j
  }

  /**
   * The exception the call throws, if any: division by zero when `w*h` is 0, a
   * negative list capacity, a negative grid dimension (only once a grid is
   * allocated), and a read past the end exactly when the length is not a
   * multiple of the grid area.
   */
  function ReshapeFault(len: nat, width: int, height: int): Option<Exception>
  {
    if width * height == 0 then Some(DivideByZeroException)
    else
      var n := GridCount(len, width, height);
      if n < 0 then Some(ArgumentOutOfRangeException)
      else if n == 0 then None
      else if width < 0 || height < 0 then Some(OverflowException)
      else if len % (width * height) != 0 then Some(IndexOutOfRangeException)
      else None
  }

  /** For positive dimensions the grid count is the ceiling of len / (w*h). */
  lemma GridCountIsCeiling(len: nat, width: int, height: int)
    requires width > 0 && height > 0
    ensures GridCount(len, width, height) >= 0
    ensures (GridCount(len, width, height) - 1) * (width * height) < len
    ensures len <= GridCount(len, width, height) * (width * height)
    ensures GridCount(len, width, height) == 0 <==> len == 0
  {
    var a := width * height;
    assert a > 0;
    CeilingDivision(len, a);
    assert GridCount(len, width, height) == (len + a - 1) / a;
  }

  /** `(len + a - 1) / a` is the least count of `a`-sized blocks that covers `len`. */
  lemma CeilingDivision(len: nat, a: int)
    requires a > 0
    ensures var q := (len + a - 1) / a;
      q >= 0 && (q - 1) * a < len && len <= q * a && (q == 0 <==> len == 0)
  {
    var x := len + a - 1;
    var q, r := x / a, x % a;
    assert x == q * a + r && 0 <= r < a;
    assert (q - 1) * a == q * a - a;
    if q == 0 {
      assert len <= 0;
    }
  }

  /** With positive dimensions the call fails exactly when len is not a multiple of w*h. */
  lemma ReshapeFaultForPositiveDimensions(len: nat, width: int, height: int)
    requires width > 0 && height > 0
    ensures ReshapeFault(len, width, height).Some? <==> len % (width * height) != 0
    ensures ReshapeFault(len, width, height).Some? ==> ReshapeFault(len, width, height) == Some(IndexOutOfRangeException)
    ensures len == 0 ==> ReshapeFault(len, width, height).None? && GridCount(len, width, height) == 0
  {
    GridCountIsCeiling(len, width, height);
  }

  /** The source's read index `i + k*width + rowOffset + j`, with `rowOffset == i*(N*width - 1)`. */
  lemma ReadIndexIsFlatIndex(n: int, width: int, k: int, i: int, j: int)
    ensures i + k * width + i * (n * width - 1) + j == FlatIndex(n, width, k, i, j)
  {
    assert i * (n * width - 1) == i * n * width - i;
    assert (i * n + k) * width == i * n * width + k * width;
  }

  /** Every cell of every grid reads inside [0, N*width*height); the last cell reads the last slot. */
  lemma FlatIndexInRange(n: nat, width: nat, height: nat, k: int, i: int, j: int)
    requires 0 <= k < n && 0 <= i < height && 0 <= j < width
    ensures 0 <= FlatIndex(n, width, k, i, j) < n * width * height
    ensures k == n - 1 && i == height - 1 && j == width - 1 ==> FlatIndex(n, width, k, i, j) == n * width * height - 1
  {
    var row := i * n + k;
    MulMono(i, height - 1, n);
    assert (height - 1) * n == height * n - n;
    assert 0 <= row <= height * n - 1;
    MulMono(0, row, width);
    MulMono(row, height * n - 1, width);
    assert (height * n - 1) * width == height * n * width - width;
    assert height * n * width == n * width * height;
  }

  /** Multiplying by a non-negative factor keeps the order. */
  lemma {:induction false} MulMono(a: int, b: int, c: nat)
    requires a <= b
    ensures a * c <= b * c
  {
    if c > 0 {
      MulMono(a, b, c - 1);
      assert a * c == a * (c - 1) + a;
      assert b * c == b * (c - 1) + b;
    }
  }

  /** The cell that flat index `x` lands in: variant, row, column. */
  function Locate(n: nat, width: nat, x: nat): (cell: (nat, nat, nat))
    requires n > 0 && width > 0
  {
    ((x / width) % n, (x / width) / n, x % width)
  }

  /**
   * The map from cells to flat indices is a bijection onto [0, N*width*height):
   * `Locate` inverts `FlatIndex` on cells, and `FlatIndex` inverts `Locate` on
   * indices, so each element of a sheet whose length is N*width*height lands
   * in exactly one cell.
   */
  lemma FlatIndexBijection(n: nat, width: nat, height: nat)
    requires n > 0 && width > 0 && height > 0
    ensures forall k, i, j :: 0 <= k < n && 0 <= i < height && 0 <= j < width ==>
      0 <= FlatIndex(n, width, k, i, j) < n * width * height &&
      Locate(n, width, FlatIndex(n, width, k, i, j)) == (k, i, j)
    ensures forall x :: 0 <= x < n * width * height ==>
      var (k, i, j) := Locate(n, width, x);
      k < n && i < height && j < width && FlatIndex(n, width, k, i, j) == x
  {
    forall k, i, j | 0 <= k < n && 0 <= i < height && 0 <= j < width
      ensures 0 <= FlatIndex(n, width, k, i, j) < n * width * height
      ensures Locate(n, width, FlatIndex(n, width, k, i, j)) == (k, i, j)
    {
      LocateOfFlatIndex(n, width, height, k, i, j);
    }
    forall x | 0 <= x < n * width * height
      ensures var (k, i, j) := Locate(n, width, x);
        k < n && i < height && j < width && FlatIndex(n, width, k, i, j) == x
    {
      FlatIndexOfLocate(n, width, height, x);
    }
  }

  /** `Locate` finds the cell a flat index was computed from. */
  lemma LocateOfFlatIndex(n: nat, width: nat, height: nat, k: int, i: int, j: int)
    requires n > 0 && width > 0 && 0 <= k < n && 0 <= i < height && 0 <= j < width
    ensures 0 <= FlatIndex(n, width, k, i, j) < n * width * height
    ensures Locate(n, width, FlatIndex(n, width, k, i, j)) == (k, i, j)
  {
    FlatIndexInRange(n, width, height, k, i, j);
    var x := FlatIndex(n, width, k, i, j);
    DivModUnique(x, width, i * n + k, j);
    DivModUnique(i * n + k, n, i, k);
  }

  /** Every flat index below N*width*height is the flat index of the cell `Locate` gives. */
  lemma FlatIndexOfLocate(n: nat, width: nat, height: nat, x: nat)
    requires n > 0 && width > 0 && height > 0 && x < n * width * height
    ensures var (k, i, j) := Locate(n, width, x);
      k < n && i < height && j < width && FlatIndex(n, width, k, i, j) == x
  {
    var (k, i, j) := Locate(n, width, x);
    var row := x / width;
    assert row < n * height by {
      MulSwap(n, width, height);
      DivBelow(x, width, n * height);
    }
    assert i < height by {
      DivBelow(row, n, height);
    }
    assert row == i * n + k;
    assert x == row * width + j;
  }

  lemma MulSwap(a: int, b: int, c: int)
    ensures a * b * c == (a * c) * b
  {
  }

  /** Division and remainder are determined by `x == q*d + r` with `0 <= r < d`. */
  lemma DivModUnique(x: int, d: int, q: int, r: int)
    requires d > 0 && 0 <= r < d && x == q * d + r
    ensures x / d == q && x % d == r
  {
    var q', r' := x / d, x % d;
    assert x == q' * d + r';
    assert (q - q') * d == r' - r by {
      assert (q - q') * d == q * d - q' * d;
    }
    if q' < q {
      MulMono(1, q - q', d);
    } else if q < q' {
      MulMono(1, q' - q, d);
    }
  }

  lemma DivBelow(x: nat, d: nat, m: nat)
    requires d > 0 && x < m * d
    ensures x / d < m
  {
    if x / d >= m {
      MulMono(m, x / d, d);
    }
  }

  lemma MulAssoc(a: int, b: int, c: int)
    ensures a * b * c == a * (b * c)
  {
  }

  /** A read past the end can only happen when len is not a multiple of the grid area. */
  lemma OutOfRangeReadIsFault(len: nat, width: int, height: int, n: int, k: int, i: int, j: int)
    requires width * height != 0 && n == GridCount(len, width, height)
    requires width >= 0 && height >= 0
    requires 0 <= k < n && 0 <= i < height && 0 <= j < width
    requires len <= FlatIndex(n, width, k, i, j)
    ensures ReshapeFault(len, width, height) == Some(IndexOutOfRangeException)
  {
    assert width > 0 && height > 0;
    var area := width * height;
    FlatIndexInRange(n, width, height, k, i, j);
    GridCountIsCeiling(len, width, height);
    MulAssoc(n, width, height);
    StrictlyBetweenMultiples(len, area, n);
  }

  /** A length strictly between two consecutive multiples of `area` is not one. */
  lemma StrictlyBetweenMultiples(len: nat, area: int, n: int)
    requires area > 0 && (n - 1) * area < len < n * area
    ensures len % area != 0
  {
    if len % area == 0 {
      var q := len / area;
      assert len == q * area;
      if q <= n - 1 {
        MulMono(q, n - 1, area);
      } else {
        MulMono(n, q, area);
      }
      assert false;
    }
  }

  /** When even the last cell reads inside the array, nothing is thrown. */
  lemma InRangeReadsAreNoFault(len: nat, width: int, height: int, n: int)
    requires width * height != 0 && n == GridCount(len, width, height) && n >= 0
    requires n > 0 ==> width > 0 && height > 0 && FlatIndex(n, width, n - 1, height - 1, width - 1) < len
    ensures ReshapeFault(len, width, height) == None
  {
    if n > 0 {
      FlatIndexInRange(n, width, height, n - 1, height - 1, width - 1);
      GridCountIsCeiling(len, width, height);
      assert n * width * height == n * (width * height);
      MultipleOfArea(len, n, width * height);
    }
  }

  lemma MultipleOfArea(len: nat, n: nat, area: nat)
    requires area > 0 && len == n * area
    ensures len % area == 0
  {
    DivModUnique(len, area, n, 0);
  }

  /**
   * `grids` is what the call returns for `elements`: GridCount grids of
   * `height` rows and `width` columns, cell [i, j] of grid k holding the
   * element at `FlatIndex`, every such index inside the array.
   */
  ghost predicate IsReshapeOf<T>(grids: seq<array2<T>>, elements: array<T>, width: int, height: int)
    reads grids, elements
  {
    && width * height != 0
    && |grids| == GridCount(elements.Length, width, height)
    && (forall k :: 0 <= k < |grids| ==> grids[k].Length0 == height && grids[k].Length1 == width)
    && (forall k, i, j :: 0 <= k < |grids| && 0 <= i < height && 0 <= j < width ==>
          0 <= FlatIndex(|grids|, width, k, i, j) < elements.Length &&
          grids[k][i, j] == elements[FlatIndex(|grids|, width, k, i, j)])
  }

  /** Without a fault, the grids cover the array exactly: N*w*h == len, with positive dimensions. */
  lemma NoFaultCoversArray(len: nat, width: int, height: int)
    requires ReshapeFault(len, width, height).None? && GridCount(len, width, height) > 0
    ensures width > 0 && height > 0
    ensures GridCount(len, width, height) * width * height == len
  {
    var n, area := GridCount(len, width, height), width * height;
    assert width > 0 && height > 0;
    GridCountIsCeiling(len, width, height);
    var q := len / area;
    assert len == q * area;
    if q < n {
      MulMono(q, n - 1, area);
    } else if n < q {
      MulMono(n, q - 1, area);
    }
    MulAssoc(n, width, height);
  }

  /**
   * The call's result as values: the grids it returns, or the exception it
   * throws. Grid k, row i, column j holds the element at `FlatIndex`.
   */
  function Reshape<T>(elements: seq<T>, width: int, height: int): (r: Result<seq<seq<seq<T>>>, Exception>)
    ensures r.Failure? <==> ReshapeFault(|elements|, width, height).Some?
    ensures r.Failure? ==> ReshapeFault(|elements|, width, height) == Some(r.error)
    ensures r.Success? ==> width * height != 0 && |r.value| == GridCount(|elements|, width, height)
    ensures r.Success? && |r.value| > 0 ==> width > 0 && height > 0
    ensures r.Success? ==> forall k :: 0 <= k < |r.value| ==>
      |r.value[k]| == height && forall i :: 0 <= i < height ==> |r.value[k][i]| == width
    ensures r.Success? ==> forall k, i, j :: 0 <= k < |r.value| && 0 <= i < height && 0 <= j < width ==>
      0 <= FlatIndex(|r.value|, width, k, i, j) < |elements| &&
      r.value[k][i][j] == elements[FlatIndex(|r.value|, width, k, i, j)]
  {
    match ReshapeFault(|elements|, width, height)
    case Some(e) => Failure(e)
    case None =>
      var n := GridCount(|elements|, width, height);
      if n == 0 then Success([])
      else
        NoFaultCoversArray(|elements|, width, height);
        assert forall k, i, j :: 0 <= k < n && 0 <= i < height && 0 <= j < width ==>
          0 <= FlatIndex(n, width, k, i, j) < |elements| by {
          forall k, i, j | 0 <= k < n && 0 <= i < height && 0 <= j < width
            ensures 0 <= FlatIndex(n, width, k, i, j) < |elements|
          {
            FlatIndexInRange(n, width, height, k, i, j);
          }
        }
        Success(seq(n, k requires 0 <= k < n =>
          seq(height, i requires 0 <= i < height =>
            seq(width, j requires 0 <= j < width => elements[FlatIndex(n, width, k, i, j)]))))
  }

  /**
   * A sheet of 16 sprites with 4-wide, 2-high grids holds 2 variants side by
   * side: variant 0 gets sprites 0-3 and 8-11, variant 1 sprites 4-7 and 12-15.
   */
  lemma SideBySideExample()
    ensures GridCount(16, 4, 2) == 2
    ensures forall j :: 0 <= j < 4 ==>
      FlatIndex(2, 4, 0, 0, j) == j && FlatIndex(2, 4, 0, 1, j) == 8 + j &&
      FlatIndex(2, 4, 1, 0, j) == 4 + j && FlatIndex(2, 4, 1, 1, j) == 12 + j
  {
  }

  /**
   * One pass of the source's outer loop: allocates grid k (`new T[height, width]`)
   * and fills it cell by cell, advancing `rowOffset` by `N*width - 1` per row.
   */
  method FillGrid<T(0)>(elements: array<T>, width: nat, height: nat, n: int, k: nat)
    returns (r: Result<array2<T>, Exception>)
    requires width * height != 0 && n == GridCount(elements.Length, width, height) && k < n
    ensures r.Failure? ==> r.error == IndexOutOfRangeException
    ensures r.Failure? ==> ReshapeFault(elements.Length, width, height) == Some(IndexOutOfRangeException)
    ensures r.Success? ==> fresh(r.value) && r.value.Length0 == height && r.value.Length1 == width
    ensures r.Success? ==> forall i, j :: 0 <= i < height && 0 <= j < width ==>
      0 <= FlatIndex(n, width, k, i, j) < elements.Length &&
      r.value[i, j] == elements[FlatIndex(n, width, k, i, j)]
  {
    var rowOffset := 0;
    var currentArray := new T[height, width];
    ghost var step := n * width - 1;
    for i := 0 to height
      invariant rowOffset == i * step
      invariant forall i', j :: 0 <= i' < i && 0 <= j < width ==>
        0 <= FlatIndex(n, width, k, i', j) < elements.Length &&
        currentArray[i', j] == elements[FlatIndex(n, width, k, i', j)]
    {
      for j := 0 to width
        invariant forall i', j' :: 0 <= i' < i && 0 <= j' < width ==>
          0 <= FlatIndex(n, width, k, i', j') < elements.Length &&
          currentArray[i', j'] == elements[FlatIndex(n, width, k, i', j')]
        invariant forall j' :: 0 <= j' < j ==>
          0 <= FlatIndex(n, width, k, i, j') < elements.Length &&
          currentArray[i, j'] == elements[FlatIndex(n, width, k, i, j')]
      {
        var index := i + k * width + rowOffset + j;
        ReadIndexIsFlatIndex(n, width, k, i, j);
        if !(0 <= index < elements.Length) {
          FlatIndexInRange(n, width, height, k, i, j);
          OutOfRangeReadIsFault(elements.Length, width, height, n, k, i, j);
          return Failure(IndexOutOfRangeException);
        }
        currentArray[i, j] := elements[index];
      }
      assert (i + 1) * step == i * step + step;
      rowOffset := rowOffset + n * width - 1;
    }
    return Success(currentArray);
  }

  /** `Convert1DArrayInto2DArray<T>(this T[] array, int width, int height)`. */
  method Convert1DArrayInto2DArray<T(0)>(elements: array<T>, width: int, height: int)
    returns (r: Result<seq<array2<T>>, Exception>)
    ensures r.Failure? <==> ReshapeFault(elements.Length, width, height).Some?
    ensures r.Failure? ==> ReshapeFault(elements.Length, width, height) == Some(r.error)
    ensures r.Success? ==> IsReshapeOf(r.value, elements, width, height)
    ensures r.Success? ==> forall k :: 0 <= k < |r.value| ==> fresh(r.value[k])
    ensures r.Success? ==> forall k, l :: 0 <= k < l < |r.value| ==> r.value[k] != r.value[l]
  {
    var numberOfElements := elements.Length;
    var totalNumberOfElementsPer2DArray := width * height;
    if totalNumberOfElementsPer2DArray == 0 {
      return Failure(DivideByZeroException);
    }
    var n := TruncDiv(numberOfElements + totalNumberOfElementsPer2DArray - 1, totalNumberOfElementsPer2DArray);
    assert n == GridCount(numberOfElements, width, height);
    if n < 0 {
      return Failure(ArgumentOutOfRangeException);
    }
    var listOf2DArrays: seq<array2<T>> := [];
    for currentArrayNumber := 0 to n
      invariant |listOf2DArrays| == currentArrayNumber
      invariant currentArrayNumber > 0 ==> width > 0 && height > 0
      invariant forall g :: 0 <= g < currentArrayNumber ==>
        fresh(listOf2DArrays[g]) && listOf2DArrays[g].Length0 == height && listOf2DArrays[g].Length1 == width
      invariant forall g, l :: 0 <= g < l < currentArrayNumber ==> listOf2DArrays[g] != listOf2DArrays[l]
      invariant forall g, i, j :: 0 <= g < currentArrayNumber && 0 <= i < height && 0 <= j < width ==>
        0 <= FlatIndex(n, width, g, i, j) < numberOfElements &&
        listOf2DArrays[g][i, j] == elements[FlatIndex(n, width, g, i, j)]
    {
      if height < 0 || width < 0 {
        return Failure(OverflowException);
      }
      var currentArray := FillGrid(elements, width, height, n, currentArrayNumber);
      if currentArray.Failure? {
        return Failure(IndexOutOfRangeException);
      }
      listOf2DArrays := listOf2DArrays + [currentArray.value];
    }
    InRangeReadsAreNoFault(numberOfElements, width, height, n);
    return Success(listOf2DArrays);
  }
}
