/** Cutting a rectangle out of a grayscale frame with numpy's 2-D slicing
    `gray[r0:r1, c0:c1]` (rows first, then columns, each bound with Python's
    slice rules), and flattening the cut row by row (`ravel()`). */
module ImageCrop {
  import opened PySemantics

  /** One grayscale intensity, as stored in a `uint8` image. */
  type Pixel = v: int | 0 <= v < 256

  /** A grayscale frame, `gray[row][column]`: rows run along y, columns along x. */
  type Gray = seq<seq<Pixel>>

  function Width(g: Gray): nat
  {
    if |g| == 0 then 0 else |g[0]|
  }

  /** Every row has the same length: the frame is a 2-D array. */
  predicate Rectangular(g: Gray)
  {
    forall i :: 0 <= i < |g| ==> |g[i]| == Width(g)
  }

  /** `g[r0:r1, c0:c1]`: the rows `g[r0:r1]`, each cut to `row[c0:c1]`. */
  function Crop(g: Gray, r0: int, r1: int, c0: int, c1: int): (c: Gray)
    requires Rectangular(g)
    ensures |c| == SliceLen(|g|, r0, r1)
    ensures forall i :: 0 <= i < |c| ==> |c[i]| == SliceLen(Width(g), c0, c1)
    ensures forall i, j :: 0 <= i < |c| && 0 <= j < |c[i]| ==>
              AdjustIndex(r0, |g|) + i < |g| && AdjustIndex(c0, Width(g)) + j < Width(g) &&
              c[i][j] == g[AdjustIndex(r0, |g|) + i][AdjustIndex(c0, Width(g)) + j]
  {
    var rows := Slice(g, r0, r1);
    seq(|rows|, i requires 0 <= i < |rows| => Slice(rows[i], c0, c1))
  }

  /** `ravel()`: the rows laid end to end. */
  function Ravel(c: Gray): seq<Pixel>
  {
    if c == [] then [] else c[0] + Ravel(c[1..])
  }

  /** Flattening `|c|` rows of `w` pixels gives `|c| * w` pixels, and a pixel
      value occurs in the flattened cut exactly when it occurs in some row. */
  lemma {:induction false} RavelShape(c: Gray, w: nat, v: Pixel)
    requires forall i :: 0 <= i < |c| ==> |c[i]| == w
    ensures |Ravel(c)| == |c| * w
    ensures v in Ravel(c) <==> exists i :: 0 <= i < |c| && v in c[i]
  {
    RavelLength(c, w);
    RavelMembers(c, v);
  }

  lemma {:induction false} RavelLength(c: Gray, w: nat)
    requires forall i :: 0 <= i < |c| ==> |c[i]| == w
    ensures |Ravel(c)| == |c| * w
  {
    if c != [] {
      var rest := c[1..];
      assert forall i :: 0 <= i < |rest| ==> rest[i] == c[i + 1];
      RavelLength(rest, w);
      assert |Ravel(c)| == w + |rest| * w;
      assert |c| * w == (|rest| + 1) * w == |rest| * w + w;
    }
  }

  lemma {:induction false} RavelMembers(c: Gray, v: Pixel)
    ensures v in Ravel(c) <==> exists i :: 0 <= i < |c| && v in c[i]
  {
    if c != [] {
      var rest := c[1..];
      RavelMembers(rest, v);
      assert Ravel(c) == c[0] + Ravel(rest);
      if v in Ravel(c) && v !in c[0] {
        var i :| 0 <= i < |rest| && v in rest[i];
        assert rest[i] == c[i + 1];
      }
      if exists i :: 0 <= i < |c| && v in c[i] {
        var i :| 0 <= i < |c| && v in c[i];
        if i > 0 {
          assert rest[i - 1] == c[i];
        }
      }
    }
  }

  /** The number of pixels a crop yields is the product of the two slice
      lengths; in particular a crop whose row or column slice is empty (a box
      lying off the frame, or with start >= stop after Python's index
      adjustment) yields no pixels at all. */
  lemma {:induction false} CropPixelCount(g: Gray, r0: int, r1: int, c0: int, c1: int)
    requires Rectangular(g)
    ensures |Ravel(Crop(g, r0, r1, c0, c1))| == SliceLen(|g|, r0, r1) * SliceLen(Width(g), c0, c1)
    ensures AdjustIndex(r1, |g|) <= AdjustIndex(r0, |g|) ==> Ravel(Crop(g, r0, r1, c0, c1)) == []
    ensures AdjustIndex(c1, Width(g)) <= AdjustIndex(c0, Width(g)) ==> Ravel(Crop(g, r0, r1, c0, c1)) == []
  {
    var c := Crop(g, r0, r1, c0, c1);
    RavelShape(c, SliceLen(Width(g), c0, c1), 0);
  }

  /** A box inside the frame yields `(r1 - r0) * (c1 - c0)` pixels, each the
      frame's pixel at the same place. */
  lemma {:induction false} CropInside(g: Gray, r0: int, r1: int, c0: int, c1: int)
    requires Rectangular(g)
    requires 0 <= r0 <= r1 <= |g| && 0 <= c0 <= c1 <= Width(g)
    ensures |Ravel(Crop(g, r0, r1, c0, c1))| == (r1 - r0) * (c1 - c0)
    ensures forall i, j :: 0 <= i < r1 - r0 && 0 <= j < c1 - c0 ==>
              Crop(g, r0, r1, c0, c1)[i][j] == g[r0 + i][c0 + j]
  {
    var c := Crop(g, r0, r1, c0, c1);
    assert AdjustIndex(r0, |g|) == r0 && AdjustIndex(r1, |g|) == r1;
    assert AdjustIndex(c0, Width(g)) == c0 && AdjustIndex(c1, Width(g)) == c1;
    assert |c| == r1 - r0;
    assert forall i :: 0 <= i < |c| ==> |c[i]| == c1 - c0;
    RavelLength(c, c1 - c0);
  }
}
