/** Letterboxing an image to a square, and scaling network boxes back onto it. */
module Letterbox {
  import opened Types
  import opened Decoding

  /** A pixel of an 8UC3 image. */
  datatype Pixel = Pixel(blue: bv8, green: bv8, red: bv8)

  const BLACK := Pixel(0, 0, 0)

  function Max(a: nat, b: nat): (m: nat)
    ensures (m == a || m == b) && a <= m && b <= m
  {
    if a > b then a else b
  }

  /** The image as a value: its rows, top to bottom. */
  ghost function Picture(img: array2<Pixel>): (p: seq<seq<Pixel>>)
    reads img
    ensures |p| == img.Length0
    ensures forall r :: 0 <= r < img.Length0 ==> |p[r]| == img.Length1
    ensures forall r, c :: 0 <= r < img.Length0 && 0 <= c < img.Length1 ==> p[r][c] == img[r, c]
  {
    seq(img.Length0, r requires 0 <= r < img.Length0 reads img =>
      seq(img.Length1, c requires 0 <= c < img.Length1 reads img => img[r, c]))
  }

  /** `square` is a square as large as the longer side of `source`, with `source` in its top left
      corner and black everywhere else. */
  ghost predicate IsLetterboxOf(square: array2<Pixel>, source: array2<Pixel>)
    reads square, source
  {
    && square.Length0 == square.Length1 == Max(source.Length0, source.Length1)
    && (forall r, c :: 0 <= r < source.Length0 && 0 <= c < source.Length1 ==> square[r, c] == source[r, c])
    && (forall r, c ::
          (0 <= r < square.Length0 && 0 <= c < square.Length1 && (r >= source.Length0 || c >= source.Length1))
          ==> square[r, c] == BLACK)
  }

  /** Pixel by pixel. */
  lemma LetterboxPixels(square: array2<Pixel>, source: array2<Pixel>, r: nat, c: nat)
    requires IsLetterboxOf(square, source) && r < square.Length0 && c < square.Length1
    ensures square.Length0 == square.Length1 && source.Length0 <= square.Length0 && source.Length1 <= square.Length0
    ensures square.Length0 == source.Length0 || square.Length0 == source.Length1
    ensures square[r, c] == if r < source.Length0 && c < source.Length1 then source[r, c] else Pixel(0, 0, 0)
  {
  }

  /** A square image is returned itself, not a copy; any other image is copied into a new black square. */
  method FormatToSquare(source: array2<Pixel>) returns (result: array2<Pixel>)
    ensures IsLetterboxOf(result, source)
    ensures source.Length0 == source.Length1 ==> result == source
    ensures source.Length0 != source.Length1 ==> fresh(result)
  {
    var col, row := source.Length1, source.Length0;
    var max := Max(col, row);
    if col == max && row == max {
      return source;
    }
    result := new Pixel[max, max]((r, c) => BLACK);
    forall r, c | 0 <= r < row && 0 <= c < col {
      result[r, c] := source[r, c];
    }
  }

  /** The letterboxed picture is determined by the source. */
  lemma LetterboxUnique(a: array2<Pixel>, b: array2<Pixel>, source: array2<Pixel>)
    requires IsLetterboxOf(a, source) && IsLetterboxOf(b, source)
    ensures Picture(a) == Picture(b)
  {
    var p, q := Picture(a), Picture(b);
    forall r | 0 <= r < |p| ensures p[r] == q[r] {
      forall c | 0 <= c < |p[r]| ensures p[r][c] == q[r][c] {
        if r < source.Length0 && c < source.Length1 {
          assert p[r][c] == source[r, c];
        }
      }
    }
  }

  /** Letterboxing is idempotent. */
  lemma LetterboxIdempotent(once: array2<Pixel>, twice: array2<Pixel>, source: array2<Pixel>)
    requires IsLetterboxOf(once, source) && IsLetterboxOf(twice, once)
    ensures Picture(twice) == Picture(once)
  {
    var p, q := Picture(twice), Picture(once);
    forall r | 0 <= r < |p| ensures p[r] == q[r] {
    }
  }

  // ----- scaling -----

  /** The factor from model coordinates to image coordinates. */
  function Factor(image: nat, model: real): real
    requires model > 0.0
  {
    image as real / model
  }

  lemma ProductMonotone(a: real, b: real, f: real)
    requires a <= b && f >= 0.0
    ensures a * f <= b * f
  {
  }

  lemma FactorTimesModel(image: nat, model: real)
    requires model > 0.0
    ensures Factor(image, model) >= 0.0 && model * Factor(image, model) == image as real
  {
  }

  /** Along one axis: a box inside the model's range decodes, truncations included, to one inside the image. */
  lemma AxisInside(centre: real, extent: real, model: real, image: nat)
    requires model > 0.0 && extent >= 0.0
    requires centre - 0.5 * extent >= 0.0 && centre + 0.5 * extent <= model
    ensures var f := Factor(image, model);
            var from, length := Truncate((centre - 0.5 * extent) * f), Truncate(extent * f);
            0 <= from && 0 <= length && from + length <= image
  {
    hide Factor;
    var f := Factor(image, model);
    FactorTimesModel(image, model);
    var low := centre - 0.5 * extent;
    ProductMonotone(0.0, low, f);
    ProductMonotone(0.0, extent, f);
    ProductMonotone(centre + 0.5 * extent, model, f);
    assert low * f + extent * f == (centre + 0.5 * extent) * f by {
      Distribute(low, extent, f);
    }
    FloorsAdd(low * f, extent * f, image);
  }

  lemma Distribute(a: real, b: real, f: real)
    ensures a * f + b * f == (a + b) * f
  {
  }

  lemma FloorsAdd(a: real, b: real, n: nat)
    requires a >= 0.0 && b >= 0.0 && a + b <= n as real
    ensures 0 <= Truncate(a) && 0 <= Truncate(b) && Truncate(a) + Truncate(b) <= n
  {
    assert Truncate(a) as real <= a && Truncate(b) as real <= b;
    assert (Truncate(a) + Truncate(b)) as real <= n as real;
  }

  /** A rectangle lies inside an image. */
  predicate Inside(box: Rect, cols: nat, rows: nat) {
    && 0 <= box.x && 0 <= box.width && box.x + box.width <= cols
    && 0 <= box.y && 0 <= box.height && box.y + box.height <= rows
  }

  /** Any network box inside the model's square decodes to a rectangle inside the image handed to the network. */
  lemma BoxInside(x: real, y: real, w: real, h: real, modelWidth: real, modelHeight: real, cols: nat, rows: nat)
    requires modelWidth > 0.0 && modelHeight > 0.0 && w >= 0.0 && h >= 0.0
    requires x - 0.5 * w >= 0.0 && x + 0.5 * w <= modelWidth
    requires y - 0.5 * h >= 0.0 && y + 0.5 * h <= modelHeight
    ensures Inside(ScaledBox(x, y, w, h, Factor(cols, modelWidth), Factor(rows, modelHeight)), cols, rows)
  {
    AxisInside(x, w, modelWidth, cols);
    AxisInside(y, h, modelHeight, rows);
  }

  /** With a square model the letterboxed image is scaled by one factor. */
  lemma FactorsAgree(square: array2<Pixel>, source: array2<Pixel>, width: real, height: real)
    requires IsLetterboxOf(square, source) && width == height > 0.0
    ensures Factor(square.Length1, width) == Factor(square.Length0, height)
  {
  }

  /** With a square model any network box inside it decodes, scaled by that one factor, to a rectangle
      inside the letterboxed image. */
  lemma BoxInsideSquare(square: array2<Pixel>, source: array2<Pixel>, x: real, y: real, w: real, h: real, side: real)
    requires IsLetterboxOf(square, source) && side > 0.0 && w >= 0.0 && h >= 0.0
    requires x - 0.5 * w >= 0.0 && x + 0.5 * w <= side && y - 0.5 * h >= 0.0 && y + 0.5 * h <= side
    ensures var factor := Factor(square.Length0, side);
            && Factor(square.Length1, side) == factor
            && Inside(ScaledBox(x, y, w, h, factor, factor), square.Length1, square.Length0)
  {
    hide Truncate;
    FactorsAgree(square, source, side, side);
    BoxInside(x, y, w, h, side, side, square.Length1, square.Length0);
  }
}
