/** src/smartem/stage_model.py: converting between stage coordinates
    (physical positions on the grid) and pixel positions in an image whose
    centre pixel sits at a known stage position. */
module StageModel {
  import opened Common

  /** Python's `int(r)` on a float: truncation toward zero. */
  function Trunc(r: real): (t: int)
    ensures 0.0 <= r ==> t as real <= r < t as real + 1.0
    ensures r < 0.0 ==> t as real - 1.0 < r <= t as real
  {
    if r >= 0.0 then r.Floor else -((-r).Floor)
  }

  /** Truncation is symmetric about zero, unlike flooring. */
  lemma TruncOdd(r: real)
    ensures Trunc(-r) == -Trunc(r)
  {
  }

  /** Python's `a // b` for b > 0; Dafny's `/` rounds down there too. */
  function FloorDiv(a: int, b: int): (q: int)
    requires b > 0
    ensures q * b <= a < q * b + b
  {
    a / b
  }

  /** The pixel offset along one axis: `factor * int((centre - inner) / spacing)`. */
  function Offset(inner: real, centre: real, spacing: real, factor: int): int
    requires spacing != 0.0
  {
    factor * Trunc((centre - inner) / spacing)
  }

  /** `find_point_pixel(inner_pos, outer_centre, outer_spacing, outer_size,
      xfactor, yfactor)`: the pixel of stage position `inner` in an image of
      `size` pixels, `spacing` stage units per pixel, centred on stage
      position `centre`. A zero spacing raises ZeroDivisionError. */
  function FindPointPixel(inner: (real, real), centre: (real, real), spacing: real, size: (int, int),
                          xfactor: int, yfactor: int): (r: Result<(int, int)>)
    ensures r.Err? <==> spacing == 0.0
    ensures r.Err? ==> r.error == ZeroDivisionError
  {
    if spacing == 0.0 then Err(ZeroDivisionError)
    else
      Ok((FloorDiv(size.0, 2) + Offset(inner.0, centre.0, spacing, xfactor),
          FloorDiv(size.1, 2) + Offset(inner.1, centre.1, spacing, yfactor)))
  }

  /** `stage_position(pix_pos, spacing, physical_centre, image_size)`: the
      stage position of a pixel. */
  function StagePosition(pix: (int, int), spacing: real, centre: (real, real), size: (int, int)): (real, real)
  {
    (centre.0 + (pix.0 - FloorDiv(size.0, 2)) as real * spacing,
     centre.1 + (pix.1 - FloorDiv(size.1, 2)) as real * spacing)
  }

  /** The image centre is its centre pixel, `(size_x // 2, size_y // 2)`. */
  lemma CentreToCentrePixel(centre: (real, real), spacing: real, size: (int, int), xfactor: int, yfactor: int)
    requires spacing != 0.0
    ensures FindPointPixel(centre, centre, spacing, size, xfactor, yfactor) == Ok((FloorDiv(size.0, 2), FloorDiv(size.1, 2)))
  {
    assert (centre.0 - centre.0) / spacing == 0.0;
    assert (centre.1 - centre.1) / spacing == 0.0;
  }

  /** For every image size, the centre pixel `size // 2` is a pixel of the
      image; an odd size leaves as many pixels after it as before it, an
      even size one fewer after; a negative size floors away from zero as
      Python's `//` does. */
  lemma CentrePixelFloors(n: int)
    ensures n > 0 ==> 0 <= FloorDiv(n, 2) < n
    ensures n > 0 && n % 2 == 1 ==> n - 1 - FloorDiv(n, 2) == FloorDiv(n, 2)
    ensures n > 0 && n % 2 == 0 ==> n - 1 - FloorDiv(n, 2) == FloorDiv(n, 2) - 1
    ensures n > 0 ==> FloorDiv(-n, 2) == -FloorDiv(n + 1, 2)
  {
  }

  /** Each axis moves by the factor times the whole number of pixels the
      stage offset spans, rounded toward zero. */
  lemma {:induction false} OffsetTruncates(inner: real, centre: real, spacing: real, factor: int)
    requires spacing != 0.0
    requires factor == 1 || factor == -1
    ensures var d := (centre - inner) / spacing;
      var k := Offset(inner, centre, spacing, factor) * factor;
      && (0.0 <= d ==> 0 <= k && k as real <= d < k as real + 1.0)
      && (d < 0.0 ==> k <= 0 && k as real - 1.0 < d <= k as real)
  {
    var d := (centre - inner) / spacing;
    assert Offset(inner, centre, spacing, factor) * factor == Trunc(d) * (factor * factor);
  }

  /** Negating `xfactor` mirrors the x pixel about the centre pixel and
      leaves y alone. */
  lemma MirrorX(inner: (real, real), centre: (real, real), spacing: real, size: (int, int), xfactor: int, yfactor: int)
    requires spacing != 0.0
    ensures var a := FindPointPixel(inner, centre, spacing, size, xfactor, yfactor).value;
      var b := FindPointPixel(inner, centre, spacing, size, -xfactor, yfactor).value;
      b.0 == 2 * FloorDiv(size.0, 2) - a.0 && b.1 == a.1
  {
  }

  /** The x pixel depends only on x inputs and the y pixel only on y inputs. */
  lemma Separable(inner: (real, real), centre: (real, real), inner': (real, real), centre': (real, real), spacing: real,
                  size: (int, int), size': (int, int), xfactor: int, yfactor: int)
    requires spacing != 0.0
    ensures inner.0 == inner'.0 && centre.0 == centre'.0 && size.0 == size'.0 ==>
      FindPointPixel(inner, centre, spacing, size, xfactor, yfactor).value.0 ==
      FindPointPixel(inner', centre', spacing, size', xfactor, yfactor).value.0
    ensures inner.1 == inner'.1 && centre.1 == centre'.1 && size.1 == size'.1 ==>
      FindPointPixel(inner, centre, spacing, size, xfactor, yfactor).value.1 ==
      FindPointPixel(inner', centre', spacing, size', xfactor, yfactor).value.1
  {
  }

  /** The centre pixel lies at the physical centre. */
  lemma CentrePixelToCentre(spacing: real, centre: (real, real), size: (int, int))
    ensures StagePosition((FloorDiv(size.0, 2), FloorDiv(size.1, 2)), spacing, centre, size) == centre
  {
    var back := StagePosition((FloorDiv(size.0, 2), FloorDiv(size.1, 2)), spacing, centre, size);
    assert back.0 == centre.0 + 0.0 * spacing;
    assert back.1 == centre.1 + 0.0 * spacing;
    assert back == (back.0, back.1);
  }

  /** One pixel along an axis is `spacing` along that axis and nothing along
      the other. */
  lemma StagePositionAffine(pix: (int, int), spacing: real, centre: (real, real), size: (int, int))
    ensures StagePosition((pix.0 + 1, pix.1), spacing, centre, size).0 == StagePosition(pix, spacing, centre, size).0 + spacing
    ensures StagePosition((pix.0 + 1, pix.1), spacing, centre, size).1 == StagePosition(pix, spacing, centre, size).1
    ensures StagePosition((pix.0, pix.1 + 1), spacing, centre, size).1 == StagePosition(pix, spacing, centre, size).1 + spacing
    ensures StagePosition((pix.0, pix.1 + 1), spacing, centre, size).0 == StagePosition(pix, spacing, centre, size).0
  {
  }

  /** With both factors -1, `stage_position` undoes `find_point_pixel` to
      within one pixel's spacing on each axis. */
  lemma {:induction false} StageRoundTrip(inner: (real, real), centre: (real, real), spacing: real, size: (int, int))
    requires spacing != 0.0
    ensures var back := StagePosition(FindPointPixel(inner, centre, spacing, size, -1, -1).value, spacing, centre, size);
      && WithinSpacing(back.0, inner.0, spacing) && WithinSpacing(back.1, inner.1, spacing)
  {
    var pix := FindPointPixel(inner, centre, spacing, size, -1, -1).value;
    assert pix == (FloorDiv(size.0, 2) + Offset(inner.0, centre.0, spacing, -1), FloorDiv(size.1, 2) + Offset(inner.1, centre.1, spacing, -1));
    AxisRoundTrip(inner.0, centre.0, spacing, size.0);
    AxisRoundTrip(inner.1, centre.1, spacing, size.1);
  }

  /** a lies less than |spacing| from b. */
  predicate WithinSpacing(a: real, b: real, spacing: real)
  {
    -Abs(spacing) < a - b < Abs(spacing)
  }

  function Abs(r: real): real
  {
    if r < 0.0 then -r else r
  }

  lemma {:induction false} AxisRoundTrip(inner: real, centre: real, spacing: real, size: int)
    requires spacing != 0.0
    ensures var p := FloorDiv(size, 2) + Offset(inner, centre, spacing, -1);
      WithinSpacing(centre + (p - FloorDiv(size, 2)) as real * spacing, inner, spacing)
  {
    var d := (centre - inner) / spacing;
    var t := Trunc(d);
    var p := FloorDiv(size, 2) + Offset(inner, centre, spacing, -1);
    assert (p - FloorDiv(size, 2)) as real == -(t as real);
    DivTimes(centre - inner, spacing);
    Regroup(centre, inner, d, t as real, spacing);
    ScaledBelow(d - t as real, spacing);
  }

  /** Dividing by a nonzero spacing and multiplying back is the identity. */
  lemma DivTimes(a: real, s: real)
    requires s != 0.0
    ensures (a / s) * s == a
  {
  }

  lemma Regroup(centre: real, inner: real, d: real, t: real, s: real)
    requires d * s == centre - inner
    ensures centre + (-t) * s - inner == (d - t) * s
  {
  }

  /** A fraction strictly between -1 and 1 of s lies strictly within |s|. */
  lemma ScaledBelow(e: real, s: real)
    requires -1.0 < e < 1.0
    requires s != 0.0
    ensures -Abs(s) < e * s < Abs(s)
  {
    if s > 0.0 {
      assert e * s < 1.0 * s;
      assert -1.0 * s < e * s;
    } else {
      assert e * s < (-1.0) * s;
      assert 1.0 * s < e * s;
    }
  }
}
