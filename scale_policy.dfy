/** The resolution policy of convertPdfToImage: the first page is rendered at
    the largest scale, at most 4, that keeps its longest side within 2048
    raster units. */
module ScalePolicy {
  import opened JsNumber

  /** MAX_DIMENSION: the longest output edge, in raster units. */
  const MaxDimension: real := 2048.0
  /** The largest upscaling factor ever applied. */
  const MaxUpscale: real := 4.0

  /** The page geometry pdf.js reports for `getViewport({ scale })`. */
  datatype Viewport = Viewport(width: Number, height: Number, scale: real)

  /** `autoScale = Math.min(4, MAX_DIMENSION / maxSide)`. */
  function AutoScale(maxSide: Number): Number
  {
    Min(Finite(MaxUpscale), DivPositive(MaxDimension, maxSide))
  }

  /** `autoScale > 0 ? autoScale : 1`, with `maxSide` the larger of the page's
      width and height at scale 1. Whatever the page reports (zero, negative,
      infinite or NaN sides), the scale is a finite number in (0, 4]. */
  function ChooseScale(baseWidth: Number, baseHeight: Number): (r: Number)
    ensures r.Finite? && 0.0 < r.value <= MaxUpscale
  {
    var auto := AutoScale(Max(baseWidth, baseHeight));
    if Greater(auto, Finite(0.0)) then auto else Finite(1.0)
  }

  /** A side length at scale 1 multiplied by a positive finite scale. */
  function ScaleSide(side: Number, scale: real): (r: Number)
    requires scale > 0.0
    ensures side.Finite? <==> r.Finite?
    ensures side.Finite? ==> r.value == side.value * scale
  {
    match side
    case Finite(x) => Finite(x * scale)
    case _ => side
  }

  /** `page.getViewport({ scale })`: the base size times a positive scale. */
  function ScaledViewport(baseWidth: Number, baseHeight: Number, scale: real): (v: Viewport)
    requires scale > 0.0
    ensures v.scale == scale
    ensures baseWidth.Finite? ==> v.width.Finite? && v.width.value == baseWidth.value * scale
    ensures baseHeight.Finite? ==> v.height.Finite? && v.height.value == baseHeight.value * scale
  {
    Viewport(ScaleSide(baseWidth, scale), ScaleSide(baseHeight, scale), scale)
  }

  /** The viewport the first page is rendered at. */
  function RenderViewport(baseWidth: Number, baseHeight: Number): Viewport
  {
    ScaledViewport(baseWidth, baseHeight, ChooseScale(baseWidth, baseHeight).value)
  }

  /** For a page whose longest side m is positive and finite, the scale times m
      never exceeds 2048; it equals 2048 once m is at least 512, and the scale
      is the full 4 when m is at most 512. */
  lemma ScaleFitsLongestSide(baseWidth: Number, baseHeight: Number)
    requires Max(baseWidth, baseHeight).Finite? && Max(baseWidth, baseHeight).value > 0.0
    ensures var m := Max(baseWidth, baseHeight).value;
            var s := ChooseScale(baseWidth, baseHeight).value;
            s * m <= MaxDimension
            && (m >= 512.0 ==> s * m == MaxDimension)
            && (m <= 512.0 ==> s == MaxUpscale)
  {
    var m := Max(baseWidth, baseHeight).value;
    var q := MaxDimension / m;
    QuotientAgainstUpscale(m);
    assert AutoScale(Finite(m)) == Min(Finite(MaxUpscale), Finite(q));
    if q <= MaxUpscale {
      assert ChooseScale(baseWidth, baseHeight) == Finite(q);
    } else {
      assert ChooseScale(baseWidth, baseHeight) == Finite(MaxUpscale);
    }
  }

  /** 2048 / m against the upscale cap, for a positive m. */
  lemma QuotientAgainstUpscale(m: real)
    requires m > 0.0
    ensures (MaxDimension / m) * m == MaxDimension
    ensures m >= 512.0 ==> MaxDimension / m <= MaxUpscale
    ensures m < 512.0 ==> MaxDimension / m > MaxUpscale && MaxUpscale * m < MaxDimension
    ensures m == 512.0 ==> MaxDimension / m == MaxUpscale
  {
    var q := MaxDimension / m;
    assert q * m == MaxDimension;
    if m >= 512.0 {
      assert q * m <= MaxUpscale * m;
      CancelPositiveFactorAtMost(q, MaxUpscale, m);
    } else {
      assert MaxUpscale * m < q * m;
      CancelPositiveFactor(MaxUpscale, q, m);
    }
  }

  /** Ordering of products with a common positive factor. */
  lemma CancelPositiveFactor(a: real, b: real, c: real)
    requires c > 0.0 && a * c < b * c
    ensures a < b
  {
  }

  lemma CancelPositiveFactorAtMost(a: real, b: real, c: real)
    requires c > 0.0 && a * c <= b * c
    ensures a <= b
  {
  }

  /** Multiplying by a positive factor keeps the order. */
  lemma MonotoneProduct(a: real, b: real, c: real)
    requires a <= b && c > 0.0
    ensures a * c <= b * c
  {
  }

  /** Sides of a page whose longest side is not positive stay non-positive
      under any positive scale. */
  lemma NonPositiveSidesFit(w: real, h: real, s: real)
    requires w <= 0.0 && h <= 0.0 && s > 0.0
    ensures w * s <= MaxDimension && h * s <= MaxDimension
  {
    MonotoneProduct(w, 0.0, s);
    MonotoneProduct(h, 0.0, s);
  }

  /** Sides no longer than m, scaled by s with s·m ≤ 2048, stay within 2048. */
  lemma ScaledSidesFit(w: real, h: real, m: real, s: real)
    requires w <= m && h <= m && s > 0.0 && s * m <= MaxDimension
    ensures w * s <= MaxDimension && h * s <= MaxDimension
  {
    MonotoneProduct(w, m, s);
    MonotoneProduct(h, m, s);
  }

  /** A page whose longest side is zero gets 2048 / 0 = Infinity, hence the
      full upscale 4; a page with a NaN, negative or infinite longest side
      falls back to scale 1. */
  lemma DegenerateScale(baseWidth: Number, baseHeight: Number)
    ensures Max(baseWidth, baseHeight) == Finite(0.0) ==>
              ChooseScale(baseWidth, baseHeight) == Finite(MaxUpscale)
    ensures (Max(baseWidth, baseHeight).NaN? || Max(baseWidth, baseHeight).PosInf?
             || Max(baseWidth, baseHeight).NegInf?
             || (Max(baseWidth, baseHeight).Finite? && Max(baseWidth, baseHeight).value < 0.0)) ==>
              ChooseScale(baseWidth, baseHeight) == Finite(1.0)
  {
    var m := Max(baseWidth, baseHeight);
    if m.Finite? && m.value < 0.0 {
      assert MaxDimension / m.value < 0.0;
    }
  }

  /** For every page with finite sides, the rendered viewport's sides are at
      most 2048. */
  lemma ViewportWithinMaxDimension(w: real, h: real)
    ensures var v := RenderViewport(Finite(w), Finite(h));
            v.width.Finite? && v.height.Finite?
            && v.width.value <= MaxDimension && v.height.value <= MaxDimension
  {
    var m := if h > w then h else w;
    assert Max(Finite(w), Finite(h)) == Finite(m);
    var s := ChooseScale(Finite(w), Finite(h)).value;
    if m > 0.0 {
      ScaleFitsLongestSide(Finite(w), Finite(h));
      ScaledSidesFit(w, h, m, s);
    } else {
      NonPositiveSidesFit(w, h, s);
    }
    SidesFitViewport(w, h, s);
  }

  /** Scaled sides within 2048 give a viewport within 2048. */
  lemma SidesFitViewport(w: real, h: real, s: real)
    requires s > 0.0 && w * s <= MaxDimension && h * s <= MaxDimension
    ensures var v := ScaledViewport(Finite(w), Finite(h), s);
            v.width.Finite? && v.height.Finite?
            && v.width.value <= MaxDimension && v.height.value <= MaxDimension
  {
  }
}
