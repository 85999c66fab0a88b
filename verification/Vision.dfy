/**
 internal/providers/openaiformat/vision.go and internal/gateway/metering.go: token estimates for images.
 Reading the dimensions from an image URL is a parameter; it gives positive numbers.
 */
module Vision {
  const ANTHROPIC_MAX_DIM := 1568
  const ANTHROPIC_TOKENS_PER_TILE := 765
  const ANTHROPIC_BASE_TOKENS := 65
  const TILE_SIZE := 512
  const OPENAI_MAX_DIM := 2048
  const OPENAI_SHORT_SIDE := 768
  const OPENAI_TOKENS_PER_TILE := 170
  const OPENAI_BASE_TOKENS := 85
  const OPENAI_LOW_DETAIL := 85

  type Pixels = n: int | n > 0 witness 1

  /** Width and height; scaling can bring a side to 0. */
  datatype Size = Size(width: nat, height: nat)

  function Flip(s: Size): Size { Size(s.height, s.width) }

  function Long(s: Size): nat { if s.width >= s.height then s.width else s.height }

  function Short(s: Size): nat { if s.width >= s.height then s.height else s.width }

  // ---------------------------------------------------------------------
  // Scaling

  /** A side that is scaled by m / by, rounded down. */
  function Scale(side: nat, m: nat, unit: Pixels): nat {
    side * m / unit
  }

  lemma {:induction false} ScaleRange(side: nat, m: nat, unit: Pixels)
    requires side <= unit
    ensures Scale(side, m, unit) <= m
    ensures Scale(side, m, unit) >= 1 <==> side * m >= unit
  {
    assert side * m <= unit * m;
    AtMostFactor(side * m, unit, m);
    if side * m >= unit { AtLeastOne(side * m, unit); }
  }

  lemma {:induction false} AtMostFactor(a: nat, b: Pixels, m: nat)
    requires a <= b * m
    ensures a / b <= m
  {
    assert (a / b) * b <= m * b;
    Cancel(a / b, m, b);
  }

  lemma {:induction false} Cancel(q: nat, m: nat, b: Pixels)
    requires q * b <= m * b
    ensures q <= m
  {
  }

  lemma {:induction false} AtLeastFactor(a: nat, b: Pixels, m: nat)
    requires a >= m * b
    ensures a / b >= m
  {
    var q := a / b;
    if q < m {
      assert a < (q + 1) * b;
      Ordered(q + 1, m, b);
    }
  }

  lemma {:induction false} AtLeastOne(a: nat, b: Pixels)
    requires a >= b
    ensures a / b >= 1
  {
  }

  function AnthropicResize(s: Size): Size {
    if s.width <= ANTHROPIC_MAX_DIM && s.height <= ANTHROPIC_MAX_DIM then s
    else if s.width >= s.height then Size(ANTHROPIC_MAX_DIM, Scale(s.height, ANTHROPIC_MAX_DIM, s.width))
    else Size(Scale(s.width, ANTHROPIC_MAX_DIM, s.height), ANTHROPIC_MAX_DIM)
  }

  /** The first step of `openAIResize`: fit into the square of 2048. */
  function FitSquare(s: Size): Size {
    if s.width <= OPENAI_MAX_DIM && s.height <= OPENAI_MAX_DIM then s
    else if s.width >= s.height then Size(OPENAI_MAX_DIM, Scale(s.height, OPENAI_MAX_DIM, s.width))
    else Size(Scale(s.width, OPENAI_MAX_DIM, s.height), OPENAI_MAX_DIM)
  }

  /** The second step: bring the shorter side down to 768. */
  function FitShort(s: Size): Size {
    if Short(s) <= OPENAI_SHORT_SIDE then s
    else if s.width <= s.height then Size(OPENAI_SHORT_SIDE, Scale(s.height, OPENAI_SHORT_SIDE, s.width))
    else Size(Scale(s.width, OPENAI_SHORT_SIDE, s.height), OPENAI_SHORT_SIDE)
  }

  method OpenAIResize(width: Pixels, height: Pixels) returns (w: nat, h: nat)
    ensures Size(w, h) == FitShort(FitSquare(Size(width, height)))
  {
    w, h := width, height;
    if w > OPENAI_MAX_DIM || h > OPENAI_MAX_DIM {
      if w >= h {
        h := Scale(h, OPENAI_MAX_DIM, w);
        w := OPENAI_MAX_DIM;
      } else {
        w := Scale(w, OPENAI_MAX_DIM, h);
        h := OPENAI_MAX_DIM;
      }
    }
    if w <= h {
      if w > OPENAI_SHORT_SIDE {
        h := Scale(h, OPENAI_SHORT_SIDE, w);
        w := OPENAI_SHORT_SIDE;
      }
    } else {
      if h > OPENAI_SHORT_SIDE {
        w := Scale(w, OPENAI_SHORT_SIDE, h);
        h := OPENAI_SHORT_SIDE;
      }
    }
  }

  function OpenAIResized(s: Size): Size {
    FitShort(FitSquare(s))
  }

  /** What fits is left alone, and the rest comes to fit, with the longer side at the bound. */
  lemma {:induction false} AnthropicFits(s: Size)
    requires Short(s) >= 1
    ensures var r := AnthropicResize(s);
      && Long(r) <= ANTHROPIC_MAX_DIM && (Long(s) > ANTHROPIC_MAX_DIM ==> Long(r) == ANTHROPIC_MAX_DIM)
      && (Short(r) >= 1 <==> Long(s) <= ANTHROPIC_MAX_DIM * Short(s))
  {
    if Long(s) > ANTHROPIC_MAX_DIM { ScaleRange(Short(s), ANTHROPIC_MAX_DIM, Long(s)); }
  }

  lemma {:induction false} SquareFits(s: Size)
    requires Short(s) >= 1
    ensures var r := FitSquare(s);
      && Long(r) <= OPENAI_MAX_DIM && Long(r) >= 1
      && (Short(r) >= 1 <==> Long(s) <= OPENAI_MAX_DIM * Short(s))
  {
    if Long(s) > OPENAI_MAX_DIM { ScaleRange(Short(s), OPENAI_MAX_DIM, Long(s)); }
  }

  /** Cutting the shorter side to 768 keeps the longer one at least there, and never enlarges it. */
  lemma {:induction false} ShortFits(s: Size)
    requires 1 <= Long(s) <= OPENAI_MAX_DIM
    ensures var r := FitShort(s);
      && Short(r) <= OPENAI_SHORT_SIDE && Long(r) <= OPENAI_MAX_DIM
      && (Short(r) >= 1 <==> Short(s) >= 1)
      && (Short(s) > OPENAI_SHORT_SIDE ==> Short(r) == OPENAI_SHORT_SIDE)
  {
    var short, long := Short(s), Long(s);
    if short > OPENAI_SHORT_SIDE {
      Shrinks(long, OPENAI_SHORT_SIDE, short);
    }
  }

  lemma {:induction false} Shrinks(side: nat, m: nat, unit: Pixels)
    requires m <= unit <= side
    ensures m <= Scale(side, m, unit) <= side
  {
    Ordered(m, unit, side);
    AtMostFactor(side * m, unit, side);
    Ordered(unit, side, m);
    AtLeastFactor(side * m, unit, m);
  }

  lemma {:induction false} Ordered(a: nat, b: nat, x: nat)
    requires a <= b
    ensures a * x <= b * x && x * a <= x * b
  {
  }

  /** Resizing a second time changes nothing. */
  lemma {:induction false} ResizesAreIdempotent(s: Size)
    requires Short(s) >= 1
    ensures AnthropicResize(AnthropicResize(s)) == AnthropicResize(s)
    ensures OpenAIResized(OpenAIResized(s)) == OpenAIResized(s)
  {
    AnthropicFits(s);
    SquareFits(s);
    ShortFits(FitSquare(s));
  }

  /** Turning the image turns the result. */
  lemma {:induction false} ResizesFlip(s: Size)
    requires Short(s) >= 1
    ensures AnthropicResize(Flip(s)) == Flip(AnthropicResize(s))
    ensures OpenAIResized(Flip(s)) == Flip(OpenAIResized(s))
  {
    if s.width == s.height && s.width > ANTHROPIC_MAX_DIM { SquareScales(s.width, ANTHROPIC_MAX_DIM); }
    if s.width == s.height && s.width > OPENAI_MAX_DIM { SquareScales(s.width, OPENAI_MAX_DIM); }
    SquareFlips(s);
    var t := FitSquare(s);
    if t.width == t.height && t.width > OPENAI_SHORT_SIDE { SquareScales(t.width, OPENAI_SHORT_SIDE); }
  }

  lemma {:induction false} SquareFlips(s: Size)
    requires Short(s) >= 1
    ensures FitSquare(Flip(s)) == Flip(FitSquare(s))
  {
    if s.width == s.height && s.width > OPENAI_MAX_DIM { SquareScales(s.width, OPENAI_MAX_DIM); }
  }

  lemma {:induction false} SquareScales(side: Pixels, m: nat)
    ensures Scale(side, m, side) == m
  {
    AtMostFactor(side * m, side, m);
    AtLeastFactor(side * m, side, m);
  }

  // ---------------------------------------------------------------------
  // Tokens

  function Tiles(side: nat): nat {
    (side + TILE_SIZE - 1) / TILE_SIZE
  }

  function AnthropicTileTokens(s: Size): nat {
    var r := AnthropicResize(s);
    Tiles(r.width) * Tiles(r.height) * ANTHROPIC_TOKENS_PER_TILE + ANTHROPIC_BASE_TOKENS
  }

  function OpenAITileTokens(s: Size): nat {
    var r := OpenAIResized(s);
    Tiles(r.width) * Tiles(r.height) * OPENAI_TOKENS_PER_TILE + OPENAI_BASE_TOKENS
  }

  lemma {:induction false} TilesRange(side: nat, n: nat)
    requires side <= n * TILE_SIZE
    ensures Tiles(side) <= n && (Tiles(side) >= 1 <==> side >= 1)
  {
  }

  lemma {:induction false} ProductRange(a: nat, b: nat, m: nat, n: nat)
    requires a <= m && b <= n
    ensures a * b <= m * n && (a * b >= 1 <==> a >= 1 && b >= 1)
  {
    Ordered(a, m, b);
    Ordered(b, n, m);
    if a >= 1 { Ordered(1, a, b); }
  }

  /**
   An image costs 65 to 12305 tokens, turned or not. It costs a tile at least exactly when its longer side
   is no more than 1568 times the shorter one.
   */
  lemma {:induction false} AnthropicTokensRange(s: Size)
    requires Short(s) >= 1
    ensures AnthropicTileTokens(s) == AnthropicTileTokens(Flip(s))
    ensures 65 <= AnthropicTileTokens(s) <= 12305
    ensures AnthropicTileTokens(s) >= 830 <==> Long(s) <= 1568 * Short(s)
  {
    var r := AnthropicResize(s);
    AnthropicFits(s);
    ResizesFlip(s);
    TilesRange(r.width, 4);
    TilesRange(r.height, 4);
    ProductRange(Tiles(r.width), Tiles(r.height), 4, 4);
    ProductFlips(Tiles(r.width), Tiles(r.height));
  }

  lemma {:induction false} ProductFlips(a: nat, b: nat)
    ensures a * b == b * a
  {
  }

  /** The same for OpenAI: 85 to 1445 tokens, and a tile at least up to a ratio of 2048. */
  lemma {:induction false} OpenAITokensRange(s: Size)
    requires Short(s) >= 1
    ensures OpenAITileTokens(s) == OpenAITileTokens(Flip(s))
    ensures 85 <= OpenAITileTokens(s) <= 1445
    ensures OpenAITileTokens(s) >= 255 <==> Long(s) <= 2048 * Short(s)
  {
    var r := OpenAIResized(s);
    SquareFits(s);
    ShortFits(FitSquare(s));
    ResizesFlip(s);
    var long, short := Tiles(Long(r)), Tiles(Short(r));
    TilesRange(Long(r), 4);
    TilesRange(Short(r), 2);
    ProductRange(long, short, 4, 2);
    ProductFlips(long, short);
  }

  /** Both ends of both ranges are met. */
  lemma {:induction false} RangesAreTight()
    ensures AnthropicTileTokens(Size(1569, 1)) == 65 && AnthropicTileTokens(Size(1568, 1568)) == 12305
    ensures OpenAITileTokens(Size(2049, 1)) == 85 && OpenAITileTokens(Size(2048, 768)) == 1445
  {
  }

  // ---------------------------------------------------------------------
  // A request's images

  datatype Family = Anthropic | OpenAI | OtherFamily

  datatype Image = Image(url: string, low: bool)

  datatype Dimensions = Dimensions(width: Pixels, height: Pixels)

  function TokensOf(family: Family, image: Image, dims: string -> Dimensions): nat {
    var d := dims(image.url);
    match family
    case Anthropic => AnthropicTileTokens(Size(d.width, d.height))
    case OpenAI => if image.low then OPENAI_LOW_DETAIL else OpenAITileTokens(Size(d.width, d.height))
    case OtherFamily => 0
  }

  /** A side in tiles of 512, the last one begun counting in full. */
  lemma {:induction false} TilesInFull(side: nat)
    ensures 512 * Tiles(side) >= side && (Tiles(side) > 0 ==> 512 * (Tiles(side) - 1) < side)
  {
  }

  /** An image that needs no scaling, by its own sides: every tile of it, and the base. */
  lemma {:induction false} UnscaledInFull(image: Image, dims: string -> Dimensions)
    ensures var w, h := dims(image.url).width, dims(image.url).height;
      && (w <= 1568 && h <= 1568 ==> TokensOf(Anthropic, image, dims) == 765 * (Tiles(w) * Tiles(h)) + 65)
      && (w <= 2048 && h <= 2048 && (w <= 768 || h <= 768) && !image.low ==>
            TokensOf(OpenAI, image, dims) == 170 * (Tiles(w) * Tiles(h)) + 85)
    ensures image.low ==> TokensOf(OpenAI, image, dims) == 85
    ensures TokensOf(Anthropic, image, dims) == TokensOf(Anthropic, image.(low := !image.low), dims)
    ensures TokensOf(OtherFamily, image, dims) == 0
  {
  }

  /** A side scaled to m per unit is the exact length rounded down. */
  lemma {:induction false} ScaleInFull(side: nat, m: nat, unit: Pixels)
    ensures Scale(side, m, unit) * unit <= side * m < (Scale(side, m, unit) + 1) * unit
  {
    var q := Scale(side, m, unit);
    assert side * m == q * unit + (side * m) % unit;
    OneMore(q, unit);
  }

  /** What a wide image is scaled to; a high one turns it round. */
  lemma {:induction false} ScaledInFull(s: Size)
    requires s.width >= s.height >= 1
    ensures s.width > 1568 ==> AnthropicResize(s) == Size(1568, Scale(s.height, 1568, s.width))
    ensures s.width <= 1568 ==> AnthropicResize(s) == s
    ensures var fit := if s.width > 2048 then Size(2048, Scale(s.height, 2048, s.width)) else s;
      && (fit.height <= 768 ==> OpenAIResized(s) == fit)
      && (fit.height > 768 ==>
            && OpenAIResized(s).height == 768
            && OpenAIResized(s).width == Scale(fit.width, 768, fit.height))
  {
    var fit := FitSquare(s);
    if s.width > 2048 { ScaleRange(s.height, 2048, s.width); }
    if fit.width == fit.height && fit.height > 768 { SquareScales(fit.width, 768); }
  }

  function SumTokens(family: Family, images: seq<Image>, dims: string -> Dimensions): nat {
    if images == [] then 0
    else SumTokens(family, images[..|images| - 1], dims) + TokensOf(family, images[|images| - 1], dims)
  }

  method AnthropicImageTokens(images: seq<Image>, dims: string -> Dimensions) returns (total: nat)
    ensures total == SumTokens(Anthropic, images, dims)
  {
    total := 0;
    for i := 0 to |images|
      invariant total == SumTokens(Anthropic, images[..i], dims)
    {
      var d := dims(images[i].url);
      assert images[..i + 1][..i] == images[..i];
      total := total + AnthropicTileTokens(Size(d.width, d.height));
    }
    assert images[..|images|] == images;
  }

  method OpenAIImageTokens(images: seq<Image>, dims: string -> Dimensions) returns (total: nat)
    ensures total == SumTokens(OpenAI, images, dims)
  {
    total := 0;
    for i := 0 to |images|
      invariant total == SumTokens(OpenAI, images[..i], dims)
    {
      assert images[..i + 1][..i] == images[..i];
      if images[i].low {
        total := total + OPENAI_LOW_DETAIL;
        continue;
      }
      var d := dims(images[i].url);
      total := total + OpenAITileTokens(Size(d.width, d.height));
    }
    assert images[..|images|] == images;
  }

  method EstimateVisionTokens(family: Family, images: seq<Image>, dims: string -> Dimensions) returns (tokens: nat)
    ensures tokens == SumTokens(family, images, dims)
  {
    if |images| == 0 { return 0; }
    match family
    case Anthropic => tokens := AnthropicImageTokens(images, dims);
    case OpenAI => tokens := OpenAIImageTokens(images, dims);
    case OtherFamily =>
      NoTokens(images, dims);
      return 0;
  }

  /** The images of a request are counted one by one. */
  lemma {:induction false} SumInFull(family: Family, images: seq<Image>, image: Image, dims: string -> Dimensions)
    ensures SumTokens(family, [], dims) == 0
    ensures SumTokens(family, images + [image], dims) == SumTokens(family, images, dims) + TokensOf(family, image, dims)
  {
    assert (images + [image])[..|images|] == images;
  }

  lemma {:induction false} NoTokens(images: seq<Image>, dims: string -> Dimensions)
    ensures SumTokens(OtherFamily, images, dims) == 0
  {
    if images != [] { NoTokens(images[..|images| - 1], dims); }
  }

  function LeastTokens(family: Family): nat {
    match family case Anthropic => 65 case OpenAI => 85 case OtherFamily => 0
  }

  function MostTokens(family: Family): nat {
    match family case Anthropic => 12305 case OpenAI => 1445 case OtherFamily => 0
  }

  lemma {:induction false} ImageRange(family: Family, image: Image, dims: string -> Dimensions)
    ensures LeastTokens(family) <= TokensOf(family, image, dims) <= MostTokens(family)
  {
    var d := dims(image.url);
    AnthropicTokensRange(Size(d.width, d.height));
    OpenAITokensRange(Size(d.width, d.height));
  }

  lemma {:induction false} OneMore(n: nat, x: nat)
    ensures (n + 1) * x == n * x + x
  {
  }

  /** So the correction of a missing prompt count applies exactly to requests with images for these two families. */
  lemma {:induction false} EstimateRange(family: Family, images: seq<Image>, dims: string -> Dimensions)
    ensures |images| * LeastTokens(family) <= SumTokens(family, images, dims) <= |images| * MostTokens(family)
    ensures SumTokens(family, images, dims) > 0 <==> images != [] && !family.OtherFamily?
  {
    if images != [] {
      var n := |images| - 1;
      EstimateRange(family, images[..n], dims);
      ImageRange(family, images[n], dims);
      OneMore(n, LeastTokens(family));
      OneMore(n, MostTokens(family));
    }
  }
}
