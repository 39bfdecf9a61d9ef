/** The backlight arithmetic: from a colour to a brightness, and from a
    brightness to the range of the panel. All of it is uint32_t arithmetic. */
module Brightness {
  import opened Words

  type uint32 = n: nat | n < TWO_32

  function Wrap(n: int): uint32 {
    n % TWO_32
  }

  function Alpha(color: uint32): (a: uint32) ensures a < 256 { color / 0x100_0000 % 256 }
  function Red(color: uint32): (r: uint32) ensures r < 256 { color / 0x1_0000 % 256 }
  function Green(color: uint32): (g: uint32) ensures g < 256 { color / 0x100 % 256 }
  function Blue(color: uint32): (b: uint32) ensures b < 256 { color % 256 }

  /** One channel under the alpha channel. */
  function Scale(channel: uint32, alpha: uint32): uint32 {
    Wrap(channel * alpha) / 0xFF
  }

  /** The weighted sum of the three channels, over 256. */
  function Weigh(red: uint32, green: uint32, blue: uint32): uint32 {
    Wrap(Wrap(Wrap(77 * red) + Wrap(150 * green)) + Wrap(29 * blue)) / 256
  }

  function Blend(alpha: uint32, red: uint32, green: uint32, blue: uint32): uint32 {
    Weigh(Scale(red, alpha), Scale(green, alpha), Scale(blue, alpha))
  }

  function GetBrightness(color: uint32): uint32 {
    Blend(Alpha(color), Red(color), Green(color), Blue(color))
  }

  function ScaleBrightness(brightness: uint32, maxBrightness: uint32): uint32 {
    if brightness == 0 then 0
    else Wrap(Wrap(Wrap(brightness - 1) * Wrap(maxBrightness - 1)) / 0xFE + 1)
  }

  function GetScaledBrightness(color: uint32, maxBrightness: uint32): uint32 {
    ScaleBrightness(GetBrightness(color), maxBrightness)
  }

  function Argb(alpha: uint32, red: uint32, green: uint32, blue: uint32): uint32
    requires alpha < 256 && red < 256 && green < 256 && blue < 256
  {
    alpha * 0x100_0000 + red * 0x1_0000 + green * 0x100 + blue
  }

  // ------------------------------------------------------------------- blending

  lemma ProductBounds(x: nat, y: nat, u: nat, v: nat)
    requires x <= u && y <= v
    ensures x * y <= u * v
  {
    assert x * y <= u * y;
    assert u * y <= u * v;
  }

  lemma ScaleIsQuotient(channel: uint32, alpha: uint32)
    requires channel < 256 && alpha < 256
    ensures Scale(channel, alpha) == channel * alpha / 0xFF
  {
    hide Wrap;
    ProductBounds(channel, alpha, 255, 255);
    SmallDoesNotWrap(channel * alpha);
  }

  /** A channel under alpha does not wrap, and loses less than one to the division. */
  lemma ScaleBounds(channel: uint32, alpha: uint32)
    requires channel < 256 && alpha < 256
    ensures Scale(channel, alpha) == channel * alpha / 0xFF <= channel
    ensures 0xFF * Scale(channel, alpha) <= channel * alpha < 0xFF * (Scale(channel, alpha) + 1)
  {
    hide Scale;
    ScaleIsQuotient(channel, alpha);
    ProductBounds(channel, alpha, channel, 255);
    QuotientBounds(channel * alpha, channel);
  }

  lemma QuotientBounds(p: nat, c: nat)
    requires p <= c * 255
    ensures p / 0xFF <= c
    ensures 0xFF * (p / 0xFF) <= p < 0xFF * (p / 0xFF + 1)
  {}

  lemma ScaleMonotone(c: uint32, a: uint32, c': uint32, a': uint32)
    requires c <= c' < 256 && a <= a' < 256
    ensures Scale(c, a) <= Scale(c', a')
  {
    ScaleBounds(c, a);
    ScaleBounds(c', a');
    ProductBounds(c, a, c', a');
  }

  lemma SmallDoesNotWrap(n: nat)
    requires n < TWO_32
    ensures Wrap(n) == n
  {}

  lemma WeighIsExact(r: uint32, g: uint32, b: uint32)
    requires r < 256 && g < 256 && b < 256
    ensures Weigh(r, g, b) == (77 * r + 150 * g + 29 * b) / 256
  {
    SmallDoesNotWrap(77 * r);
    SmallDoesNotWrap(150 * g);
    SmallDoesNotWrap(29 * b);
    SmallDoesNotWrap(77 * r + 150 * g);
    SmallDoesNotWrap(77 * r + 150 * g + 29 * b);
  }

  lemma BlendIsWeighted(a: uint32, r: uint32, g: uint32, b: uint32)
    requires a < 256 && r < 256 && g < 256 && b < 256
    ensures Blend(a, r, g, b) == (77 * Scale(r, a) + 150 * Scale(g, a) + 29 * Scale(b, a)) / 256
  {
    ScaleBounds(r, a);
    ScaleBounds(g, a);
    ScaleBounds(b, a);
    WeighIsExact(Scale(r, a), Scale(g, a), Scale(b, a));
  }

  lemma ShiftedBack(q: nat, r: nat)
    ensures r < 0x100 ==> (q * 0x100 + r) / 0x100 == q
    ensures r < 0x1_0000 ==> (q * 0x1_0000 + r) / 0x1_0000 == q
    ensures r < 0x100_0000 ==> (q * 0x100_0000 + r) / 0x100_0000 == q
  {}

  lemma ByteOf(n: nat, low: nat)
    requires low < 0x100
    ensures (n * 0x100 + low) % 0x100 == low
  {}

  lemma ArgbParts(a: uint32, r: uint32, g: uint32, b: uint32)
    requires a < 256 && r < 256 && g < 256 && b < 256
    ensures Alpha(Argb(a, r, g, b)) == a && Red(Argb(a, r, g, b)) == r
    ensures Green(Argb(a, r, g, b)) == g && Blue(Argb(a, r, g, b)) == b
  {
    var c := Argb(a, r, g, b);
    ShiftedBack(a, r * 0x1_0000 + g * 0x100 + b);
    ShiftedBack(a * 0x100 + r, g * 0x100 + b);
    ShiftedBack((a * 0x100 + r) * 0x100 + g, b);
    ByteIsRest(a);
    ByteOf(a, r);
    ByteOf(a * 0x100 + r, g);
    ByteOf((a * 0x100 + r) * 0x100 + g, b);
  }

  lemma ByteIsRest(n: nat)
    requires n < 0x100
    ensures n % 0x100 == n
  {}

  /** The brightness of any colour lies between its darkest and its brightest
      alpha-scaled channel, and is at most alpha. */
  lemma BrightnessBetweenChannels(color: uint32)
    ensures var a, y := Alpha(color), GetBrightness(color);
            var r, g, b := Scale(Red(color), a), Scale(Green(color), a), Scale(Blue(color), a);
            && (r <= y || g <= y || b <= y) && (y <= r || y <= g || y <= b)
            && y <= a
  {
    var a := Alpha(color);
    BlendIsWeighted(a, Red(color), Green(color), Blue(color));
    ScaleMonotone(Red(color), a, 255, a);
    ScaleMonotone(Green(color), a, 255, a);
    ScaleMonotone(Blue(color), a, 255, a);
    ScaleBounds(255, a);
  }

  /** Raising any of alpha, red, green and blue never lowers the brightness. */
  lemma BrightnessMonotone(c: uint32, c': uint32)
    requires Alpha(c) <= Alpha(c') && Red(c) <= Red(c') && Green(c) <= Green(c') && Blue(c) <= Blue(c')
    ensures GetBrightness(c) <= GetBrightness(c')
  {
    BlendIsWeighted(Alpha(c), Red(c), Green(c), Blue(c));
    BlendIsWeighted(Alpha(c'), Red(c'), Green(c'), Blue(c'));
    ScaleMonotone(Red(c), Alpha(c), Red(c'), Alpha(c'));
    ScaleMonotone(Green(c), Alpha(c), Green(c'), Alpha(c'));
    ScaleMonotone(Blue(c), Alpha(c), Blue(c'), Alpha(c'));
  }

  /** An opaque grey is exactly as bright as its channels. */
  lemma OpaqueGrey(x: uint32)
    requires x < 256
    ensures GetBrightness(Argb(255, x, x, x)) == x
  {
    ArgbParts(255, x, x, x);
    ScaleOpaque(x);
    WeighIsExact(x, x, x);
  }

  lemma ScaleOpaque(channel: uint32)
    requires channel < 256
    ensures Scale(channel, 255) == channel
  {
    ScaleBounds(channel, 255);
  }

  /** The exact weighted value of a colour, times 255 * 256. */
  function ExactTimes65280(color: uint32): nat {
    (77 * Red(color) + 150 * Green(color) + 29 * Blue(color)) * Alpha(color)
  }

  lemma BlendError(a: uint32, r: uint32, g: uint32, b: uint32)
    requires a < 256 && r < 256 && g < 256 && b < 256
    ensures var exact := 77 * (r * a) + 150 * (g * a) + 29 * (b * a);
            65280 * Blend(a, r, g, b) <= exact < 65280 * (Blend(a, r, g, b) + 2)
  {
    BlendIsWeighted(a, r, g, b);
    ScaleBounds(r, a);
    ScaleBounds(g, a);
    ScaleBounds(b, a);
    SumError(Scale(r, a), Scale(g, a), Scale(b, a), r * a, g * a, b * a);
  }

  lemma WeighedProducts(r: nat, g: nat, b: nat, a: nat)
    ensures (77 * r + 150 * g + 29 * b) * a == 77 * (r * a) + 150 * (g * a) + 29 * (b * a)
  {
    assert (77 * r) * a == 77 * (r * a) && (150 * g) * a == 150 * (g * a) && (29 * b) * a == 29 * (b * a);
    assert (77 * r + 150 * g + 29 * b) * a == (77 * r) * a + (150 * g) * a + (29 * b) * a;
  }

  lemma SumError(x: nat, y: nat, z: nat, u: nat, v: nat, w: nat)
    requires 255 * x <= u < 255 * (x + 1) && 255 * y <= v < 255 * (y + 1) && 255 * z <= w < 255 * (z + 1)
    ensures var sum := (77 * x + 150 * y + 29 * z) / 256;
            65280 * sum <= 77 * u + 150 * v + 29 * w < 65280 * (sum + 2)
  {}

  lemma ChannelError(a: uint32, r: uint32, g: uint32, b: uint32)
    requires a < 256 && r < 256 && g < 256 && b < 256
    ensures var exact := (77 * r + 150 * g + 29 * b) * a;
            65280 * Blend(a, r, g, b) <= exact < 65280 * (Blend(a, r, g, b) + 2)
  {
    hide Blend;
    BlendError(a, r, g, b);
    WeighedProducts(r, g, b, a);
  }

  /** The integer divisions lose less than two in all, and never gain. */
  lemma BrightnessError(color: uint32)
    ensures 65280 * GetBrightness(color) <= ExactTimes65280(color) < 65280 * (GetBrightness(color) + 2)
  {
    hide Blend;
    hide Alpha;
    hide Red;
    hide Green;
    hide Blue;
    ChannelError(Alpha(color), Red(color), Green(color), Blue(color));
  }

  // -------------------------------------------------------------------- scaling

  /** The largest panel range for which the product does not wrap. */
  const LARGEST_RANGE: uint32 := 16909321

  lemma ScalingDoesNotWrap(brightness: uint32, maxBrightness: uint32)
    requires 1 <= brightness <= 255 && 1 <= maxBrightness <= LARGEST_RANGE
    ensures ScaleBrightness(brightness, maxBrightness) == (brightness - 1) * (maxBrightness - 1) / 0xFE + 1
  {
    var product := (brightness - 1) * (maxBrightness - 1);
    ProductBounds(brightness - 1, maxBrightness - 1, 254, 16909320);
    SmallDoesNotWrap(brightness - 1);
    SmallDoesNotWrap(maxBrightness - 1);
    SmallDoesNotWrap(product);
    SmallDoesNotWrap(product / 0xFE + 1);
  }

  /** The product under the division. */
  function Product(brightness: uint32, maxBrightness: uint32): nat
    requires brightness >= 1 && maxBrightness >= 1
  {
    (brightness - 1) * (maxBrightness - 1)
  }

  lemma ScalingDivides(brightness: uint32, maxBrightness: uint32)
    requires 1 <= brightness <= 255 && 1 <= maxBrightness <= LARGEST_RANGE
    ensures ScaleBrightness(brightness, maxBrightness) == Product(brightness, maxBrightness) / 0xFE + 1
    ensures Product(brightness, maxBrightness) <= 254 * (maxBrightness - 1)
  {
    ScalingDoesNotWrap(brightness, maxBrightness);
    ProductBounds(brightness - 1, maxBrightness - 1, 254, maxBrightness - 1);
  }

  /** Full brightness is the top of the range exactly when the range is not
      empty and its product does not wrap. */
  lemma FullBrightnessExactly(maxBrightness: uint32)
    ensures ScaleBrightness(255, maxBrightness) == maxBrightness <==> 1 <= maxBrightness <= LARGEST_RANGE
  {
    if 1 <= maxBrightness <= LARGEST_RANGE {
      ScalingDoesNotWrap(255, maxBrightness);
    } else {
      QuotientOfWord(Wrap(Wrap(254) * Wrap(maxBrightness - 1)));
      hide Wrap;
    }
  }

  lemma QuotientAtMost(p: nat, k: nat)
    requires p <= 254 * k
    ensures p / 0xFE <= k
  {}

  /** Wrapped or not, a scaled value is at most the largest range. */
  lemma QuotientOfWord(w: uint32)
    ensures 1 <= Wrap(w / 0xFE + 1) <= LARGEST_RANGE
  {
    SmallDoesNotWrap(w / 0xFE + 1);
  }

  lemma LitIsPositive(y: uint32, m: uint32)
    requires 1 <= y
    ensures 1 <= ScaleBrightness(y, m) <= LARGEST_RANGE
  {
    QuotientOfWord(Wrap(Wrap(y - 1) * Wrap(m - 1)));
    hide Wrap;
  }

  lemma LitStaysInRange(y: uint32, m: uint32)
    requires 1 <= y <= 255 && 1 <= m
    ensures 1 <= ScaleBrightness(y, m) <= m
  {
    hide ScaleBrightness;
    hide Product;
    LitIsPositive(y, m);
    if m <= LARGEST_RANGE {
      ScalingDivides(y, m);
      QuotientAtMost(Product(y, m), m - 1);
    }
  }

  /** A lit panel is given a value in its range exactly when the range is not
      empty, however large it is; the darkest lit value is always 1. */
  lemma ScalingStaysInRange(maxBrightness: uint32)
    ensures (forall y: uint32 :: 1 <= y <= 255 ==> 1 <= ScaleBrightness(y, maxBrightness) <= maxBrightness) <==>
            maxBrightness >= 1
    ensures ScaleBrightness(0, maxBrightness) == 0 && ScaleBrightness(1, maxBrightness) == 1
  {
    if maxBrightness >= 1 {
      forall y: uint32 | 1 <= y <= 255
        ensures 1 <= ScaleBrightness(y, maxBrightness) <= maxBrightness
      {
        LitStaysInRange(y, maxBrightness);
      }
    } else {
      assert ScaleBrightness(1, maxBrightness) == 1;
    }
  }

  /** Scaling keeps the order of brightnesses and of ranges. */
  lemma ScalingMonotone(y: uint32, m: uint32, y': uint32, m': uint32)
    requires y <= y' <= 255 && 1 <= m <= m' <= LARGEST_RANGE
    ensures ScaleBrightness(y, m) <= ScaleBrightness(y', m')
  {
    if y > 0 {
      ScalingDoesNotWrap(y, m);
      ScalingDoesNotWrap(y', m');
      ProductBounds(y - 1, m - 1, y' - 1, m' - 1);
    }
  }

  lemma QuotientGrows(p: nat, q: nat)
    requires p + 254 <= q
    ensures p / 0xFE < q / 0xFE
  {}

  lemma ProductsGrow(y: uint32, y': uint32, m: uint32)
    requires 1 <= y < y' && m >= 255
    ensures Product(y, m) + 254 <= Product(y', m)
  {
    ProductBounds(y, m - 1, y' - 1, m - 1);
    assert y * (m - 1) == (y - 1) * (m - 1) + (m - 1);
  }

  lemma ScalingStrict(y: uint32, y': uint32, m: uint32)
    requires y < y' <= 255 <= m <= LARGEST_RANGE
    ensures ScaleBrightness(y, m) < ScaleBrightness(y', m)
  {
    if y == 0 {
      LitIsPositive(y', m);
    } else {
      hide ScaleBrightness;
      hide Product;
      ScalingDivides(y, m);
      ScalingDivides(y', m);
      ProductsGrow(y, y', m);
      QuotientGrows(Product(y, m), Product(y', m));
    }
  }

  /** On a range of at least 255 different brightnesses stay different; on any
      smaller range two of them coincide. */
  lemma ScalingStrictExactly(m: uint32)
    requires 1 <= m <= LARGEST_RANGE
    ensures (forall y: uint32, y': uint32 :: y < y' <= 255 ==> ScaleBrightness(y, m) < ScaleBrightness(y', m)) <==>
            m >= 255
  {
    hide ScaleBrightness;
    if m >= 255 {
      forall y: uint32, y': uint32 | y < y' <= 255
        ensures ScaleBrightness(y, m) < ScaleBrightness(y', m)
      {
        ScalingStrict(y, y', m);
      }
    } else {
      ScalingDoesNotWrap(1, m);
      ScalingDoesNotWrap(2, m);
    }
  }

  /** From colour to panel: raising a channel or the range never dims the panel,
      a lit value stays in range, and opaque white is the top of the range. */
  lemma PanelBrightness(c: uint32, m: uint32, c': uint32, m': uint32)
    requires 1 <= m <= m' <= LARGEST_RANGE
    ensures Alpha(c) <= Alpha(c') && Red(c) <= Red(c') && Green(c) <= Green(c') && Blue(c) <= Blue(c') ==>
              GetScaledBrightness(c, m) <= GetScaledBrightness(c', m')
    ensures GetScaledBrightness(c, m) <= m
    ensures GetScaledBrightness(c, m) == 0 <==> GetBrightness(c) == 0
    ensures GetScaledBrightness(Argb(255, 255, 255, 255), m) == m
  {
    BrightnessBetweenChannels(c);
    BrightnessBetweenChannels(c');
    if Alpha(c) <= Alpha(c') && Red(c) <= Red(c') && Green(c) <= Green(c') && Blue(c) <= Blue(c') {
      BrightnessMonotone(c, c');
      ScalingMonotone(GetBrightness(c), m, GetBrightness(c'), m');
    }
    ScalingStaysInRange(m);
    OpaqueGrey(255);
    FullBrightnessExactly(m);
  }

  // ---------------------------------------------------------- the values, exactly

  /** The channels of a colour, and that a colour has no other part. */
  lemma ChannelsExactly(color: uint32)
    ensures Argb(Alpha(color), Red(color), Green(color), Blue(color)) == color
  {
    var n1 := color / 0x100;
    var n2 := n1 / 0x100;
    var n3 := n2 / 0x100;
    var b, g, r := color % 0x100, n1 % 0x100, n2 % 0x100;
    assert color == n1 * 0x100 + b && n1 == n2 * 0x100 + g && n2 == n3 * 0x100 + r;
    ShiftedBack(n2, g * 0x100 + b);
    ShiftedBack(n3, r * 0x1_0000 + g * 0x100 + b);
    assert n3 < 0x100;
    ByteIsRest(n3);
  }

  /** The weighted brightness in plain arithmetic. */
  function Weighted(a: nat, r: nat, g: nat, b: nat): nat {
    (77 * Share(r, a) + 150 * Share(g, a) + 29 * Share(b, a)) / 256
  }

  function Share(channel: nat, alpha: nat): nat {
    channel * alpha / 255
  }

  /** The brightness of a colour: no intermediate result wraps. */
  lemma BrightnessExactly(a: uint32, r: uint32, g: uint32, b: uint32)
    requires a < 256 && r < 256 && g < 256 && b < 256
    ensures GetBrightness(Argb(a, r, g, b)) == Weighted(a, r, g, b) <= 255
  {
    ArgbParts(a, r, g, b);
    BlendIsWeighted(a, r, g, b);
    BrightnessBetweenChannels(Argb(a, r, g, b));
    ScaleIsQuotient(r, a);
    ScaleIsQuotient(g, a);
    ScaleIsQuotient(b, a);
    hide Blend;
    hide Scale;
    hide Argb;
  }

  /** The scaled value for every brightness and every maximum, where 0 counts as
      2^32 and products wrap. */
  lemma ScalesExactly(brightness: uint32, maxBrightness: uint32)
    requires 1 <= brightness <= 255
    ensures ScaleBrightness(0, maxBrightness) == 0
    ensures var steps := if maxBrightness == 0 then 0xFFFF_FFFF else maxBrightness - 1;
            ScaleBrightness(brightness, maxBrightness) == (brightness - 1) * steps % 0x1_0000_0000 / 254 + 1
  {
    var steps := if maxBrightness == 0 then 0xFFFF_FFFF else maxBrightness - 1;
    assert Wrap(maxBrightness - 1) == steps && Wrap(brightness - 1) == brightness - 1;
    QuotientOfWord(Wrap((brightness - 1) * steps));
    SmallDoesNotWrap(Wrap((brightness - 1) * steps) / 0xFE + 1);
  }

  lemma ScaledInRange(y: uint32, m: uint32)
    requires y <= 255 && 1 <= m <= LARGEST_RANGE
    ensures ScaleBrightness(y, m) == if y == 0 then 0 else (y - 1) * (m - 1) / 254 + 1
  {
    if y > 0 {
      ScalingDoesNotWrap(y, m);
    }
  }

  /** What the panel is told for a colour, as one formula. */
  lemma PanelExactly(a: uint32, r: uint32, g: uint32, b: uint32, m: uint32)
    requires a < 256 && r < 256 && g < 256 && b < 256 && 1 <= m <= LARGEST_RANGE
    ensures var y := Weighted(a, r, g, b);
            GetScaledBrightness(Argb(a, r, g, b), m) == if y == 0 then 0 else (y - 1) * (m - 1) / 254 + 1
  {
    hide GetBrightness;
    hide ScaleBrightness;
    hide Weighted;
    hide Argb;
    BrightnessExactly(a, r, g, b);
    ScaledInRange(GetBrightness(Argb(a, r, g, b)), m);
  }
}
