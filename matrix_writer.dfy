/**
 * The value types of the LED matrix interface: an RGB colour with its
 * packing into a 32-bit word, the matrix dimensions record, and the table
 * of GitHub contribution and notification colours.
 */
module MatrixWriter {

  /** C++ `int`: a 32-bit two's-complement integer. */
  newtype int32 = x: int | -0x8000_0000 <= x < 0x8000_0000

  /** An RGB colour with one `uint8_t` per channel. */
  datatype Color = Color(r: bv8, g: bv8, b: bv8)

  /** The default constructor `Color()`. */
  function DefaultColor(): (c: Color)
    ensures c.r == 0 && c.g == 0 && c.b == 0
  {
    Color(0, 0, 0)
  }

  /** `Color::to32bit`: red in bits 16-23, green in bits 8-15, blue in bits 0-7. */
  function To32Bit(c: Color): (x: bv32)
    ensures x < 0x100_0000
    ensures x >> 16 == c.r as bv32
    ensures (x >> 8) & 0xFF == c.g as bv32
    ensures x & 0xFF == c.b as bv32
  {
    ((c.r as bv32) << 16) | ((c.g as bv32) << 8) | (c.b as bv32)
  }

  /** `Color::from32bit`: the three low bytes of `x`, the top byte ignored. */
  function From32Bit(x: bv32): (c: Color)
    ensures To32Bit(c) == x & 0xFF_FFFF
  {
    Color(((x >> 16) & 0xFF) as bv8, ((x >> 8) & 0xFF) as bv8, (x & 0xFF) as bv8)
  }

  lemma DefaultColorPacksToZero()
    ensures To32Bit(DefaultColor()) == 0
  {
  }

  /** Unpacking a packed colour gives the colour back. */
  lemma ColorRoundTrip(c: Color)
    ensures From32Bit(To32Bit(c)) == c
  {
  }

  /** Distinct colours pack to distinct words. */
  lemma To32BitInjective(c: Color, d: Color)
    ensures To32Bit(c) == To32Bit(d) <==> c == d
  {
    ColorRoundTrip(c);
    ColorRoundTrip(d);
  }

  /** `from32bit` depends only on the low 24 bits of its argument. */
  lemma From32BitIgnoresTopByte(x: bv32)
    ensures From32Bit(x) == From32Bit(x & 0xFF_FFFF)
  {
  }

  /** Packing an unpacked word restores its low 24 bits. */
  lemma PackUnpacked(x: bv32)
    ensures To32Bit(From32Bit(x)) == x & 0xFF_FFFF
  {
  }

  /** `MatrixDimensions`: width, height and their pixel count. */
  datatype MatrixDimensions = MatrixDimensions(width: int32, height: int32, totalPixels: int32)

  /**
   * The constructor `MatrixDimensions(w, h)`. Signed overflow of `w * h` is
   * undefined behaviour in C++, so callers must keep the product in range.
   */
  function Dimensions(w: int32, h: int32): (d: MatrixDimensions)
    requires -0x8000_0000 <= w as int * h as int < 0x8000_0000
    ensures d.width == w && d.height == h
    ensures d.totalPixels as int == d.width as int * d.height as int
  {
    MatrixDimensions(w, h, w * h)
  }

  // The `GitHubColors` table.
  const Background := Color(22, 27, 34)
  const NoContrib := Color(22, 27, 34)
  const Level1 := Color(14, 68, 41)
  const Level2 := Color(0, 109, 50)
  const Level3 := Color(38, 166, 65)
  const Level4 := Color(57, 211, 83)
  const PrOpened := Color(33, 136, 255)
  const PrMerged := Color(40, 167, 69)
  const PrClosed := Color(220, 53, 69)
  const ReviewComment := Color(255, 193, 7)

  /** The contribution colours indexed by level, no contributions first. */
  const ContributionPalette: seq<Color> := [NoContrib, Level1, Level2, Level3, Level4]

  /** The notification colours: PR opened, merged, closed, review comment. */
  const NotificationPalette: seq<Color> := [PrOpened, PrMerged, PrClosed, ReviewComment]

  predicate PairwiseDistinct(colors: seq<Color>) {
    forall i, j :: 0 <= i < j < |colors| ==> colors[i] != colors[j]
  }

  lemma NoContribIsBackground()
    ensures NoContrib == Background
  {
  }

  lemma PalettesDistinct()
    ensures PairwiseDistinct(ContributionPalette)
    ensures PairwiseDistinct(NotificationPalette)
  {
  }

  /**
   * The contribution level of a day's count, following the buckets named in
   * the colour table's comments: 0, 1-3, 4-6, 7-9 and 10 or more.
   */
  function ContributionLevel(count: nat): (level: nat)
    ensures level < |ContributionPalette|
    ensures level == 0 <==> count == 0
    ensures level == 1 <==> 1 <= count <= 3
    ensures level == 2 <==> 4 <= count <= 6
    ensures level == 3 <==> 7 <= count <= 9
    ensures level == 4 <==> count >= 10
  {
    if count == 0 then 0 else if count >= 10 then 4 else (count - 1) / 3 + 1
  }

  /** The colour a day with `count` contributions is shown in. */
  function LevelColor(count: nat): Color {
    ContributionPalette[ContributionLevel(count)]
  }

  /** More contributions never give a lower level. */
  lemma LevelMonotonic(a: nat, b: nat)
    requires a <= b
    ensures ContributionLevel(a) <= ContributionLevel(b)
  {
  }

  /** Two counts share a colour exactly when they share a level. */
  lemma LevelColorFaithful(a: nat, b: nat)
    ensures LevelColor(a) == LevelColor(b) <==> ContributionLevel(a) == ContributionLevel(b)
  {
    PalettesDistinct();
  }

  /** A day without contributions is drawn in the background colour. */
  lemma NoContributionsIsBackground()
    ensures LevelColor(0) == Background
  {
  }
}
