/**
 * A bitmap font: a texture cut into a grid of equal glyph cells,
 * `charactersPerLine` to a row, glyph `c` in cell number `c`. All of it is
 * integer arithmetic with the C# operators, which truncate toward zero and
 * throw on a zero divisor. Text is a sequence of UTF-16 code units.
 */
module Fonts {
  import opened Algebra
  import opened Outcomes
  import opened Gl

  /** A UTF-16 code unit, the C# `char`. */
  type CodeUnit = c: int | 0 <= c < 0x1_0000

  /** C# integer division: the quotient truncated toward zero. */
  function CsDiv(a: int, b: int): (q: int)
    requires b != 0
    ensures a >= 0 && b > 0 ==> q == a / b
    ensures a >= 0 && b < 0 ==> q == -(a / -b)
  {
    var q := (if a < 0 then -a else a) / (if b < 0 then -b else b);
    if (a < 0) != (b < 0) then -q else q
  }

  /** C# remainder: it has the sign of the dividend. */
  function CsRem(a: int, b: int): (r: int)
    requires b != 0
    ensures a >= 0 && b > 0 ==> r == a % b
    ensures a == CsDiv(a, b) * b + r
  {
    a - CsDiv(a, b) * b
  }

  /** The remainder is smaller than the divisor in size, and never negative for a non-negative dividend. */
  lemma CsRemBounds(a: int, b: int)
    requires b != 0
    ensures a >= 0 ==> 0 <= CsRem(a, b) < (if b < 0 then -b else b)
    ensures a <= 0 ==> -(if b < 0 then -b else b) < CsRem(a, b) <= 0
  {
  }

  datatype Font2D = Font2D(
    charWidth: int,
    charHeight: int,
    charPerLine: int,
    lineCount: int,
    source: Texture)

  datatype FontError = DivideByZero

  /** The "not given" value of an explicit glyph size. */
  const Unset := -1

  /**
   * `new Font2D(texture, charactersPerLine, lineCount, charWidth, charHeight)`:
   * the explicit glyph size when both parts are given, otherwise the texture
   * size divided by the grid size, which throws on a zero grid dimension.
   */
  function NewFont(source: Texture, charactersPerLine: int, lineCount: int, charWidth: int, charHeight: int): (r: Result<Font2D, FontError>)
    ensures r.Failure? <==> (charWidth == Unset || charHeight == Unset) && (charactersPerLine == 0 || lineCount == 0)
    ensures r.Success? ==> r.value.charPerLine == charactersPerLine && r.value.lineCount == lineCount && r.value.source == source
    ensures r.Success? && charWidth != Unset && charHeight != Unset ==>
      r.value.charWidth == charWidth && r.value.charHeight == charHeight
    ensures r.Success? && (charWidth == Unset || charHeight == Unset) && charactersPerLine > 0 && lineCount > 0 ==>
      && r.value.charWidth == source.width / charactersPerLine
      && r.value.charHeight == source.height / lineCount
      && r.value.charWidth * charactersPerLine <= source.width
      && r.value.charHeight * lineCount <= source.height
    ensures r.Success? && (charWidth == Unset || charHeight == Unset) ==>
      && r.value.charWidth == CsDiv(source.width, charactersPerLine)
      && r.value.charHeight == CsDiv(source.height, lineCount)
      && (charactersPerLine < 0 ==> r.value.charWidth == -(source.width / -charactersPerLine) <= 0)
      && (lineCount < 0 ==> r.value.charHeight == -(source.height / -lineCount) <= 0)
  {
    if charWidth != Unset && charHeight != Unset then
      Success(Font2D(charWidth, charHeight, charactersPerLine, lineCount, source))
    else if charactersPerLine == 0 || lineCount == 0 then
      Failure(DivideByZero)
    else
      Success(Font2D(CsDiv(source.width, charactersPerLine), CsDiv(source.height, lineCount),
                     charactersPerLine, lineCount, source))
  }

  /** `CharacterBound`: the cell of a glyph, counted row by row. */
  function CharacterBound(f: Font2D, c: CodeUnit): (r: Result<Rectangle, FontError>)
    ensures r.Failure? <==> f.charPerLine == 0
    ensures r.Success? ==> r.value.width == f.charWidth && r.value.height == f.charHeight
    ensures r.Success? && f.charPerLine > 0 ==>
      && r.value.x == (c % f.charPerLine) * f.charWidth
      && r.value.y == (c / f.charPerLine) * f.charHeight
    ensures r.Success? ==>
      && r.value.x == CsRem(c, f.charPerLine) * f.charWidth
      && r.value.y == CsDiv(c, f.charPerLine) * f.charHeight
    ensures r.Success? && f.charPerLine < 0 ==>
      && r.value.x == (c % -f.charPerLine) * f.charWidth
      && r.value.y == -(c / -f.charPerLine) * f.charHeight
  {
    if f.charPerLine == 0 then Failure(DivideByZero)
    else Success(Rectangle(CsRem(c, f.charPerLine) * f.charWidth, CsDiv(c, f.charPerLine) * f.charHeight,
                           f.charWidth, f.charHeight))
  }

  /** Products keep the order of their first factors. */
  lemma MulMonotone(a: int, b: int, n: int)
    requires a <= b && n >= 0
    ensures a * n <= b * n
  {
    assert b * n - a * n == (b - a) * n;
  }

  /** A quotient and remainder in range are the quotient and remainder. */
  lemma DivModUnique(x: int, n: int, q: int, r: int)
    requires n > 0 && 0 <= r < n && x == q * n + r
    ensures x / n == q && x % n == r
  {
    var q', r' := x / n, x % n;
    assert (q - q') * n == r' - r;
    if q - q' >= 1 {
      MulMonotone(1, q - q', n);
    } else if q' - q >= 1 {
      MulMonotone(1, q' - q, n);
    }
  }

  /** The next code in the same row lies one glyph width to the right. */
  lemma NextInRowIsOneWidthRight(f: Font2D, c: CodeUnit)
    requires f.charPerLine > 0 && c + 1 < 0x1_0000 && (c + 1) % f.charPerLine != 0
    ensures var a := CharacterBound(f, c).value;
      var b := CharacterBound(f, c + 1).value;
      b.x == a.x + f.charWidth && b.y == a.y
  {
    var n := f.charPerLine;
    var q, r := c / n, c % n;
    if r + 1 == n {
      DivModUnique(c + 1, n, q + 1, 0);
    } else {
      DivModUnique(c + 1, n, q, r + 1);
      assert (r + 1) * f.charWidth == r * f.charWidth + f.charWidth;
    }
  }

  /** The code one row further on lies one glyph height below, in the same column. */
  lemma NextRowIsOneHeightDown(f: Font2D, c: CodeUnit)
    requires f.charPerLine > 0 && c + f.charPerLine < 0x1_0000
    ensures var a := CharacterBound(f, c).value;
      var b := CharacterBound(f, c + f.charPerLine).value;
      b.x == a.x && b.y == a.y + f.charHeight
  {
    var n := f.charPerLine;
    DivModUnique(c + n, n, c / n + 1, c % n);
    assert (c / n + 1) * f.charHeight == c / n * f.charHeight + f.charHeight;
  }

  /**
   * The line count is never consulted: a code past the last cell of the
   * grid still gets a cell, lying at or below the bottom edge of the grid.
   */
  lemma CodesPastTheGridFallBelowIt(f: Font2D, c: CodeUnit)
    requires f.charPerLine > 0 && f.lineCount >= 0 && f.charHeight >= 0
    requires c >= f.charPerLine * f.lineCount
    ensures CharacterBound(f, c).Success?
    ensures CharacterBound(f, c).value.y >= f.lineCount * f.charHeight
  {
    var n := f.charPerLine;
    if c / n < f.lineCount {
      MulMonotone(c / n + 1, f.lineCount, n);
    }
    MulMonotone(f.lineCount, c / n, f.charHeight);
  }

  /** `MeasureString`: one glyph width per code unit. */
  method MeasureString(f: Font2D, text: seq<CodeUnit>) returns (size: int)
    ensures size == |text| * f.charWidth
  {
    size := 0;
    var k := 0;
    while k < |text|
      invariant 0 <= k <= |text|
      invariant size == k * f.charWidth
    {
      size := size + f.charWidth;
      k := k + 1;
    }
  }

  /** One glyph `Write` draws: the cell it clips to and where the sprite is placed. */
  datatype Glyph = Glyph(clip: Rectangle, position: Vec2)

  /** Where the k-th glyph of a line written at `start` is placed. */
  function GlyphPosition(f: Font2D, start: Vec2, k: nat): (p: Vec2)
    ensures p.y == start.y
    ensures p.x == start.x + (k * f.charWidth) as real
  {
    Vec2(start.x + (k as real) * (f.charWidth as real), start.y + 0.0)
  }

  /** The glyphs `Write` draws, in order; a font with no cells per line fails on the first one. */
  function Layout(f: Font2D, start: Vec2, text: seq<CodeUnit>): (r: Result<seq<Glyph>, FontError>)
    ensures r.Failure? <==> f.charPerLine == 0 && |text| > 0
    ensures r.Success? ==> |r.value| == |text|
    ensures r.Success? ==> forall k :: 0 <= k < |text| ==>
      && r.value[k].clip == CharacterBound(f, text[k]).value
      && r.value[k].position == GlyphPosition(f, start, k)
  {
    if |text| == 0 then Success([])
    else if f.charPerLine == 0 then Failure(DivideByZero)
    else Success(seq(|text|, k requires 0 <= k < |text| => Glyph(CharacterBound(f, text[k]).value, GlyphPosition(f, start, k))))
  }

  /** The measured width of a text is the offset just past its last glyph. */
  method MeasureMatchesLayout(f: Font2D, start: Vec2, text: seq<CodeUnit>) returns (glyphs: seq<Glyph>, size: int)
    requires f.charPerLine != 0 && |text| > 0
    ensures |glyphs| == |text|
    ensures glyphs[|glyphs| - 1].position.x + f.charWidth as real == start.x + size as real
    ensures glyphs[0].position == Vec2(start.x, start.y)
  {
    glyphs := Layout(f, start, text).value;
    size := MeasureString(f, text);
    var last := |text| - 1;
    assert (last * f.charWidth) + f.charWidth == |text| * f.charWidth;
  }
}
