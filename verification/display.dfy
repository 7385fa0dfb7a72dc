/**
 * The frame the firmware draws on the OLED display, as the list of driver
 * calls it makes: clear, the border, the joystick square, push.
 *
 * The C code scales the 12-bit reading with floating point; here the scaling
 * is exact `real` arithmetic followed by the C cast to `int` (truncation
 * toward zero).
 */
module Display {
  import opened FixedWidth
  import opened ControlState

  /**
   * One driver call. `Rect` carries the four geometric arguments of the
   * rectangle call in call order, then the colour and the fill flag.
   */
  datatype DrawCmd =
    | Clear(color: bool)
    | Rect(first: int, second: int, width: int, height: int, color: bool, fill: bool)
    | Push

  /** The border drawn when `border_type` is true. */
  const SingleBorder: DrawCmd := Rect(0, 0, 127, 60, true, false)
  /** The two nested rectangles drawn when `border_type` is false. */
  const OuterBorder: DrawCmd := Rect(3, 3, 120, 60, true, false)
  const InnerBorder: DrawCmd := Rect(6, 6, 115, 55, true, false)

  /** Side of the filled square that marks the joystick position. */
  const SquareSide: int := 8

  /** The C cast `(int)` of a floating value: truncation toward zero. */
  function CastToInt(v: real): (t: int)
    ensures 0.0 <= v ==> 0 <= t && t as real <= v < t as real + 1.0
    ensures v < 0.0 ==> t <= 0 && v <= t as real < v + 1.0
  {
    if v >= 0.0 then v.Floor else -((-v).Floor)
  }

  /** Horizontal screen position before correction: `x / 4080 * 119`. */
  function ScaledX(x: u16): real {
    x as real / 4080.0 * 119.0
  }

  /** Vertical screen position before correction: `y / 4080 * 55`. */
  function ScaledY(y: u16): real {
    y as real / 4080.0 * 55.0
  }

  /**
   * The boundary correction: a position at or below `threshold` moves 8
   * pixels inwards. With a threshold of at least 8, a non-negative position
   * ends at 8 or beyond, so the square clears the border.
   */
  function Correct(p: real, threshold: real): (q: real)
    ensures q == p || q == p + 8.0
    ensures q == p + 8.0 <==> p <= threshold
    ensures 0.0 <= p && 8.0 <= threshold ==> 8.0 <= q
  {
    if p <= threshold then p + 8.0 else p
  }

  /** Column argument of the square: corrected X position, threshold 8. */
  function SquareCol(x: u16): (c: int)
    ensures 8 <= c
    ensures x <= AdcMax ==> c <= 119
  {
    CastToInt(Correct(ScaledX(x), 8.0))
  }

  /** Row argument of the square: corrected Y position, threshold 9. */
  function SquareRow(y: u16): (r: int)
    ensures 8 <= r
    ensures y <= AdcMax ==> r <= 55
  {
    CastToInt(Correct(ScaledY(y), 9.0))
  }

  /**
   * The column in integer arithmetic: 119/4080 reduces to 7/240, so the
   * correction fires when 7x <= 8 * 240 and then adds 8 * 240 before dividing.
   */
  function PixelCol(x: nat): nat {
    if 7 * x <= 1920 then (7 * x + 1920) / 240 else 7 * x / 240
  }

  /** The row in integer arithmetic: 55/4080 reduces to 11/816; threshold 9 is 7344/816, 8 is 6528/816. */
  function PixelRow(y: nat): nat {
    if 11 * y <= 7344 then (11 * y + 6528) / 816 else 11 * y / 816
  }

  /** The square's column is the integer reference for every reading. */
  lemma SquareColExact(x: u16)
    ensures SquareCol(x) == PixelCol(x)
  {
  }

  /** The square's row is the integer reference for every reading. */
  lemma SquareRowExact(y: u16)
    ensures SquareRow(y) == PixelRow(y)
  {
  }

  function Border(borderType: bool): seq<DrawCmd> {
    if borderType then [SingleBorder] else [OuterBorder, InnerBorder]
  }

  /** The filled square marking `sample`, row (from Y) before column (from X). */
  function Square(sample: Sample): DrawCmd {
    Rect(SquareRow(sample.y), SquareCol(sample.x), SquareSide, SquareSide, true, true)
  }

  /**
   * The whole frame for a reading and a border style: it starts with a
   * clear and ends with a push; between them come the outline rectangles of
   * the chosen border and then exactly one filled 8x8 square, whose first
   * coordinate comes from Y and second from X.
   */
  function Frame(sample: Sample, borderType: bool): (f: seq<DrawCmd>)
    ensures |f| == if borderType then 4 else 5
    ensures f[0] == Clear(false) && f[|f| - 1] == Push
    ensures borderType ==> f[1] == SingleBorder
    ensures !borderType ==> f[1] == OuterBorder && f[2] == InnerBorder
    ensures forall i :: 0 < i < |f| - 2 ==> f[i].Rect? && !f[i].fill
    ensures f[|f| - 2].Rect? && f[|f| - 2].fill && f[|f| - 2].color
    ensures f[|f| - 2].width == SquareSide && f[|f| - 2].height == SquareSide
    ensures f[|f| - 2].first == SquareRow(sample.y) && f[|f| - 2].second == SquareCol(sample.x)
  {
    [Clear(false)] + Border(borderType) + [Square(sample), Push]
  }

  /** Exactly one command of a frame is a filled rectangle. */
  lemma {:induction false} FrameHasOneFilledRect(sample: Sample, borderType: bool, i: nat)
    requires i < |Frame(sample, borderType)|
    ensures Frame(sample, borderType)[i].Rect? && Frame(sample, borderType)[i].fill
        <==> i == |Frame(sample, borderType)| - 2
  {
  }

  /**
   * For a 12-bit reading the square covers rows 8 to 63 at most and
   * columns 8 to 127 at most, clear of the outermost border line.
   */
  lemma SquareOnScreen(sample: Sample, borderType: bool)
    requires IsAdc12(sample)
    ensures var sq := Frame(sample, borderType)[|Frame(sample, borderType)| - 2];
      8 <= sq.first && sq.first + sq.height <= 64 && 8 <= sq.second && sq.second + sq.width <= 128
  {
  }

  /** The joystick at rest draws the square at row 26, column 55. */
  lemma RestPositionSquare()
    ensures SquareRow(DefaultVry) == 26 && SquareCol(DefaultVrx) == 55
  {
  }

  /** Full deflection draws the square at row 55, column 119. */
  lemma FullDeflectionSquare()
    ensures SquareRow(4095) == 55 && SquareCol(4095) == 119
  {
  }

  /** A reading near zero is pushed in by the correction on both axes. */
  lemma ZeroReadingSquare()
    ensures SquareRow(0) == 8 && SquareCol(0) == 8
  {
  }
}
