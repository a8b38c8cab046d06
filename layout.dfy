/** The pure layout arithmetic of src/c/app/ui.c: the rectangle of each time
    period's bubble, the rectangle of its score label, and the line-count
    rule that picks between the one- and two-line label rectangles. The
    `PBL_ROUND` compile-time branch is a runtime `Screen` value here. */
module Layout {
  import opened IntTypes
  import opened CInt
  import opened Data

  /** src/c/app/ui.h */
  const Padding: int := 6
  const RegionBubbleHeight: int := 20
  const ScoreBubbleHeight: int := 34
  const TimeBubbleHeight: int := 62

  /** A `GRect`: origin and size, every field an `int16_t`. */
  datatype Rect = Rect(x: int16, y: int16, w: int16, h: int16)

  /** The screen-shape class the app is built for. On round screens the
      layout scales two constants with the platform's `PLATFORM_SCALE`
      macro, whose definition is not part of this model: `scale` stands for it. */
  datatype Screen = Rectangular | Round(scale: int -> int)

  function MakeRect(x: int, y: int, w: int, h: int): Rect {
    Rect(Wrap16(x), Wrap16(y), Wrap16(w), Wrap16(h))
  }

  /** The bubble height: TIME_BUBBLE_HEIGHT, or PLATFORM_SCALE(57) on round screens. */
  function BubbleHeight(screen: Screen): int16 {
    match screen
    case Rectangular => TimeBubbleHeight as int16
    case Round(scale) => Wrap16(scale(57))
  }

  /** The y coordinate of the morning bubble: below the region band. */
  const BaseY: int := Padding * 2 + RegionBubbleHeight

  /** calculate_bubble_rect: the morning bubble starts below the region band on
      either screen; on rectangular screens the bubble is PADDING in from each side
      and TIME_BUBBLE_HEIGHT high, the afternoon one PADDING below the morning one. */
  function BubbleRect(time: TimePeriod, bounds: Rect, screen: Screen): (r: Rect)
    ensures time == Morning ==> r.y as int == BaseY
    ensures screen.Rectangular? ==>
      && r.x as int == Padding && r.h as int == TimeBubbleHeight
      && (time == Afternoon ==> r.y as int == BaseY + TimeBubbleHeight + Padding)
      && (Proper(bounds) ==> r.w as int == bounds.w as int - 2 * Padding)
    ensures screen.Round? ==> r.x == Wrap16(screen.scale(22)) && r.h == BubbleHeight(screen)
  {
    match screen
    case Round(scale) =>
      var inset := Wrap16(scale(22));
      var bubbleHeight := Wrap16(scale(57));
      var y := if time == Morning then BaseY as int16 else Wrap16(BaseY + bubbleHeight as int + Padding);
      MakeRect(inset as int, y as int, bounds.w as int - inset as int * 2, bubbleHeight as int)
    case Rectangular =>
      var y := if time == Morning then BaseY else BaseY + TimeBubbleHeight + Padding;
      MakeRect(Padding, y, bounds.w as int - Padding * 2, TimeBubbleHeight)
  }

  /** The `line_count` a score needs: one line only for "Visible" (score >= 8). */
  function LineCount(score: int8): (n: int8)
    ensures n == 1 || n == 2
    ensures n == 1 <==> score >= 8
  {
    if score >= 8 then 1 else 2
  }

  /** calculate_score_rect: the score label inside the right half of its
      bubble, pushed down by PADDING and made 2 * PADDING shorter when the
      label is a single line. */
  function ScoreRect(time: TimePeriod, bounds: Rect, lineCount: int8, screen: Screen): (r: Rect)
    ensures r.h as int == ScoreBubbleHeight - (if lineCount == 1 then 2 * Padding else 0)
    ensures Proper(bounds) ==> r.x as int == bounds.w as int / 2 + Padding
    ensures screen.Rectangular? ==>
      r.y as int == BubbleRect(time, bounds, screen).y as int
        + (TimeBubbleHeight - ScoreBubbleHeight) / 2 + (if lineCount == 1 then Padding else 0)
    ensures screen.Rectangular? && Proper(bounds) ==>
      r.w as int == bounds.w as int / 2 - 2 * Padding - 10
  {
    var bubble := BubbleRect(time, bounds, screen);
    var singleLinePaddingY: int8 := if lineCount == 1 then Padding as int8 else 0;
    var inset: int16 := match screen
      case Rectangular => (Padding * 2) as int16
      case Round(scale) => Wrap16(scale(22) + Padding);
    var bubbleHeight := BubbleHeight(screen);
    MakeRect(DivC(bounds.w as int, 2) + Padding,
             bubble.y as int + (DivC(bubbleHeight as int, 2) - DivC(ScoreBubbleHeight, 2)) + singleLinePaddingY as int,
             DivC(bounds.w as int, 2) - inset as int - 10,
             ScoreBubbleHeight - singleLinePaddingY as int * 2)
  }

  /** A screen whose bounds are not degenerate: a width in 0..32767. */
  predicate Proper(bounds: Rect) {
    0 <= bounds.w
  }

  /** On rectangular screens the morning bubble is fixed: x = PADDING,
      y = 2 * PADDING + REGION_BUBBLE_HEIGHT = 32, inset by PADDING on both sides. */
  lemma RectangularMorningBubble(bounds: Rect)
    requires Proper(bounds)
    ensures BubbleRect(Morning, bounds, Rectangular) == Rect(6, 32, bounds.w - 12, 62)
  {
  }

  /** On rectangular screens the afternoon bubble starts at y = 32 + 62 + 6 = 100. */
  lemma RectangularAfternoonBubble(bounds: Rect)
    requires Proper(bounds)
    ensures BubbleRect(Afternoon, bounds, Rectangular) == Rect(6, 100, bounds.w - 12, 62)
  {
  }

  /** Where the afternoon bubble's y coordinate does not wrap, it starts exactly
      PADDING below the morning bubble's bottom edge; with a positive bubble height
      the two bubbles therefore do not overlap. */
  lemma AfternoonBelowMorning(bounds: Rect, screen: Screen)
    requires IsInt16(BaseY + BubbleHeight(screen) as int + Padding)
    ensures var m := BubbleRect(Morning, bounds, screen);
      var a := BubbleRect(Afternoon, bounds, screen);
      a.y as int == m.y as int + m.h as int + Padding && a.h == m.h
    ensures var m := BubbleRect(Morning, bounds, screen);
      var a := BubbleRect(Afternoon, bounds, screen);
      m.h >= 0 ==> m.y as int + m.h as int < a.y as int
  {
  }

  /** On round screens both bubbles are inset by the same margin on the left
      and the right: x = inset and x + w = bounds.w - inset. */
  lemma RoundBubblesSymmetric(time: TimePeriod, bounds: Rect, scale: int -> int)
    requires IsInt16(bounds.w as int - Wrap16(scale(22)) as int * 2)
    ensures var b := BubbleRect(time, bounds, Round(scale));
      b.x == Wrap16(scale(22)) && b.w as int == bounds.w as int - 2 * b.x as int
  {
  }

  /** The score rectangle's x coordinate depends on the screen width only:
      neither on the time period nor on the line count. */
  lemma ScoreRectX(t1: TimePeriod, t2: TimePeriod, bounds: Rect, l1: int8, l2: int8, screen: Screen)
    ensures ScoreRect(t1, bounds, l1, screen).x == ScoreRect(t2, bounds, l2, screen).x
    ensures Proper(bounds) ==> ScoreRect(t1, bounds, l1, screen).x as int == bounds.w as int / 2 + Padding
  {
  }

  /** A one-line score rectangle sits PADDING lower and is 2 * PADDING shorter
      than the two-line one, so where nothing wraps both share one vertical centre. */
  lemma SingleLineSameCentre(time: TimePeriod, bounds: Rect, screen: Screen)
    requires var two := ScoreRect(time, bounds, 2, screen);
      IsInt16(two.y as int + Padding)
    ensures var one := ScoreRect(time, bounds, 1, screen);
      var two := ScoreRect(time, bounds, 2, screen);
      && one.y as int == two.y as int + Padding
      && one.h as int == two.h as int - 2 * Padding
      && 2 * one.y as int + one.h as int == 2 * two.y as int + two.h as int
      && one.x == two.x && one.w == two.w
  {
    var bubble := BubbleRect(time, bounds, screen);
    var core := bubble.y as int + (DivC(BubbleHeight(screen) as int, 2) - DivC(ScoreBubbleHeight, 2));
    assert ScoreRect(time, bounds, 2, screen).y == Wrap16(core);
    assert ScoreRect(time, bounds, 1, screen).y == Wrap16(core + Padding);
    Wrap16Shift(core, Padding);
  }

  /** Shifting a wrapped value by an amount that keeps it in range. */
  lemma Wrap16Shift(x: int, d: int)
    requires IsInt16(Wrap16(x) as int + d)
    ensures Wrap16(x + d) as int == Wrap16(x) as int + d
  {
    var r := Wrap16(x) as int + d;
    assert (r - (x + d)) % 65536 == 0 by {
      Wrap16Congruent(x);
    }
    var w := Wrap16(x + d) as int;
    assert (w - r) % 65536 == 0 by {
      Wrap16Congruent(x + d);
    }
    assert -65536 < w - r < 65536;
  }

  /** On rectangular screens the two-line score rectangle is vertically centred in
      its bubble: it starts 62 / 2 - 34 / 2 = 14 below the bubble's top, so both
      have their centre 31 below the bubble's top, and it lies within the bubble's
      height. */
  lemma RectangularScoreRectCentred(time: TimePeriod, bounds: Rect)
    ensures var bubble := BubbleRect(time, bounds, Rectangular);
      var r := ScoreRect(time, bounds, 2, Rectangular);
      && r.y as int == bubble.y as int + 14 && r.h == 34
      && 2 * r.y as int + r.h as int == 2 * bubble.y as int + bubble.h as int
      && bubble.y <= r.y && r.y as int + r.h as int <= bubble.y as int + bubble.h as int
  {
  }

  /** On rectangular screens the score rectangle lies horizontally inside its bubble,
      in the bubble's right half, for either line count. */
  lemma RectangularScoreRectInside(time: TimePeriod, bounds: Rect, lineCount: int8)
    requires Proper(bounds)
    ensures var bubble := BubbleRect(time, bounds, Rectangular);
      var r := ScoreRect(time, bounds, lineCount, Rectangular);
      && bubble.x <= r.x && r.x as int + r.w as int <= bubble.x as int + bubble.w as int
      && 2 * r.x as int >= 2 * bubble.x as int + bubble.w as int
  {
  }
}
