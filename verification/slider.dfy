/** The three width sliders of the tool dropdowns (starlus/app/notes.tsx:168-217).
    A touch at screen x puts the thumb at x - 20 clamped to the 200-unit track, and
    the width is a rounded linear scaling of the thumb position. */
module Slider {

  /** Length of the slider track. */
  const TrackLength: real := 200.0

  /** Screen offset of the start of the track. */
  const TrackOffset: real := 20.0

  /** `Math.round`: nearest integer, halves rounded up. */
  function Round(v: real): (r: int)
    ensures r as real <= v + 0.5 < r as real + 1.0
  {
    (v + 0.5).Floor
  }

  /** Thumb position for a touch at screen x: `max(0, min(x - 20, 200))`. */
  function ThumbPosition(touchX: real): (p: real)
    ensures 0.0 <= p <= TrackLength
    ensures touchX <= TrackOffset ==> p == 0.0
    ensures touchX >= TrackOffset + TrackLength ==> p == TrackLength
    ensures TrackOffset <= touchX <= TrackOffset + TrackLength ==> p == touchX - TrackOffset
  {
    var shifted := touchX - TrackOffset;
    var capped := if shifted < TrackLength then shifted else TrackLength;
    if 0.0 > capped then 0.0 else capped
  }

  /** `Math.round((p / 200) * span) + least` for a thumb position `p`. */
  function ScaledWidth(p: real, span: nat, least: int): (w: int)
    requires 0.0 <= p <= TrackLength
    ensures least <= w <= least + span
  {
    Round(p / TrackLength * span as real) + least
  }

  /** Pen and shape widths: 1 to 10. */
  const PenSpan: nat := 9
  const PenLeast: int := 1

  /** Highlighter widths: 10 to 40. */
  const HighlighterSpan: nat := 30
  const HighlighterLeast: int := 10

  /** Width set by the pen (and shape) slider for a touch at screen x. */
  function PenWidthFor(touchX: real): (w: int)
    ensures PenLeast <= w <= PenLeast + PenSpan
  {
    ScaledWidth(ThumbPosition(touchX), PenSpan, PenLeast)
  }

  /** Width set by the highlighter slider for a touch at screen x. */
  function HighlighterWidthFor(touchX: real): (w: int)
    ensures HighlighterLeast <= w <= HighlighterLeast + HighlighterSpan
  {
    ScaledWidth(ThumbPosition(touchX), HighlighterSpan, HighlighterLeast)
  }

  lemma RoundMonotone(a: real, b: real)
    requires a <= b
    ensures Round(a) <= Round(b)
  {
  }

  lemma RoundOfInteger(k: int)
    ensures Round(k as real) == k
  {
  }

  /** Pushing the thumb further never narrows the stroke. */
  lemma ScaledWidthMonotone(p: real, q: real, span: nat, least: int)
    requires 0.0 <= p <= q <= TrackLength
    ensures ScaledWidth(p, span, least) <= ScaledWidth(q, span, least)
  {
    assert p / TrackLength * span as real <= q / TrackLength * span as real;
    RoundMonotone(p / TrackLength * span as real, q / TrackLength * span as real);
  }

  lemma ThumbPositionMonotone(a: real, b: real)
    requires a <= b
    ensures ThumbPosition(a) <= ThumbPosition(b)
  {
  }

  /** Both sliders are monotone in the touch position. */
  lemma WidthsMonotone(a: real, b: real)
    requires a <= b
    ensures PenWidthFor(a) <= PenWidthFor(b)
    ensures HighlighterWidthFor(a) <= HighlighterWidthFor(b)
  {
    ThumbPositionMonotone(a, b);
    ScaledWidthMonotone(ThumbPosition(a), ThumbPosition(b), PenSpan, PenLeast);
    ScaledWidthMonotone(ThumbPosition(a), ThumbPosition(b), HighlighterSpan, HighlighterLeast);
  }

  /** The left end of the track gives the thinnest stroke, the right end the widest,
      and touches beyond either end are clamped to them. */
  lemma WidthsAtTrackEnds(touchX: real)
    ensures touchX <= TrackOffset ==> PenWidthFor(touchX) == 1 && HighlighterWidthFor(touchX) == 10
    ensures touchX >= TrackOffset + TrackLength ==> PenWidthFor(touchX) == 10 && HighlighterWidthFor(touchX) == 40
  {
    if touchX <= TrackOffset {
      RoundOfInteger(0);
    }
    if touchX >= TrackOffset + TrackLength {
      RoundOfInteger(PenSpan);
      RoundOfInteger(HighlighterSpan);
    }
  }

  /** Every width of the range is reachable: the touch at the matching fraction of the track yields it. */
  lemma EveryWidthReachable(w: int, span: nat, least: int)
    requires span > 0
    requires least <= w <= least + span
    ensures ScaledWidth((w - least) as real * TrackLength / span as real, span, least) == w
  {
    var p := (w - least) as real * TrackLength / span as real;
    assert p / TrackLength * span as real == (w - least) as real;
    RoundOfInteger(w - least);
  }
}
