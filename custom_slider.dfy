/**
 * A slider whose knob is dragged along a track. The knob's leading edge
 * ranges over [0, view width − knob width], and its position is converted
 * linearly into the slider's value range and back.
 */
module CustomSliderControl {
  import opened CoreTypes
  import opened NormalizeControl

  /** convert(value:fromRange:toRange:): the point at the same fraction of
      `toRange` as `value` is of `fromRange`. The source range must not be a
      single point, since its width is a divisor. */
  method Convert(value: real, fromRange: ClosedRange, toRange: ClosedRange) returns (r: real)
    requires fromRange.lower != fromRange.upper
    ensures (r - toRange.lower) * (fromRange.upper - fromRange.lower)
         == (value - fromRange.lower) * (toRange.upper - toRange.lower)
    ensures r == DeNormalizeValue(NormalizeValue(value, fromRange), toRange)
    ensures value == fromRange.lower ==> r == toRange.lower
    ensures value == fromRange.upper ==> r == toRange.upper
    ensures fromRange.lower < fromRange.upper && fromRange.Contains(value) && toRange.Valid() ==>
      toRange.Contains(r)
  {
    r := value;
    r := r - fromRange.lower;
    r := r / (fromRange.upper - fromRange.lower);
    r := r * (toRange.upper - toRange.lower);
    r := r + toRange.lower;
    var t := NormalizeValue(value, fromRange);
    assert r == DeNormalizeValue(t, toRange);
    assert (r - toRange.lower) * (fromRange.upper - fromRange.lower)
        == t * (fromRange.upper - fromRange.lower) * (toRange.upper - toRange.lower);
    Endpoints(fromRange);
    if fromRange.lower < fromRange.upper && fromRange.Contains(value) && toRange.Valid() {
      UnitInterval(value, value, fromRange);
      DeNormalizeInRange(t, toRange);
    }
  }

  /** The example in the source's comment: 1 in 0...2 is 11 in 10...12. */
  method ConvertExample() returns (r: real)
    ensures r == 11.0
  {
    r := Convert(1.0, ClosedRange(0.0, 2.0), ClosedRange(10.0, 12.0));
  }

  /** Converting into another range and back gives the value again, for two
      ranges of positive width. */
  method ConvertBack(value: real, fromRange: ClosedRange, toRange: ClosedRange) returns (back: real)
    requires fromRange.lower != fromRange.upper && toRange.lower != toRange.upper
    ensures back == value
  {
    var there := Convert(value, fromRange, toRange);
    back := Convert(there, toRange, fromRange);
    var t := NormalizeValue(value, fromRange);
    RoundTrip(value, t, toRange);
    RoundTrip(value, t, fromRange);
  }

  class CustomSlider {
    var value: real
    var range: ClosedRange
    var knobWidth: Option<real>

    constructor (value: real, range: ClosedRange, knobWidth: Option<real>)
      ensures this.value == value && this.range == range && this.knobWidth == knobWidth
    {
      this.value, this.range, this.knobWidth := value, range, knobWidth;
    }

    /** The knob's width: the configured one, or the view's height. */
    function Knob(height: real): real
      reads this
    {
      if knobWidth.Some? then knobWidth.value else height
    }

    /** The range of the knob's leading edge in a view of the given size. */
    function Track(size: Size): ClosedRange
      reads this
    {
      ClosedRange(0.0, size.width - Knob(size.height))
    }

    /** onDragChange: the knob's centre follows the finger; its leading edge,
        clamped to the track, is converted into the value range and stored.
        The view must be wider than the knob: the track's width divides. */
    method OnDragChange(startLocationX: real, translationWidth: real, size: Size)
      requires size.width > Knob(size.height)
      modifies this
      ensures range == old(range) && knobWidth == old(knobWidth)
      ensures var edge := Max(Min(startLocationX + translationWidth - 0.5 * Knob(size.height), Track(size).upper), 0.0);
        value == DeNormalizeValue(NormalizeValue(edge, Track(size)), range)
      ensures range.Valid() ==> range.Contains(value)
    {
      var knob := Knob(size.height);
      var xrange := ClosedRange(0.0, size.width - knob);
      var newValue := startLocationX + translationWidth;
      newValue := newValue - 0.5 * knob;
      newValue := Max(Min(newValue, xrange.upper), xrange.lower);
      newValue := Convert(newValue, xrange, range);
      value := newValue;
    }

    /** getOffsetX: the knob's leading edge for the current value, in a frame
        at least as wide as the knob. A value in a well-formed range puts the
        knob on the track. */
    method GetOffsetX(frame: Rect) returns (offset: real)
      requires range.lower != range.upper
      requires frame.w >= Knob(frame.h)
      ensures offset == DeNormalizeValue(NormalizeValue(value, range), ClosedRange(0.0, frame.w - Knob(frame.h)))
      ensures range.lower < range.upper && range.Contains(value) ==> 0.0 <= offset <= frame.w - Knob(frame.h)
    {
      var knob := Knob(frame.h);
      var xrange := ClosedRange(0.0, frame.w - knob);
      offset := Convert(value, range, xrange);
    }
  }

  /** Dragging the knob's centre to where the current value draws it stores
      that value again: drawing and dragging agree. */
  method DragToDrawnPosition(slider: CustomSlider, size: Size)
    requires slider.range.lower < slider.range.upper && slider.range.Contains(slider.value)
    requires size.width > slider.Knob(size.height)
    modifies slider
    ensures slider.value == old(slider.value)
  {
    var knob := slider.Knob(size.height);
    var offset := slider.GetOffsetX(Rect(0.0, 0.0, size.width, size.height));
    var track := slider.Track(size);
    ghost var t := NormalizeValue(slider.value, slider.range);
    RoundTrip(slider.value, t, track);
    RoundTrip(slider.value, t, slider.range);
    slider.OnDragChange(offset + 0.5 * knob, 0.0, size);
  }
}
