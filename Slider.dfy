/**
 * `vis/gui/slider.go`: a horizontal slider over a numeric range. Its range is
 * never empty and its value never leaves the range (`Slider.Valid`). The
 * float32 and float64 fields are modelled as reals; mouse polling, drawing and
 * text formatting are not part of this model, so the mouse's x position is a
 * parameter of `UpdateValueFromMouse`.
 */
module GuiSlider {
  import opened RealMath
  import opened Colors

  const DEFAULT_SLIDER_WIDTH: real := 240.0
  const DEFAULT_SLIDER_HEIGHT: real := 36.0
  const SLIDER_TRACK_HEIGHT: real := 6.0
  /** The fixed font size a zero `FontSize` stands for. */
  const DEFAULT_FONT_SIZE: int := 16

  /** `rl.Rectangle`: the top-left corner and the size. */
  datatype Rectangle = Rectangle(X: real, Y: real, Width: real, Height: real)

  /** `SliderConfig`. */
  datatype SliderConfig = SliderConfig(
    X: real, Y: real, Width: real, Label: string,
    Min: real, Max: real, Value: real,
    Precision: int, FontSize: int, Color: Color, ValueColor: Color)

  /**
   * `clamp`: `math.Min(math.Max(value, min), max)`. On a range that is not
   * empty the result lies in the range and is `value` itself when `value`
   * already does; on any range it is at most `max`.
   */
  function Clamp(value: real, min: real, max: real): (r: real)
    ensures r <= max
    ensures min <= max ==> min <= r
    ensures min <= value <= max ==> r == value
    ensures value < min && min <= max ==> r == min
    ensures max < value ==> r == max
  {
    Min(Max(value, min), max)
  }

  /**
   * `clampFloat`: `min` below the range, `max` above it, the value otherwise.
   * On a range that is not empty the result lies in the range.
   */
  function ClampFloat(value: real, min: real, max: real): (r: real)
    ensures min <= max ==> min <= r <= max
    ensures min <= value <= max ==> r == value
    ensures value < min ==> r == min
    ensures min <= value && max < value ==> r == max
  {
    if value < min then min
    else if value > max then max
    else value
  }

  /**
   * The two clamps agree on every range that is not empty; on an empty range
   * a value below both bounds tells them apart.
   */
  lemma ClampsAgree(value: real, min: real, max: real)
    ensures min <= max ==> ClampFloat(value, min, max) == Clamp(value, min, max)
    ensures max < min && value < max ==> ClampFloat(value, min, max) == min && Clamp(value, min, max) == max
  {
  }

  /** `Slider`: its bounds, label (`labelText`), range, value and drawing settings. */
  class Slider {
    var bounds: Rectangle
    var labelText: string
    var min: real
    var max: real
    var value: real
    var dragging: bool
    var fontSize: int
    var precision: int
    var labelColor: Color
    var valueColor: Color

    /** The range is not empty, the value lies in it, and the track has a width to divide by. */
    predicate Valid()
      reads this
    {
      min < max && min <= value <= max && bounds.Width != 0.0
    }

    /**
     * `NewSlider`: a zero width, a zero font size, a negative precision and
     * fully transparent colours are replaced by defaults; an empty or inverted
     * range becomes `[Min, Min + 1]`; the value is clamped into the range.
     */
    constructor (config: SliderConfig)
      ensures bounds == Rectangle(config.X, config.Y,
        if config.Width == 0.0 then DEFAULT_SLIDER_WIDTH else config.Width, DEFAULT_SLIDER_HEIGHT)
      ensures labelText == config.Label && !dragging
      ensures fontSize == if config.FontSize == 0 then DEFAULT_FONT_SIZE else config.FontSize
      ensures precision == if config.Precision < 0 then 0 else config.Precision
      ensures labelColor == if config.Color.A == 0 then WHITE else config.Color
      ensures valueColor == if config.ValueColor.A == 0 then LIGHT_GRAY else config.ValueColor
      ensures min == config.Min && max == if config.Max <= config.Min then config.Min + 1.0 else config.Max
      ensures value == Clamp(config.Value, min, max)
      ensures config.Min <= config.Value <= config.Max ==> value == config.Value
      ensures Valid()
    {
      var width := config.Width;
      if width == 0.0 {
        width := DEFAULT_SLIDER_WIDTH;
      }
      var fontSize := config.FontSize;
      if fontSize == 0 {
        fontSize := DEFAULT_FONT_SIZE;
      }
      var precision := config.Precision;
      if precision < 0 {
        precision := 0;
      }
      var labelColor := config.Color;
      if labelColor.A == 0 {
        labelColor := WHITE;
      }
      var valueColor := config.ValueColor;
      if valueColor.A == 0 {
        valueColor := LIGHT_GRAY;
      }
      var min, max := config.Min, config.Max;
      if max <= min {
        max := min + 1.0;
      }
      bounds := Rectangle(config.X, config.Y, width, DEFAULT_SLIDER_HEIGHT);
      labelText := config.Label;
      this.min, this.max := min, max;
      value := Clamp(config.Value, min, max);
      dragging := false;
      this.fontSize, this.precision := fontSize, precision;
      this.labelColor, this.valueColor := labelColor, valueColor;
    }

    /** `GetBounds`. */
    function GetBounds(): Rectangle
      reads this
    {
      bounds
    }

    /** `SetPosition`: moves the top-left corner; the size, the range and the value stay. */
    method SetPosition(x: real, y: real)
      modifies this
      ensures bounds == old(bounds).(X := x, Y := y)
      ensures min == old(min) && max == old(max) && value == old(value) && dragging == old(dragging)
      ensures labelText == old(labelText) && fontSize == old(fontSize) && precision == old(precision)
      ensures labelColor == old(labelColor) && valueColor == old(valueColor)
      ensures old(Valid()) ==> Valid()
    {
      bounds := bounds.(X := x, Y := y);
    }

    /** `Value`. */
    function Value(): real
      reads this
    {
      value
    }

    /** `SetValue`: the given value clamped into the range; a value already in range is stored as it is. */
    method SetValue(v: real)
      modifies this
      ensures value == Clamp(v, old(min), old(max))
      ensures min == old(min) && max == old(max) && bounds == old(bounds) && dragging == old(dragging)
      ensures labelText == old(labelText) && fontSize == old(fontSize) && precision == old(precision)
      ensures labelColor == old(labelColor) && valueColor == old(valueColor)
      ensures old(Valid()) ==> Valid() && (min <= v <= max ==> value == v)
    {
      value := Clamp(v, min, max);
    }

    /**
     * `trackRect`: the bar along the bottom of the slider, as wide as it and
     * `SLIDER_TRACK_HEIGHT` high, whose bottom edge sits 6 above the slider's.
     */
    function TrackRect(): (r: Rectangle)
      reads this
      ensures r.X == bounds.X && r.Width == bounds.Width && r.Height == SLIDER_TRACK_HEIGHT
      ensures r.Y + r.Height + 6.0 == bounds.Y + bounds.Height
    {
      var trackY := bounds.Y + bounds.Height - SLIDER_TRACK_HEIGHT - 6.0;
      Rectangle(bounds.X, trackY, bounds.Width, SLIDER_TRACK_HEIGHT)
    }

    /** The value `updateValueFromMouse(mouseX)` stores. */
    function ValueAtMouse(mouseX: real): real
      requires bounds.Width != 0.0
      reads this
    {
      var track := TrackRect();
      var t := ClampFloat((mouseX - track.X) / track.Width, 0.0, 1.0);
      min + t * (max - min)
    }

    /**
     * `updateValueFromMouse`: the mouse's offset along the track, as a fraction
     * of its width clamped to [0, 1], picks the value between min and max.
     */
    method UpdateValueFromMouse(mouseX: real)
      requires Valid()
      modifies this
      ensures value == old(ValueAtMouse(mouseX))
      ensures min == old(min) && max == old(max) && bounds == old(bounds) && dragging == old(dragging)
      ensures labelText == old(labelText) && fontSize == old(fontSize) && precision == old(precision)
      ensures labelColor == old(labelColor) && valueColor == old(valueColor)
      ensures Valid()
    {
      var track := TrackRect();
      var t := ClampFloat((mouseX - track.X) / track.Width, 0.0, 1.0);
      value := min + t * (max - min);
      MouseValueInRange(min, max, t);
    }
  }

  /** A fraction in [0, 1] of a non-empty range, added to its lower end, stays in the range. */
  lemma MouseValueInRange(min: real, max: real, t: real)
    requires min < max && 0.0 <= t <= 1.0
    ensures min <= min + t * (max - min) <= max
  {
    assert t * (max - min) <= 1.0 * (max - min);
  }

  /**
   * Dragging never moves the value out of the range; at or left of the track's
   * start it is `min`, and at or right of the track's end it is `max`.
   */
  lemma {:induction false} MouseValueBounds(s: Slider, mouseX: real)
    requires s.Valid()
    ensures s.min <= s.ValueAtMouse(mouseX) <= s.max
    ensures 0.0 < s.bounds.Width && mouseX <= s.bounds.X ==> s.ValueAtMouse(mouseX) == s.min
    ensures 0.0 < s.bounds.Width && s.bounds.X + s.bounds.Width <= mouseX ==> s.ValueAtMouse(mouseX) == s.max
  {
    var track := s.TrackRect();
    var q := (mouseX - track.X) / track.Width;
    MouseValueInRange(s.min, s.max, ClampFloat(q, 0.0, 1.0));
    if 0.0 < track.Width && mouseX <= track.X {
      assert q <= 0.0;
    }
    if 0.0 < track.Width && track.X + track.Width <= mouseX {
      QuotientAtLeastOne(mouseX - track.X, track.Width);
    }
  }

  /** A quotient whose dividend is at least its positive divisor is at least 1. */
  lemma QuotientAtLeastOne(a: real, w: real)
    requires 0.0 < w <= a
    ensures 1.0 <= a / w
  {
  }
}
