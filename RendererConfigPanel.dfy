/**
 * `vis/gui/renderer_config_panel.go`: the panel that edits the renderer's
 * visual configuration. Its logic is the colour cycling of the three "Next"
 * buttons, the equality of two configurations, and the rule that the change
 * callback runs only when a frame's update changed the configuration.
 *
 * The buttons and toggles are widgets outside this model: what they report in
 * one frame is the `PanelInput` of `Update`. The change callback is a flag
 * saying whether there is one, and the configurations it is called with are
 * recorded in `notified`.
 */
module GuiRendererConfigPanel {
  import opened RealMath
  import opened Colors
  import opened GuiSlider

  /** `rendererColorPalette`: the colours the "Next" buttons cycle through. */
  const RENDERER_COLOR_PALETTE: seq<Color> :=
    [WHITE, GRAY, DARK_GRAY, BLACK, RED, ORANGE, GOLD, GREEN, BLUE, DARK_BLUE, PURPLE, SKY_BLUE]

  /** `RendererConfigData`: the renderer settings the panel edits. */
  datatype RendererConfigData = RendererConfigData(
    BackgroundColor: Color, UseRandomFaceColor: bool, FaceColor: Color, EdgeColor: Color,
    AlphaValue: uint8, DrawFaces: bool, DrawEdges: bool, UseBackfaceCulling: bool)

  /** `rendererConfigEqual`: field-by-field comparison, which is equality of the two configurations. */
  function RendererConfigEqual(a: RendererConfigData, b: RendererConfigData): (r: bool)
    ensures r <==> a == b
  {
    a.BackgroundColor == b.BackgroundColor &&
    a.FaceColor == b.FaceColor &&
    a.EdgeColor == b.EdgeColor &&
    a.UseRandomFaceColor == b.UseRandomFaceColor &&
    a.AlphaValue == b.AlphaValue &&
    a.DrawFaces == b.DrawFaces &&
    a.DrawEdges == b.DrawEdges &&
    a.UseBackfaceCulling == b.UseBackfaceCulling
  }

  /** The comparison is reflexive, symmetric and transitive. */
  lemma RendererConfigEqualIsEquivalence(a: RendererConfigData, b: RendererConfigData, c: RendererConfigData)
    ensures RendererConfigEqual(a, a)
    ensures RendererConfigEqual(a, b) == RendererConfigEqual(b, a)
    ensures RendererConfigEqual(a, b) && RendererConfigEqual(b, c) ==> RendererConfigEqual(a, c)
  {
  }

  /** The first position of `c` in `palette`; `|palette|` when it does not occur. */
  function FirstIndexOf(palette: seq<Color>, c: Color): (i: nat)
    ensures i <= |palette| && c !in palette[..i]
    ensures i < |palette| ==> palette[i] == c
    ensures i == |palette| <==> c !in palette
  {
    if palette == [] then 0
    else if palette[0] == c then 0
    else
      var j := FirstIndexOf(palette[1..], c);
      assert palette[..j + 1] == [palette[0]] + palette[1..][..j];
      j + 1
  }

  /**
   * The colour `nextPaletteColor` picks: the colour after the first occurrence
   * of `current`, wrapping round at the end; the first colour when `current`
   * does not occur; `current` itself when the palette is empty.
   */
  function PaletteSuccessor(palette: seq<Color>, current: Color): Color {
    if |palette| == 0 then current
    else
      var i := FirstIndexOf(palette, current);
      if i + 1 < |palette| then palette[i + 1] else palette[0]
  }

  /** The cases of `nextPaletteColor`, and that on a palette with colours it always picks one of them. */
  lemma PaletteSuccessorCases(palette: seq<Color>, current: Color, i: int)
    ensures palette == [] ==> PaletteSuccessor(palette, current) == current
    ensures current !in palette && palette != [] ==> PaletteSuccessor(palette, current) == palette[0]
    ensures 0 <= i < |palette| && palette[i] == current && current !in palette[..i] ==>
      PaletteSuccessor(palette, current) == palette[(i + 1) % |palette|]
    ensures palette != [] ==> PaletteSuccessor(palette, current) in palette
  {
    if 0 <= i < |palette| {
      WrapStep(i, |palette|);
    }
  }

  /** No colour occurs twice. */
  predicate Distinct(palette: seq<Color>) {
    forall i, j :: 0 <= i < j < |palette| ==> palette[i] != palette[j]
  }

  /** The panel's palette holds twelve different colours. */
  lemma RendererPaletteDistinct()
    ensures |RENDERER_COLOR_PALETTE| == 12 && Distinct(RENDERER_COLOR_PALETTE)
  {
  }

  /** `k` presses of a "Next" button. */
  function Successors(palette: seq<Color>, current: Color, k: nat): Color {
    if k == 0 then current else PaletteSuccessor(palette, Successors(palette, current, k - 1))
  }

  /** In a palette of different colours, the colour at `i` is found at `i`. */
  lemma FirstIndexOfDistinct(palette: seq<Color>, i: int)
    requires Distinct(palette) && 0 <= i < |palette|
    ensures FirstIndexOf(palette, palette[i]) == i
  {
  }

  /** In a palette of different colours, the colour after the one at `p` is the next one, wrapping round. */
  lemma SuccessorInDistinct(palette: seq<Color>, p: int)
    requires Distinct(palette) && 0 <= p < |palette|
    ensures PaletteSuccessor(palette, palette[p]) == palette[if p + 1 < |palette| then p + 1 else 0]
  {
    FirstIndexOfDistinct(palette, p);
  }

  /** The quotient and remainder by `n` are the only ones that recompose `a` with a remainder below `n`. */
  lemma DivModUnique(a: int, n: int, q: int, r: int)
    requires 0 < n && 0 <= r < n && a == q * n + r
    ensures a / n == q && a % n == r
  {
    var d := q - a / n;
    assert d * n == a % n - r;
  }

  /** One step up from a position below `n`, modulo `n`. */
  lemma WrapStep(p: int, n: int)
    requires 0 <= p < n
    ensures (p + 1) % n == if p + 1 < n then p + 1 else 0
  {
    if p + 1 < n {
      DivModUnique(p + 1, n, 0, p + 1);
    } else {
      DivModUnique(p + 1, n, 1, 0);
    }
  }

  /** The position `k` steps round a cycle of `n` positions from `i`, one step at a time. */
  function CyclePosition(i: int, k: nat, n: int): (r: int)
    requires 0 <= i < n
    ensures 0 <= r < n
  {
    if k == 0 then i
    else
      var p := CyclePosition(i, k - 1, n);
      if p + 1 < n then p + 1 else 0
  }

  /** Stepping round the cycle `k` times from `i` lands on `(i + k) mod n`. */
  lemma {:induction false} CyclePositionIsMod(i: int, k: nat, n: int)
    requires 0 <= i < n
    ensures CyclePosition(i, k, n) == (i + k) % n
  {
    if k == 0 {
      DivModUnique(i, n, 0, i);
    } else {
      CyclePositionIsMod(i, k - 1, n);
      ModSuccessor(i + k - 1, n);
    }
  }

  /** The remainder of the next number is the next remainder, wrapping round to 0 at `n`. */
  lemma ModSuccessor(a: int, n: int)
    requires 0 <= a && 0 < n
    ensures (a + 1) % n == if a % n + 1 < n then a % n + 1 else 0
  {
    var q, m := a / n, a % n;
    var qn := q * n;
    assert a == qn + m;
    if m + 1 < n {
      DivModUnique(a + 1, n, q, m + 1);
    } else {
      assert (q + 1) * n == qn + n;
      DivModUnique(a + 1, n, q + 1, 0);
    }
  }

  /** In a palette of different colours, `k` presses move `k` positions round the palette. */
  lemma {:induction false} PaletteSteps(palette: seq<Color>, i: int, k: nat)
    requires Distinct(palette) && 0 <= i < |palette|
    ensures Successors(palette, palette[i], k) == palette[CyclePosition(i, k, |palette|)]
  {
    if k > 0 {
      PaletteSteps(palette, i, k - 1);
      SuccessorInDistinct(palette, CyclePosition(i, k - 1, |palette|));
    }
  }

  /**
   * In a palette of different colours, `k` presses starting from the colour at
   * position `i` reach the colour at position `(i + k) mod n`.
   */
  lemma PaletteCycle(palette: seq<Color>, i: int, k: nat)
    requires Distinct(palette) && 0 <= i < |palette|
    ensures Successors(palette, palette[i], k) == palette[(i + k) % |palette|]
  {
    PaletteSteps(palette, i, k);
    CyclePositionIsMod(i, k, |palette|);
  }

  /** In a palette of different colours, one press per colour comes back to the starting colour. */
  lemma PaletteFullCircle(palette: seq<Color>, i: int)
    requires Distinct(palette) && 0 <= i < |palette|
    ensures Successors(palette, palette[i], |palette|) == palette[i]
  {
    PaletteSteps(palette, i, |palette|);
    FullCycle(i, |palette|);
  }

  /** `n` steps round a cycle of `n` positions come back to the start. */
  lemma FullCycle(i: int, n: int)
    requires 0 <= i < n
    ensures CyclePosition(i, n, n) == i
  {
    CyclePositionIsMod(i, n, n);
    DivModUnique(i + n, n, 1, i);
  }

  /** `nextPaletteColor`: a linear search of the palette that returns as soon as it finds `current`. */
  method NextPaletteColor(palette: seq<Color>, current: Color) returns (next: Color)
    ensures next == PaletteSuccessor(palette, current)
  {
    if |palette| == 0 {
      return current;
    }
    var i := 0;
    while i < |palette|
      invariant 0 <= i <= |palette| && current !in palette[..i]
    {
      if palette[i] == current {
        PaletteSuccessorCases(palette, current, i);
        return palette[(i + 1) % |palette|];
      }
      assert palette[..i + 1] == palette[..i] + [palette[i]];
      i := i + 1;
    }
    assert palette[..i] == palette;
    PaletteSuccessorCases(palette, current, i);
    return palette[0];
  }

  /** What the panel's widgets report in one frame: three button clicks and four toggle positions. */
  datatype PanelInput = PanelInput(
    FaceClicked: bool, EdgeClicked: bool, BackgroundClicked: bool,
    DrawFaces: bool, DrawEdges: bool, UseRandomFaceColor: bool, UseBackfaceCulling: bool)

  /**
   * The configuration `Update` leaves behind, given the palette, the frame's
   * input and the alpha slider's value.
   */
  function UpdatedState(palette: seq<Color>, prev: RendererConfigData, input: PanelInput, alpha: real): RendererConfigData
    requires 0.0 <= alpha <= 255.0
  {
    RendererConfigData(
      if input.BackgroundClicked then PaletteSuccessor(palette, prev.BackgroundColor) else prev.BackgroundColor,
      input.UseRandomFaceColor,
      if input.FaceClicked then PaletteSuccessor(palette, prev.FaceColor) else prev.FaceColor,
      if input.EdgeClicked then PaletteSuccessor(palette, prev.EdgeColor) else prev.EdgeColor,
      Round(alpha) as uint8,
      input.DrawFaces, input.DrawEdges, input.UseBackfaceCulling)
  }

  /**
   * A frame with no click, toggles agreeing with the configuration and the
   * slider at the configured alpha changes nothing; on a palette with colours
   * a click on a button always moves its colour to a palette colour; the alpha
   * is the slider's value rounded to the nearest integer.
   */
  lemma UpdatedStateProperties(palette: seq<Color>, prev: RendererConfigData, input: PanelInput, alpha: real)
    requires 0.0 <= alpha <= 255.0
    ensures var next := UpdatedState(palette, prev, input, alpha);
      (!input.FaceClicked && !input.EdgeClicked && !input.BackgroundClicked &&
       input.DrawFaces == prev.DrawFaces && input.DrawEdges == prev.DrawEdges &&
       input.UseRandomFaceColor == prev.UseRandomFaceColor &&
       input.UseBackfaceCulling == prev.UseBackfaceCulling &&
       alpha == prev.AlphaValue as real) ==> next == prev
    ensures var next := UpdatedState(palette, prev, input, alpha);
      palette != [] ==>
        (input.FaceClicked ==> next.FaceColor in palette) &&
        (input.EdgeClicked ==> next.EdgeColor in palette) &&
        (input.BackgroundClicked ==> next.BackgroundColor in palette)
    ensures var next := UpdatedState(palette, prev, input, alpha);
      next.AlphaValue as real - 0.5 <= alpha <= next.AlphaValue as real + 0.5
  {
    PaletteSuccessorCases(palette, prev.FaceColor, 0);
    PaletteSuccessorCases(palette, prev.EdgeColor, 0);
    PaletteSuccessorCases(palette, prev.BackgroundColor, 0);
    if alpha == prev.AlphaValue as real {
      assert Round(alpha) == prev.AlphaValue as int;
    }
  }

  /**
   * `RendererConfigPanel`: the configuration being edited, the alpha slider and
   * the change callback; `palette` is the package-level `rendererColorPalette`
   * the buttons read.
   */
  class RendererConfigPanel {
    var palette: seq<Color>
    var state: RendererConfigData
    var alphaSlider: Slider
    var hasOnChange: bool
    var notified: seq<RendererConfigData>

    /** The alpha slider is a valid slider over [0, 255]. */
    predicate Valid()
      reads this, alphaSlider
    {
      alphaSlider.Valid() && alphaSlider.min == 0.0 && alphaSlider.max == 255.0
    }

    /**
     * `NewRendererConfigPanel`: starts from `initial`, with the alpha slider
     * over [0, 255] showing the initial alpha, and nothing notified.
     */
    constructor (x: real, y: real, initial: RendererConfigData, hasOnChange: bool)
      ensures palette == RENDERER_COLOR_PALETTE
      ensures state == initial && this.hasOnChange == hasOnChange && notified == []
      ensures fresh(alphaSlider) && alphaSlider.value == initial.AlphaValue as real
      ensures Valid()
    {
      palette := RENDERER_COLOR_PALETTE;
      state := initial;
      this.hasOnChange := hasOnChange;
      notified := [];
      var transparent := Color(0, 0, 0, 0);
      alphaSlider := new Slider(SliderConfig(x + 10.0, y + 46.0 + 140.0 + 108.0, 320.0, "Face alpha",
        0.0, 255.0, initial.AlphaValue as real, 0, 0, transparent, transparent));
    }

    /** `State`. */
    function State(): RendererConfigData
      reads this
    {
      state
    }

    /**
     * `Update`: advances the colours whose buttons were clicked, copies the
     * toggles, takes the rounded slider value as the alpha, and calls the
     * callback, when there is one, only if the configuration changed.
     */
    method Update(input: PanelInput)
      requires Valid()
      modifies this
      ensures palette == old(palette) && alphaSlider == old(alphaSlider) && hasOnChange == old(hasOnChange)
      ensures Valid()
      ensures state == UpdatedState(palette, old(state), input, alphaSlider.value)
      ensures notified == old(notified) + if hasOnChange && state != old(state) then [state] else []
    {
      var prev := state;
      var faceColor, edgeColor, backgroundColor := prev.FaceColor, prev.EdgeColor, prev.BackgroundColor;
      if input.FaceClicked {
        faceColor := NextPaletteColor(palette, faceColor);
      }
      if input.EdgeClicked {
        edgeColor := NextPaletteColor(palette, edgeColor);
      }
      if input.BackgroundClicked {
        backgroundColor := NextPaletteColor(palette, backgroundColor);
      }
      var alpha := Round(alphaSlider.Value());
      var next := RendererConfigData(backgroundColor, input.UseRandomFaceColor, faceColor, edgeColor,
        alpha as uint8, input.DrawFaces, input.DrawEdges, input.UseBackfaceCulling);
      Commit(prev, next);
    }

    /** The end of `Update`: stores the new configuration and calls the callback, when there is one, if it differs from `prev`. */
    method Commit(prev: RendererConfigData, next: RendererConfigData)
      modifies this
      ensures palette == old(palette) && alphaSlider == old(alphaSlider) && hasOnChange == old(hasOnChange)
      ensures state == next
      ensures notified == old(notified) + if hasOnChange && next != prev then [next] else []
    {
      state := next;
      if !RendererConfigEqual(prev, next) && hasOnChange {
        notified := notified + [next];
      }
    }
  }
}
