/** The opacity and timing formulas of the scenes in src/scenes.ts, and the
    ring-label row layout. Drawing itself (text, TeX, plots, arrows) is
    not modelled: each formula gives the alpha a piece is drawn with, and
    a piece is drawn exactly when its alpha is positive. */
module Scenes {
  import opened Common
  import opened Janim
  import opened Settings

  // ---------------------------------------------------------------------
  // Fades
  // ---------------------------------------------------------------------

  /** The eased time slice over [start, end]: 0 up to `start`, rising
      to 1 at `end`. */
  function FadeIn(localT: real, start: real, end: real): (r: real)
    ensures 0.0 <= r <= 1.0
    ensures r == 0.0 <==> localT <= start
    ensures r == 1.0 <==> start < localT && end <= localT
  {
    var s := TimeSlice(localT, start, end);
    EaseInOutStrict(s);
    EaseInOut(s)
  }

  /** One minus the eased time slice over [start, end]: 1 up to `start`,
      falling to 0 at `end`. */
  function FadeOut(localT: real, start: real, end: real): (r: real)
    ensures 0.0 <= r <= 1.0
    ensures r == 1.0 <==> localT <= start
    ensures r == 0.0 <==> start < localT && end <= localT
  {
    var s := TimeSlice(localT, start, end);
    EaseInOutStrict(s);
    1.0 - EaseInOut(s)
  }

  lemma {:induction false} FadeInMonotone(s: real, t: real, start: real, end: real)
    requires s <= t
    ensures FadeIn(s, start, end) <= FadeIn(t, start, end)
  {
    TimeSliceMonotone(s, t, start, end);
    EaseInOutMonotone(TimeSlice(s, start, end), TimeSlice(t, start, end));
  }

  lemma {:induction false} FadeOutAntitone(s: real, t: real, start: real, end: real)
    requires s <= t
    ensures FadeOut(s, start, end) >= FadeOut(t, start, end)
  {
    TimeSliceMonotone(s, t, start, end);
    EaseInOutMonotone(TimeSlice(s, start, end), TimeSlice(t, start, end));
  }

  // ---------------------------------------------------------------------
  // titleScene
  // ---------------------------------------------------------------------

  /** Fade in over the first FADE seconds, fade out over the last FADE. */
  function TitleAlpha(localT: real, duration: real): (r: real)
    ensures 0.0 <= r <= 1.0
  {
    Min(FadeIn(localT, 0.0, FADE), FadeOut(localT, duration - FADE, duration))
  }

  /** The title is drawn (alpha > 0) exactly strictly inside its slot. */
  lemma {:induction false} TitleDrawnWithinSlot(localT: real, duration: real)
    ensures TitleAlpha(localT, duration) > 0.0 <==> 0.0 < localT < duration
  {
  }

  lemma {:induction false} TitleInvisibleOutside(localT: real, duration: real)
    ensures localT <= 0.0 ==> TitleAlpha(localT, duration) == 0.0
    ensures localT >= duration ==> TitleAlpha(localT, duration) == 0.0
  {
    if localT >= duration && localT > duration - FADE {
      assert FadeOut(localT, duration - FADE, duration) == 0.0;
    }
  }

  /** A slot of at least two fades shows the title fully between them. */
  lemma {:induction false} TitleFullyOpaque(localT: real, duration: real)
    requires duration >= 2.0 * FADE
    requires FADE <= localT <= duration - FADE
    ensures TitleAlpha(localT, duration) == 1.0
  {
  }

  /** The title brightens through its fade-in and dims through its fade-out. */
  lemma {:induction false} TitleRisesThenFalls(s: real, t: real, duration: real)
    requires s <= t
    ensures t <= duration - FADE ==> TitleAlpha(s, duration) <= TitleAlpha(t, duration)
    ensures FADE <= s ==> TitleAlpha(s, duration) >= TitleAlpha(t, duration)
  {
    FadeInMonotone(s, t, 0.0, FADE);
    FadeOutAntitone(s, t, duration - FADE, duration);
  }

  // ---------------------------------------------------------------------
  // ringsScene
  // ---------------------------------------------------------------------

  const RING_LABEL_COUNT: nat := 4
  const POLY_GROUP_SIZES: seq<nat> := [3, 3, 3]

  /** Everything in the rings scene fades out during the grace period
      after the slot. */
  function PhaseOut(localT: real, duration: real): (r: real)
    ensures 0.0 <= r <= 1.0
  {
    FadeOut(localT, duration, duration + FADE)
  }

  lemma {:induction false} PhaseOutSpan(localT: real, duration: real)
    ensures localT <= duration ==> PhaseOut(localT, duration) == 1.0
    ensures localT >= duration + FADE ==> PhaseOut(localT, duration) == 0.0
    ensures PhaseOut(localT, duration) > 0.0 <==> localT < duration + FADE
  {
  }

  /** Ring label i appears half a second after label i - 1. */
  function LabelAppear(labels: real, i: nat): (r: real)
    requires i < RING_LABEL_COUNT
    ensures r == labels + 0.5 * i as real
  {
    [labels, labels + 0.5, labels + 1.0, labels + 1.5][i]
  }

  /** Polynomial j of group g appears 0.4 s after the one above it; the
      groups start half a second apart. */
  function PolyAppear(polys: real, g: nat, j: nat): (r: real)
    requires g < |POLY_GROUP_SIZES|
    ensures r == polys + 0.5 * g as real + 0.4 * j as real
  {
    [polys, polys + 0.5, polys + 1.0][g] + j as real * 0.4
  }

  /** A label or polynomial: its own fade-in times the scene's phase-out. */
  function RingItemAlpha(localT: real, appear: real, duration: real): (r: real)
    ensures 0.0 <= r <= 1.0
    ensures r <= PhaseOut(localT, duration)
  {
    var a := FadeIn(localT, appear, appear + FADE);
    ProductInUnit(a, PhaseOut(localT, duration));
    a * PhaseOut(localT, duration)
  }

  /** An item is drawn from its appearance until the scene has faded. */
  lemma {:induction false} RingItemDrawn(localT: real, appear: real, duration: real)
    ensures RingItemAlpha(localT, appear, duration) > 0.0 <==> appear < localT < duration + FADE
  {
    var a := FadeIn(localT, appear, appear + FADE);
    var p := PhaseOut(localT, duration);
    assert RingItemAlpha(localT, appear, duration) == a * p;
    ProductPositiveIff(a, p);
    PhaseOutSpan(localT, duration);
  }

  /** Label i's left edge: half the slack, then the widths and gaps of the
      labels before it. */
  function LabelLeft(widths: seq<real>, gap: real, width: real, i: nat): real
    requires i <= |widths|
  {
    (width - RowWidth(widths, gap)) / 2.0 + Sum(widths[..i]) + gap * i as real
  }

  function Sum(xs: seq<real>): real
  {
    if xs == [] then 0.0 else Sum(xs[..|xs| - 1]) + xs[|xs| - 1]
  }

  /** The row's total width: the label widths plus a gap between each two. */
  function RowWidth(widths: seq<real>, gap: real): real
  {
    Sum(widths) + gap * (|widths| as real - 1.0)
  }

  /** The layout loop: each centre is the running left edge plus half the
      label's width, and the edge then moves past the label and a gap. */
  method LabelCenters(widths: seq<real>, gap: real, width: real) returns (centers: seq<real>)
    ensures |centers| == |widths|
    ensures forall i :: 0 <= i < |widths| ==> centers[i] == LabelLeft(widths, gap, width, i) + widths[i] / 2.0
  {
    var totalW := Sum(widths) + gap * (|widths| as real - 1.0);
    var xPos := (width - totalW) / 2.0;
    centers := [];
    var i := 0;
    while i < |widths|
      invariant 0 <= i <= |widths|
      invariant |centers| == i
      invariant xPos == LabelLeft(widths, gap, width, i)
      invariant forall k :: 0 <= k < i ==> centers[k] == LabelLeft(widths, gap, width, k) + widths[k] / 2.0
    {
      centers := centers + [xPos + widths[i] / 2.0];
      LabelLeftStep(widths, gap, width, i);
      xPos := xPos + widths[i] + gap;
      i := i + 1;
    }
  }

  /** The next left edge is one label and one gap further on. */
  lemma {:induction false} LabelLeftStep(widths: seq<real>, gap: real, width: real, i: nat)
    requires i < |widths|
    ensures LabelLeft(widths, gap, width, i + 1) == LabelLeft(widths, gap, width, i) + widths[i] + gap
  {
    assert widths[..i + 1][..i] == widths[..i];
  }

  /** Consecutive centres are half of each width plus the gap apart. */
  lemma {:induction false} CenterStep(widths: seq<real>, gap: real, width: real, i: nat)
    requires i + 1 < |widths|
    ensures (LabelLeft(widths, gap, width, i + 1) + widths[i + 1] / 2.0)
          - (LabelLeft(widths, gap, width, i) + widths[i] / 2.0)
         == (widths[i] + widths[i + 1]) / 2.0 + gap
  {
    LabelLeftStep(widths, gap, width, i);
  }

  /** The row is centred: the slack left of the first label equals the
      slack right of the last one. */
  lemma {:induction false} RowCentered(widths: seq<real>, gap: real, width: real)
    requires |widths| > 0
    ensures LabelLeft(widths, gap, width, 0) == (width - RowWidth(widths, gap)) / 2.0
    ensures width - (LabelLeft(widths, gap, width, |widths| - 1) + widths[|widths| - 1])
         == LabelLeft(widths, gap, width, 0)
  {
    assert widths[..|widths|] == widths;
    assert widths[..0] == [];
  }

  /** With non-negative widths and a positive gap the centres increase. */
  lemma {:induction false} CentersIncrease(widths: seq<real>, gap: real, width: real, i: nat, j: nat)
    requires forall k :: 0 <= k < |widths| ==> widths[k] >= 0.0
    requires gap > 0.0 && i < j < |widths|
    ensures LabelLeft(widths, gap, width, i) + widths[i] / 2.0 < LabelLeft(widths, gap, width, j) + widths[j] / 2.0
    decreases j - i
  {
    CenterStep(widths, gap, width, i);
    if i + 1 < j {
      CentersIncrease(widths, gap, width, i + 1, j);
    }
  }

  // ---------------------------------------------------------------------
  // homomorphismScene
  // ---------------------------------------------------------------------

  const CONST_COUNT: nat := 3
  const EXAMPLE_DUR: real := 2.5
  const CROSS_FADE: real := 0.3

  /** The type signature: in at `typeSig`, out over the slot's last FADE. */
  function TypeSigAlpha(localT: real, typeSig: real, duration: real): (r: real)
    ensures 0.0 <= r <= 1.0
    ensures r > 0.0 <==> typeSig < localT < duration
  {
    Min(FadeIn(localT, typeSig, typeSig + FADE), FadeOut(localT, duration - FADE, duration))
  }

  /** The constants block exists from `constants` until `mappings`. */
  predicate ConstantsShown(localT: real, constants: real, mappings: real)
  {
    localT >= constants && localT < mappings
  }

  /** The constants block fades out half a second before the mappings. */
  function ConstOut(localT: real, mappings: real): (r: real)
    ensures 0.0 <= r <= 1.0
  {
    FadeOut(localT, mappings - 0.5, mappings - 0.5 + FADE)
  }

  /** Constant i appears 0.2, 0.6 or 1.0 s after `constants`. */
  function ConstAlpha(localT: real, constants: real, mappings: real, i: nat): (r: real)
    requires i < CONST_COUNT
    ensures 0.0 <= r <= ConstOut(localT, mappings)
    ensures r > 0.0 <==> constants + [0.2, 0.6, 1.0][i] < localT < mappings - 0.5 + FADE
    ensures r > 0.0 ==> ConstantsShown(localT, constants, mappings)
  {
    var appear := constants + [0.2, 0.6, 1.0][i];
    var a := FadeIn(localT, appear, appear + FADE);
    var o := ConstOut(localT, mappings);
    ProductInUnit(a, o);
    ProductPositiveIff(a, o);
    a * o
  }

  /** Ring operation i (shown once `localT >= ringOps`): 0.3 s apart,
      starting half a second after `ringOps`. */
  function RingOpAlpha(localT: real, ringOps: real, mappings: real, i: nat): (r: real)
    ensures 0.0 <= r <= ConstOut(localT, mappings)
    ensures r > 0.0 ==> localT > ringOps + 0.5
  {
    var opStart := ringOps + 0.5 + i as real * 0.3;
    var a := FadeIn(localT, opStart, opStart + FADE);
    ProductInUnit(a, ConstOut(localT, mappings));
    a * ConstOut(localT, mappings)
  }

  /** The mapping block exists from `mappings` until the slot has faded. */
  predicate MappingsShown(localT: real, mappings: real, duration: real)
  {
    localT >= mappings && localT < duration + FADE
  }

  /** The `f(x) =` / `f(y) =` prefixes: in over the cross-fade, and drawn
      only before the slot ends. */
  function PrefixAlpha(localT: real, mappings: real): (r: real)
    ensures 0.0 <= r <= 1.0
    ensures r > 0.0 <==> localT > mappings
  {
    FadeIn(localT, mappings, mappings + CROSS_FADE)
  }

  /** The prefixes are drawn while they have faded in and the slot lasts. */
  predicate PrefixDrawn(localT: real, mappings: real, duration: real)
  {
    PrefixAlpha(localT, mappings) > 0.0 && localT < duration
  }

  /** The prefixes show exactly strictly inside (mappings, duration), which
      lies within the mapping block's own window. */
  lemma {:induction false} PrefixDrawnWindow(localT: real, mappings: real, duration: real)
    ensures PrefixDrawn(localT, mappings, duration) <==> mappings < localT < duration
    ensures PrefixDrawn(localT, mappings, duration) ==> MappingsShown(localT, mappings, duration)
  {
  }

  /** Example i of `count` starts 2.5 s after example i - 1; it is skipped
      outside [start, end + 0.3] (None) and otherwise fades in over the
      cross-fade and out over the last cross-fade of its window, the last
      example over the slot's last FADE instead. */
  function ExampleAlpha(localT: real, base: real, i: nat, count: nat, duration: real): (r: Option<real>)
    ensures r.None? <==> localT < base + 2.5 * i as real || localT > base + 2.5 * i as real + 2.8
    ensures r.Some? ==> 0.0 <= r.value <= 1.0
  {
    var start := base + 2.5 * i as real;
    var end := start + EXAMPLE_DUR;
    if localT < start || localT > end + CROSS_FADE then None
    else
      var fadeIn := FadeIn(localT, start, start + CROSS_FADE);
      var fadeOut := if i + 1 < count then FadeOut(localT, end - CROSS_FADE, end)
                     else FadeOut(localT, duration - FADE, duration);
      Some(Min(fadeIn, fadeOut))
  }

  predicate ExampleDrawn(localT: real, base: real, i: nat, count: nat, duration: real)
  {
    var a := ExampleAlpha(localT, base, i, count, duration);
    a.Some? && a.value > 0.0
  }

  /** An example that is not the last is drawn exactly strictly inside its
      2.5-second window; the last one from its start until the slot ends,
      but never past its window plus the cross-fade. */
  lemma {:induction false} ExampleDrawnWindow(localT: real, base: real, i: nat, count: nat, duration: real)
    ensures i + 1 < count ==>
      (ExampleDrawn(localT, base, i, count, duration) <==>
       base + 2.5 * i as real < localT < base + 2.5 * i as real + 2.5)
    ensures i + 1 >= count ==>
      (ExampleDrawn(localT, base, i, count, duration) <==>
       base + 2.5 * i as real < localT <= base + 2.5 * i as real + 2.8 &&
       localT < duration)
  {
  }

  /** The cross-fades never overlap: at most one example is drawn at a
      time. */
  lemma {:induction false} ExamplesExclusive(localT: real, base: real, i: nat, j: nat, count: nat, duration: real)
    requires i < j < count
    requires ExampleDrawn(localT, base, i, count, duration)
    ensures !ExampleDrawn(localT, base, j, count, duration)
  {
    ExampleDrawnWindow(localT, base, i, count, duration);
    assert localT < base + 2.5 * i as real + 2.5;
    assert 2.5 * i as real + 2.5 <= 2.5 * j as real;
  }

  /** In the homomorphism slot as timed (mappings at 9.5 s, four examples,
      20 s), the last example is fully opaque at 19.8 s and skipped just
      after, while the scene is still drawn until 20.15 s: it disappears
      without a fade, 0.2 s before the slot ends and 0.05 s before the
      slot's own fade-out begins. */
  lemma {:induction false} HomLastExampleCut()
    ensures ExampleAlpha(19.8, 9.5, 3, 4, 20.0) == Some(1.0)
    ensures ExampleAlpha(19.81, 9.5, 3, 4, 20.0) == None
    ensures MappingsShown(19.81, 9.5, 20.0)
  {
    assert FadeIn(19.8, 17.0, 17.3) == 1.0;
    assert FadeOut(19.8, 20.0 - FADE, 20.0) == 1.0;
  }

  // ---------------------------------------------------------------------
  // parametricScene and parametric3DScene
  // ---------------------------------------------------------------------

  /** Everything in a section fades out over the slot's last FADE. */
  function SectionOut(localT: real, duration: real): (r: real)
    ensures 0.0 <= r <= 1.0
    ensures r > 0.0 <==> localT < duration
  {
    FadeOut(localT, duration - FADE, duration)
  }

  /** The plot area of the 2D scene (the section alpha of the 3D scene has
      the same formula): in at `plotStart`, out with the section. */
  function PlotAlpha(localT: real, plotStart: real, duration: real): (r: real)
    ensures 0.0 <= r <= 1.0
    ensures r > 0.0 <==> plotStart < localT < duration
  {
    Min(FadeIn(localT, plotStart, plotStart + FADE), SectionOut(localT, duration))
  }

  /** A curve example of either plot scene: its cycling alpha times the
      plot alpha; None when the example is skipped. */
  function PlotExampleAlpha(localT: real, plotStart: real, i: nat, count: nat, duration: real): (r: Option<real>)
    ensures r.None? <==> ExampleAlpha(localT, plotStart, i, count, duration).None?
    ensures r.Some? ==> 0.0 <= r.value <= PlotAlpha(localT, plotStart, duration)
    ensures r.Some? ==> r.value <= ExampleAlpha(localT, plotStart, i, count, duration).value
  {
    var e := ExampleAlpha(localT, plotStart, i, count, duration);
    var p := PlotAlpha(localT, plotStart, duration);
    if e.None? then None
    else
      var a := e.value;
      ProductInUnit(p, a);
      Some(p * a)
  }

  /** The 3D view turns at 0.15 radians per second from azimuth 0.3. */
  function ProjectionAzimuth(localT: real): (r: real)
    ensures localT >= 0.0 ==> r >= 0.3
    ensures r == 0.3 <==> localT == 0.0
  {
    0.3 + 0.15 * localT
  }

  lemma {:induction false} ProjectionTurnsSteadily(s: real, t: real)
    ensures ProjectionAzimuth(t) - ProjectionAzimuth(s) == 0.15 * (t - s)
  {
  }

  // ---------------------------------------------------------------------
  // dualityScene
  // ---------------------------------------------------------------------

  /** The duality cue offsets, relative to the scene start. */
  datatype DualityCues = DualityCues(row2: real, row3: real, row4: real, uniformize: real, row5: real, fadeOut: real)

  const DUALITY_ROW_COUNT: nat := 3
  const UNIFORMIZE_DUR: real := 0.5

  /** Row i appears at 0, row2, row3, row4 or row5. */
  function RowAppear(cues: DualityCues, i: nat): real
    requires i < 5
  {
    [0.0, cues.row2, cues.row3, cues.row4, cues.row5][i]
  }

  /** The whole table fades out over the 0.3 s before `fadeOut`. */
  function TableOut(localT: real, cues: DualityCues): (r: real)
    ensures 0.0 <= r <= 1.0
    ensures r > 0.0 <==> localT < cues.fadeOut
  {
    FadeOut(localT, cues.fadeOut - 0.3, cues.fadeOut)
  }

  /** Progress of the swap from the original to the uniform form; row 4 is
      already general and never swaps. */
  function UniformT(localT: real, cues: DualityCues, i: nat): (r: real)
    ensures 0.0 <= r <= 1.0
    ensures i >= 4 ==> r == 0.0
  {
    if i < 4 then FadeIn(localT, cues.uniformize, cues.uniformize + UNIFORMIZE_DUR) else 0.0
  }

  /** The row's own envelope: its fade-in against the table fade-out. */
  function RowEnvelope(localT: real, cues: DualityCues, i: nat): (r: real)
    requires i < 5
    ensures 0.0 <= r <= 1.0
    ensures r > 0.0 ==> RowConsidered(localT, cues, i)
  {
    Min(FadeIn(localT, RowAppear(cues, i), RowAppear(cues, i) + 0.3), TableOut(localT, cues))
  }

  function OriginalRowAlpha(localT: real, cues: DualityCues, i: nat): (r: real)
    requires i < 5
    ensures 0.0 <= r <= RowEnvelope(localT, cues, i)
  {
    var u := UniformT(localT, cues, i);
    var e := RowEnvelope(localT, cues, i);
    ProductInUnit(e, 1.0 - u);
    assert e * (1.0 - u) <= e;
    e * (1.0 - u)
  }

  function UniformRowAlpha(localT: real, cues: DualityCues, i: nat): (r: real)
    requires i < 5
    ensures 0.0 <= r <= RowEnvelope(localT, cues, i)
  {
    var u := UniformT(localT, cues, i);
    var e := RowEnvelope(localT, cues, i);
    ProductInUnit(u, e);
    assert u * e <= e;
    u * e
  }

  /** The swap conserves opacity: the two forms of a row always add up to
      the row's envelope; row 4 shows only its original form. */
  lemma {:induction false} SwapConservesOpacity(localT: real, cues: DualityCues, i: nat)
    requires i < 5
    ensures OriginalRowAlpha(localT, cues, i) + UniformRowAlpha(localT, cues, i) == RowEnvelope(localT, cues, i)
    ensures i == 4 ==>
      OriginalRowAlpha(localT, cues, i) == RowEnvelope(localT, cues, i) && UniformRowAlpha(localT, cues, i) == 0.0
  {
    var e := RowEnvelope(localT, cues, i);
    var u := UniformT(localT, cues, i);
    assert e * (1.0 - u) + u * e == e;
  }

  /** The table has three rows, so every row that is drawn takes part in
      the swap; the row-4 case (no swap) never arises. */
  lemma {:induction false} DualityRowsAllSwap(localT: real, cues: DualityCues, i: nat)
    requires i < DUALITY_ROW_COUNT
    ensures UniformT(localT, cues, i) == FadeIn(localT, cues.uniformize, cues.uniformize + UNIFORMIZE_DUR)
  {
  }

  /** A row is drawn only once it has appeared (`localT >= rowAppear`). */
  predicate RowConsidered(localT: real, cues: DualityCues, i: nat)
    requires i < 5
  {
    localT >= RowAppear(cues, i)
  }

  /** The closing line "algebra ↔ geometry": in over the 0.3 s after
      `fadeOut`, out with the section. */
  function ClosingAlpha(localT: real, cues: DualityCues, duration: real): (r: real)
    ensures 0.0 <= r <= 1.0
    ensures r > 0.0 <==> cues.fadeOut < localT < duration
  {
    Min(FadeIn(localT, cues.fadeOut, cues.fadeOut + 0.3), SectionOut(localT, duration))
  }

  /** The table and the closing line are never visible together: the
      table is gone by `fadeOut`, and the closing line starts there. */
  lemma {:induction false} TableThenClosing(localT: real, cues: DualityCues, duration: real, i: nat)
    requires i < 5
    ensures RowEnvelope(localT, cues, i) > 0.0 ==> ClosingAlpha(localT, cues, duration) == 0.0
  {
  }
}
