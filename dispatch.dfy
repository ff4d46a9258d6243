/** The scene dispatcher of src/example.ts: the timeline of scenes with
    their captions, the per-frame `animate` loop that decides which scenes
    and captions are painted, and the closed-caption box of `drawCC`.
    Painting is recorded as a log of `Paint` commands in the order they
    are issued; what a scene draws inside its own call is not modelled
    here (its opacity formulas are in module Scenes). */
module Dispatch {
  import opened Common
  import opened Settings
  import Cues

  datatype Caption = Caption(start: real, end: real, text: string)

  /** Which scene an entry draws, with the cue offsets it is built with
      (relative to the entry's start). The timeline builds the
      homomorphism scene without a `ringOps` offset and the duality scene
      without any, so those are not recorded. */
  datatype SceneKind =
    | TitleScene
    | RingsScene(labels: real, polys: real)
    | HomScene(typeSig: real, constants: real, mappings: real)
    | ParamScene(plotStart: real)
    | Param3DScene(plotStart: real)
    | DualityScene

  datatype Entry = Entry(start: real, scene: SceneKind, captions: Option<seq<Caption>>)

  /** One canvas command, tagged with the timeline entry that issued it. */
  datatype Paint =
    | Background(width: real, height: real)
    | SceneDraw(entry: nat, localT: real, duration: real)
    | CaptionBox(entry: nat, x: real, y: real, w: real, h: real)
    | CaptionLine(entry: nat, text: string, x: real, y: real)

  const TIMELINE: seq<Entry> := [
    Entry(0.0, TitleScene, None),
    Entry(3.0, RingsScene(0.5, 3.0), Some(RINGS_CAPTIONS)),
    Entry(10.0, HomScene(0.5, 7.0, 9.5), Some(HOM_CAPTIONS)),
    Entry(30.0, ParamScene(0.5), Some(PARAM_CAPTIONS)),
    Entry(40.0, Param3DScene(0.5), Some(PARAM3D_CAPTIONS)),
    Entry(50.0, DualityScene, Some(DUALITY_CAPTIONS))
  ]

  const RINGS_CAPTIONS: seq<Caption> := [
    Caption(0.0, 2.0, "Let's talk about real polynomial rings."),
    Caption(2.0, 4.5, "The elements of a polynomial ring\nare all the polynomials we can write down"),
    Caption(4.5, 7.0, "over a particular set of variables,\nwith real coefficients.")
  ]

  const HOM_CAPTIONS: seq<Caption> := [
    Caption(0.0, 2.5, "What are the nice functions\nbetween these rings?"),
    Caption(2.5, 4.0, "Let's consider an example."),
    Caption(4.0, 6.5, "What are some nice functions\nfrom R[x,y] to R[t]?"),
    Caption(6.5, 9.0, "I'm being intentionally a bit vague\nabout what \"nice\" means."),
    Caption(9.0, 11.5, "Let's say that being a nice function means\nat least that you map any constant to itself."),
    Caption(11.5, 14.0, "Let's also say that a nice function\nneeds to be a ring homomorphism:"),
    Caption(14.0, 15.5, "it respects all the ring operations."),
    Caption(15.5, 17.5, "In that case the only freedom we have left\nis deciding what x and y get mapped to,"),
    Caption(17.5, 19.0, "because once we decide that, everything else\nfollows from ring operation preservation."),
    Caption(19.0, 20.0, "So a nice function from R[x,y] to R[t]\namounts to making only two choices:")
  ]

  const PARAM_CAPTIONS: seq<Caption> := [
    Caption(0.0, 3.5, "Notice that this is the same thing as\ndescribing a parameterized curve in the plane."),
    Caption(3.5, 7.0, "We're giving for each time t a polynomial function\nthat tells us what the x and y values should be at that time.")
  ]

  const PARAM3D_CAPTIONS: seq<Caption> := [
    Caption(0.0, 4.0, "If we had asked about nice functions\nfrom R[x,y,z] to R[t],"),
    Caption(4.0, 8.0, "we would have found that they\nare parameterized curves in 3D space.")
  ]

  const DUALITY_CAPTIONS: seq<Caption> := [
    Caption(0.0, 3.0, "So maps from R[x,y] to R[t] tell us\nhow to map a one-dimensional line into the two-dimensional plane,"),
    Caption(3.0, 5.0, "and maps from R[x,y,z] to R[t]\ntell us how to map a line into 3D space."),
    Caption(5.0, 8.0, "It's a nice exercise to change the number of variables\non both sides of the function and see what happens."),
    Caption(8.0, 11.0, "For example, maps from R[x,y] to just R are\nmere points in the plane,"),
    Caption(11.0, 13.0, "and maps from R[x,y,z] to R[t,u] are\ntwo-dimensional polynomial surfaces in 3D space."),
    Caption(13.0, 15.0, "There's a general pattern happening here:"),
    Caption(15.0, 17.5, "Algebraically nice maps from a ring with n variables\nto a ring with p variables correspond to"),
    Caption(17.5, 19.0, "geometrically nice maps going the other direction,\nfrom p-dimensional space to n-dimensional space."),
    Caption(19.0, 20.0, "This is a small tip of a deep iceberg:\nthe duality between algebra and geometry.")
  ]

  // ---------------------------------------------------------------------
  // Entry timing
  // ---------------------------------------------------------------------

  /** An entry lasts until the next entry's start; the last one until the
      end of the animation. */
  function Duration(timeline: seq<Entry>, total: real, i: nat): (d: real)
    requires i < |timeline|
    ensures i + 1 < |timeline| ==> timeline[i].start + d == timeline[i + 1].start
    ensures i + 1 == |timeline| ==> timeline[i].start + d == total
  {
    (if i < |timeline| - 1 then timeline[i + 1].start else total) - timeline[i].start
  }

  /** Entry i's scene is drawn from its start through the FADE grace period
      after its slot. */
  predicate Drawn(timeline: seq<Entry>, total: real, t: real, i: nat)
    requires i < |timeline|
  {
    var localT := t - timeline[i].start;
    0.0 <= localT < Duration(timeline, total, i) + FADE
  }

  /** Entry i's captions are drawn only within its slot, without grace. */
  predicate CaptionsShown(timeline: seq<Entry>, total: real, t: real, i: nat)
    requires i < |timeline|
  {
    var localT := t - timeline[i].start;
    timeline[i].captions.Some? && 0.0 <= localT < Duration(timeline, total, i)
  }

  predicate StartsIncreasing(timeline: seq<Entry>)
  {
    forall i, j :: 0 <= i < j < |timeline| ==> timeline[i].start < timeline[j].start
  }

  // ---------------------------------------------------------------------
  // Captions
  // ---------------------------------------------------------------------

  predicate Matches(c: Caption, localT: real)
  {
    c.start <= localT < c.end
  }

  /** `captions.find(...)`: the first caption whose window holds `localT`. */
  function FindCaption(captions: seq<Caption>, localT: real): (r: Option<Caption>)
    ensures r.Some? ==> r.value in captions && Matches(r.value, localT)
    ensures r.None? <==> forall k :: 0 <= k < |captions| ==> !Matches(captions[k], localT)
  {
    if captions == [] then None
    else if Matches(captions[0], localT) then Some(captions[0])
    else FindCaption(captions[1..], localT)
  }

  /** The caption found is the first one that matches. */
  lemma {:induction false} FindCaptionFirst(captions: seq<Caption>, localT: real, k: nat)
    requires k < |captions| && Matches(captions[k], localT)
    requires forall j :: 0 <= j < k ==> !Matches(captions[j], localT)
    ensures FindCaption(captions, localT) == Some(captions[k])
  {
    if k > 0 {
      assert !Matches(captions[0], localT);
      FindCaptionFirst(captions[1..], localT, k - 1);
    }
  }

  /** With pairwise disjoint windows the caption found is the only one
      that matches. */
  lemma {:induction false} FindCaptionUnique(captions: seq<Caption>, localT: real, k: nat)
    requires forall i, j :: 0 <= i < j < |captions| ==> captions[i].end <= captions[j].start
    requires k < |captions| && Matches(captions[k], localT)
    ensures FindCaption(captions, localT) == Some(captions[k])
  {
    FindCaptionFirst(captions, localT, k);
  }

  /** `text.split('\n')`. */
  function SplitLines(s: string): (lines: seq<string>)
    ensures |lines| >= 1
    decreases |s|
  {
    if s == [] then [""]
    else
      var rest := SplitLines(s[1..]);
      if s[0] == '\n' then [""] + rest else [[s[0]] + rest[0]] + rest[1..]
  }

  /** `lines.join('\n')`. */
  function JoinLines(lines: seq<string>): string
    requires |lines| >= 1
    decreases |lines|
  {
    if |lines| == 1 then lines[0] else lines[0] + "\n" + JoinLines(lines[1..])
  }

  function NewlineCount(s: string): nat
  {
    if s == [] then 0 else (if s[0] == '\n' then 1 else 0) + NewlineCount(s[1..])
  }

  /** Splitting loses nothing: joining the lines back gives the text, the
      lines hold no newline, and there is one line more than newlines. */
  lemma {:induction false} SplitLinesRoundTrip(s: string)
    ensures JoinLines(SplitLines(s)) == s
    ensures |SplitLines(s)| == NewlineCount(s) + 1
    ensures forall i :: 0 <= i < |SplitLines(s)| ==> '\n' !in SplitLines(s)[i]
    decreases |s|
  {
    if s != [] {
      var rest := SplitLines(s[1..]);
      SplitLinesRoundTrip(s[1..]);
      if s[0] == '\n' {
        assert SplitLines(s)[1..] == rest;
      } else {
        var lines := SplitLines(s);
        if |rest| == 1 {
          assert JoinLines(lines) == [s[0]] + rest[0];
        } else {
          assert lines[1..] == rest[1..];
          assert JoinLines(rest) == rest[0] + "\n" + JoinLines(rest[1..]);
        }
        assert [s[0]] + s[1..] == s;
        forall i | 0 <= i < |lines| ensures '\n' !in lines[i] {
          if i > 0 { assert lines[i] == rest[i]; }
        }
      }
    }
  }

  /** Height of the caption box for `n` lines: 44 px per line and 12 px
      of padding above and below. */
  function BoxHeight(n: nat): real
  {
    n as real * 44.0 + 12.0 * 2.0
  }

  /** Top of the caption box: its bottom sits 80 px above the canvas
      bottom. */
  function BoxTop(n: nat, height: real): real
  {
    height - 80.0 - BoxHeight(n)
  }

  /** Baseline (text bottom) of caption line i. */
  function LineBottom(boxY: real, i: nat): real
  {
    boxY + 12.0 + (i + 1) as real * 44.0
  }

  /** What `drawCC` paints: nothing when captions are off or none matches;
      otherwise the box, then the lines top to bottom. */
  function CCPaints(entry: nat, localT: real, captions: seq<Caption>, width: real, height: real): (r: seq<Paint>)
    ensures r == [] <==> !SHOW_CC || FindCaption(captions, localT).None?
    ensures r != [] ==> |r| == 1 + |SplitLines(FindCaption(captions, localT).value.text)|
    ensures forall k :: 0 <= k < |r| ==>
      (r[k].CaptionBox? || r[k].CaptionLine?) && r[k].entry == entry && (r[k].CaptionBox? <==> k == 0)
  {
    if !SHOW_CC then []
    else match FindCaption(captions, localT)
      case None => []
      case Some(c) =>
        var lines := SplitLines(c.text);
        var boxY := BoxTop(|lines|, height);
        [CaptionBox(entry, width / 2.0 - 600.0, boxY, 1200.0, BoxHeight(|lines|))]
        + LinePaints(entry, lines, width, boxY, |lines|)
  }

  /** The commands for the first n lines, top to bottom. */
  function LinePaints(entry: nat, lines: seq<string>, width: real, boxY: real, n: nat): (r: seq<Paint>)
    requires n <= |lines|
    ensures |r| == n
    ensures forall k :: 0 <= k < n ==> r[k].CaptionLine? && r[k].entry == entry
  {
    if n == 0 then []
    else
      var front := LinePaints(entry, lines, width, boxY, n - 1);
      var r := front + [CaptionLine(entry, lines[n - 1], width / 2.0, LineBottom(boxY, n - 1))];
      assert forall k :: 0 <= k < n - 1 ==> r[k] == front[k];
      r
  }

  /** Command i writes line i, centred, on baseline i. */
  lemma {:induction false} LinePaintsAt(entry: nat, lines: seq<string>, width: real, boxY: real, n: nat)
    requires n <= |lines|
    ensures forall i :: 0 <= i < n ==>
      LinePaints(entry, lines, width, boxY, n)[i] == CaptionLine(entry, lines[i], width / 2.0, LineBottom(boxY, i))
  {
    if n > 0 {
      LinePaintsAt(entry, lines, width, boxY, n - 1);
    }
  }

  /** `drawCC`: find the caption, split it into lines, paint the box and
      then each line. */
  method DrawCC(entry: nat, localT: real, captions: seq<Caption>, width: real, height: real) returns (paints: seq<Paint>)
    ensures paints == CCPaints(entry, localT, captions, width, height)
  {
    paints := [];
    if !SHOW_CC {
      return;
    }
    var caption := FindCaption(captions, localT);
    if caption.None? {
      return;
    }
    var lines := SplitLines(caption.value.text);
    var boxHeight := |lines| as real * 44.0 + 12.0 * 2.0;
    var boxY := height - 80.0 - boxHeight;
    assert boxHeight == BoxHeight(|lines|) && boxY == BoxTop(|lines|, height);
    var box := CaptionBox(entry, width / 2.0 - 600.0, boxY, 1200.0, boxHeight);
    paints := [box];
    var i := 0;
    while i < |lines|
      invariant 0 <= i <= |lines|
      invariant paints == [box] + LinePaints(entry, lines, width, boxY, i)
    {
      var line := CaptionLine(entry, lines[i], width / 2.0, boxY + 12.0 + (i + 1) as real * 44.0);
      assert LinePaints(entry, lines, width, boxY, i + 1) == LinePaints(entry, lines, width, boxY, i) + [line];
      paints := paints + [line];
      i := i + 1;
    }
  }

  /** The box is horizontally centred, its bottom is 80 px above the
      canvas bottom, and every line's 44-px band lies inside the box's
      padding. */
  lemma {:induction false} CaptionBoxLayout(entry: nat, localT: real, captions: seq<Caption>, width: real, height: real)
    requires FindCaption(captions, localT).Some?
    ensures var p := CCPaints(entry, localT, captions, width, height);
      var n := |SplitLines(FindCaption(captions, localT).value.text)|;
      |p| == n + 1 && p[0].CaptionBox? &&
      p[0].w == 1200.0 && p[0].h == BoxHeight(n) &&
      p[0].x + p[0].w / 2.0 == width / 2.0 &&
      p[0].y + p[0].h == height - 80.0 &&
      forall i :: 1 <= i < |p| ==>
        p[i].CaptionLine? && p[0].y + 12.0 <= p[i].y - 44.0 && p[i].y <= p[0].y + p[0].h - 12.0
  {
    var lines := SplitLines(FindCaption(captions, localT).value.text);
    var n := |lines|;
    var p := CCPaints(entry, localT, captions, width, height);
    forall i | 1 <= i < |p|
      ensures p[i].CaptionLine? && p[0].y + 12.0 <= p[i].y - 44.0 && p[i].y <= p[0].y + p[0].h - 12.0
    {
      LinePaintsAt(entry, lines, width, p[0].y, n);
      assert p[i] == LinePaints(entry, lines, width, p[0].y, n)[i - 1];
      assert (i - 1 + 1) as real <= n as real;
    }
  }

  // ---------------------------------------------------------------------
  // The dispatcher
  // ---------------------------------------------------------------------

  /** What entry i contributes to a frame: its scene, then its captions. */
  function EntryPaints(timeline: seq<Entry>, total: real, t: real, i: nat): seq<Paint>
    requires i < |timeline|
  {
    ScenePaints(timeline, total, t, i) + CaptionPaints(timeline, total, t, i)
  }

  /** The scene call of entry i, when it is due. */
  function ScenePaints(timeline: seq<Entry>, total: real, t: real, i: nat): (r: seq<Paint>)
    requires i < |timeline|
    ensures |r| <= 1
    ensures r != [] <==> 0.0 <= t - timeline[i].start < Duration(timeline, total, i) + FADE
    ensures r != [] ==>
      r[0].SceneDraw? && r[0].entry == i && r[0].localT == t - timeline[i].start && r[0].duration == Duration(timeline, total, i)
  {
    if Drawn(timeline, total, t, i) then [SceneDraw(i, t - timeline[i].start, Duration(timeline, total, i))] else []
  }

  /** The caption commands of entry i, when its captions are due. */
  function CaptionPaints(timeline: seq<Entry>, total: real, t: real, i: nat): (r: seq<Paint>)
    requires i < |timeline|
    ensures r != [] ==> timeline[i].captions.Some? && 0.0 <= t - timeline[i].start < Duration(timeline, total, i)
    ensures CaptionsShown(timeline, total, t, i) ==>
      (r == [] <==> FindCaption(timeline[i].captions.value, t - timeline[i].start).None?)
    ensures forall k :: 0 <= k < |r| ==> (r[k].CaptionBox? || r[k].CaptionLine?) && r[k].entry == i
  {
    if CaptionsShown(timeline, total, t, i)
    then CCPaints(i, t - timeline[i].start, timeline[i].captions.value, WIDTH, HEIGHT) else []
  }

  /** The contributions of entries 0 to n - 1, one per entry. */
  function Steps(timeline: seq<Entry>, total: real, t: real, n: nat): (r: seq<seq<Paint>>)
    requires n <= |timeline|
    ensures |r| == n
    ensures forall i :: 0 <= i < n ==> r[i] == EntryPaints(timeline, total, t, i)
  {
    seq(n, i requires 0 <= i < n => EntryPaints(timeline, total, t, i))
  }

  /** The steps one after another. */
  function Flatten(steps: seq<seq<Paint>>): seq<Paint>
  {
    if steps == [] then [] else Flatten(steps[..|steps| - 1]) + steps[|steps| - 1]
  }

  /** The contributions of entries 0 to n - 1, in timeline order. */
  function PaintsUpTo(timeline: seq<Entry>, total: real, t: real, n: nat): (r: seq<Paint>)
    requires n <= |timeline|
    ensures OwnedBefore(r, n)
    ensures InTimelineOrder(r)
  {
    var steps := Steps(timeline, total, t, n);
    StepsShaped(timeline, total, t, n);
    FlattenOwned(steps);
    FlattenOrdered(steps);
    Flatten(steps)
  }

  /** One more entry's contribution. */
  lemma {:induction false} PaintsUpToNext(timeline: seq<Entry>, total: real, t: real, n: nat)
    requires n < |timeline|
    ensures PaintsUpTo(timeline, total, t, n + 1) == PaintsUpTo(timeline, total, t, n) + EntryPaints(timeline, total, t, n)
  {
    assert Steps(timeline, total, t, n + 1)[..n] == Steps(timeline, total, t, n);
  }

  /** One pass of the `animate` loop: entry i's scene, then its captions,
      each only when due. */
  method DrawEntry(timeline: seq<Entry>, total: real, t: real, i: nat) returns (step: seq<Paint>)
    requires i < |timeline|
    ensures step == EntryPaints(timeline, total, t, i)
  {
    var scene := DrawScene(timeline, total, t, i);
    var cc := DrawCaptions(timeline, total, t, i);
    step := scene + cc;
  }

  /** The scene call of an entry: from its start through the grace period
      after its slot. */
  method DrawScene(timeline: seq<Entry>, total: real, t: real, i: nat) returns (scene: seq<Paint>)
    requires i < |timeline|
    ensures scene == ScenePaints(timeline, total, t, i)
  {
    var entry := timeline[i];
    var duration := (if i < |timeline| - 1 then timeline[i + 1].start else total) - entry.start;
    var localT := t - entry.start;
    assert duration == Duration(timeline, total, i);
    scene := [];
    if localT >= 0.0 && localT < duration + FADE {
      scene := [SceneDraw(i, localT, duration)];
    }
  }

  /** The captions of an entry: only within its slot, and only when it has
      captions. */
  method DrawCaptions(timeline: seq<Entry>, total: real, t: real, i: nat) returns (cc: seq<Paint>)
    requires i < |timeline|
    ensures cc == CaptionPaints(timeline, total, t, i)
  {
    var entry := timeline[i];
    var duration := (if i < |timeline| - 1 then timeline[i + 1].start else total) - entry.start;
    var localT := t - entry.start;
    assert duration == Duration(timeline, total, i);
    cc := [];
    if entry.captions.Some? && localT >= 0.0 && localT < duration {
      cc := DrawCC(i, localT, entry.captions.value, WIDTH, HEIGHT);
    }
  }

  /** `animate(ctx, t)` over a timeline and the animation's total length
      (the program passes TIMELINE and `config.duration`): clear to the
      background, then for each entry in order draw its scene and then its
      captions when they are due. */
  method Animate(timeline: seq<Entry>, total: real, t: real) returns (paints: seq<Paint>)
    ensures paints == [Background(WIDTH, HEIGHT)] + PaintsUpTo(timeline, total, t, |timeline|)
  {
    paints := [Background(WIDTH, HEIGHT)];
    var i := 0;
    while i < |timeline|
      invariant 0 <= i <= |timeline|
      invariant paints == [Background(WIDTH, HEIGHT)] + PaintsUpTo(timeline, total, t, i)
    {
      var step := DrawEntry(timeline, total, t, i);
      AppendAssoc([Background(WIDTH, HEIGHT)], PaintsUpTo(timeline, total, t, i), step);
      PaintsUpToNext(timeline, total, t, i);
      paints := paints + step;
      i := i + 1;
    }
  }

  lemma {:induction false} AppendAssoc(a: seq<Paint>, b: seq<Paint>, c: seq<Paint>)
    ensures (a + b) + c == a + (b + c)
  {
  }

  /** The entry a command belongs to; the background comes before all. */
  function Owner(p: Paint): int
  {
    if p.Background? then -1 else p.entry
  }

  /** The commands of one entry i: all tagged i, the scene call (if any)
      first. */
  predicate StepShaped(step: seq<Paint>, i: nat)
  {
    forall k :: 0 <= k < |step| ==>
      !step[k].Background? && step[k].entry == i && (k > 0 ==> !step[k].SceneDraw?)
  }

  /** Commands all issued by entries before n. */
  predicate OwnedBefore(ps: seq<Paint>, n: nat)
  {
    forall k :: 0 <= k < |ps| ==> !ps[k].Background? && ps[k].entry < n
  }

  /** Owners never decrease, and a scene call is preceded only by commands
      of earlier entries. */
  predicate InTimelineOrder(ps: seq<Paint>)
  {
    forall a, b :: 0 <= a < b < |ps| ==>
      Owner(ps[a]) <= Owner(ps[b]) && (ps[b].SceneDraw? ==> Owner(ps[a]) < Owner(ps[b]))
  }

  lemma {:induction false} EntryPaintsShape(timeline: seq<Entry>, total: real, t: real, i: nat)
    requires i < |timeline|
    ensures StepShaped(EntryPaints(timeline, total, t, i), i)
  {
    var sp := ScenePaints(timeline, total, t, i);
    var cp := CaptionPaints(timeline, total, t, i);
    var step := sp + cp;
    forall k | 0 <= k < |step|
      ensures !step[k].Background? && step[k].entry == i && (k > 0 ==> !step[k].SceneDraw?)
    {
      if k >= |sp| { assert step[k] == cp[k - |sp|]; }
    }
  }

  lemma {:induction false} AppendOwned(prev: seq<Paint>, step: seq<Paint>, n: nat)
    requires OwnedBefore(prev, n) && StepShaped(step, n)
    ensures OwnedBefore(prev + step, n + 1)
  {
    var ps := prev + step;
    forall k | 0 <= k < |ps|
      ensures !ps[k].Background? && ps[k].entry < n + 1
    {
      if k >= |prev| { assert ps[k] == step[k - |prev|]; }
    }
  }

  lemma {:induction false} AppendOrdered(prev: seq<Paint>, step: seq<Paint>, n: nat)
    requires InTimelineOrder(prev) && OwnedBefore(prev, n) && StepShaped(step, n)
    ensures InTimelineOrder(prev + step)
  {
    var ps := prev + step;
    forall a, b | 0 <= a < b < |ps|
      ensures Owner(ps[a]) <= Owner(ps[b]) && (ps[b].SceneDraw? ==> Owner(ps[a]) < Owner(ps[b]))
    {
      if b < |prev| {
        assert ps[a] == prev[a] && ps[b] == prev[b];
      } else if a < |prev| {
        assert ps[a] == prev[a] && ps[b] == step[b - |prev|];
      } else {
        assert ps[a] == step[a - |prev|] && ps[b] == step[b - |prev|];
      }
    }
  }

  /** Every step i is shaped as entry i's commands. */
  predicate AllShaped(steps: seq<seq<Paint>>)
  {
    forall i :: 0 <= i < |steps| ==> StepShaped(steps[i], i)
  }

  lemma {:induction false} StepsShaped(timeline: seq<Entry>, total: real, t: real, n: nat)
    requires n <= |timeline|
    ensures AllShaped(Steps(timeline, total, t, n))
  {
    forall i | 0 <= i < n ensures StepShaped(Steps(timeline, total, t, n)[i], i) {
      EntryPaintsShape(timeline, total, t, i);
    }
  }

  lemma {:induction false} FlattenOwned(steps: seq<seq<Paint>>)
    requires AllShaped(steps)
    ensures OwnedBefore(Flatten(steps), |steps|)
  {
    if steps != [] {
      var init := steps[..|steps| - 1];
      assert forall i :: 0 <= i < |init| ==> init[i] == steps[i];
      FlattenOwned(init);
      AppendOwned(Flatten(init), steps[|steps| - 1], |steps| - 1);
    }
  }

  lemma {:induction false} FlattenOrdered(steps: seq<seq<Paint>>)
    requires AllShaped(steps)
    ensures InTimelineOrder(Flatten(steps))
  {
    if steps != [] {
      var init := steps[..|steps| - 1];
      assert forall i :: 0 <= i < |init| ==> init[i] == steps[i];
      FlattenOrdered(init);
      FlattenOwned(init);
      AppendOrdered(Flatten(init), steps[|steps| - 1], |steps| - 1);
    }
  }

  /** A command of entry i occurs in the flattened steps exactly when it
      occurs in step i. */
  lemma {:induction false} FlattenMember(steps: seq<seq<Paint>>, d: Paint)
    requires AllShaped(steps) && !d.Background? && d.entry < |steps|
    ensures d in Flatten(steps) <==> d in steps[d.entry]
  {
    var last := |steps| - 1;
    var init := steps[..last];
    assert forall i :: 0 <= i < |init| ==> init[i] == steps[i];
    if d.entry < last {
      FlattenMember(init, d);
      NotInOtherStep(steps[last], last, d);
    } else {
      FlattenOwned(init);
      NotInEarlier(Flatten(init), last, d);
    }
  }

  /** The frame opens with the background fill, and nothing else fills the
      background. */
  lemma {:induction false} BackgroundFirst(t: real)
    ensures ([Background(WIDTH, HEIGHT)] + PaintsUpTo(TIMELINE, DURATION, t, |TIMELINE|))[0] == Background(WIDTH, HEIGHT)
    ensures forall k :: 0 < k < |[Background(WIDTH, HEIGHT)] + PaintsUpTo(TIMELINE, DURATION, t, |TIMELINE|)| ==>
      !([Background(WIDTH, HEIGHT)] + PaintsUpTo(TIMELINE, DURATION, t, |TIMELINE|))[k].Background?
  {
  }

  /** A scene draw is issued exactly for the entries that are due, with
      the entry's local time and duration. */
  lemma {:induction false} SceneDrawnExactly(timeline: seq<Entry>, total: real, t: real, n: nat, i: nat)
    requires i < n <= |timeline|
    ensures SceneDraw(i, t - timeline[i].start, Duration(timeline, total, i)) in PaintsUpTo(timeline, total, t, n)
        <==> Drawn(timeline, total, t, i)
  {
    StepsShaped(timeline, total, t, n);
    FlattenMember(Steps(timeline, total, t, n), SceneDraw(i, t - timeline[i].start, Duration(timeline, total, i)));
    SceneOfOwnEntry(timeline, total, t, i);
  }

  lemma {:induction false} NotInOtherStep(step: seq<Paint>, i: nat, d: Paint)
    requires StepShaped(step, i) && !d.Background? && d.entry != i
    ensures d !in step
  {
  }

  lemma {:induction false} NotInEarlier(prev: seq<Paint>, n: nat, d: Paint)
    requires OwnedBefore(prev, n) && !d.Background? && d.entry == n
    ensures d !in prev
  {
  }

  /** Entry i's own commands hold its scene call exactly when it is due. */
  lemma {:induction false} SceneOfOwnEntry(timeline: seq<Entry>, total: real, t: real, i: nat)
    requires i < |timeline|
    ensures SceneDraw(i, t - timeline[i].start, Duration(timeline, total, i)) in EntryPaints(timeline, total, t, i)
        <==> Drawn(timeline, total, t, i)
  {
    var d := SceneDraw(i, t - timeline[i].start, Duration(timeline, total, i));
    var cp := CaptionPaints(timeline, total, t, i);
    assert d !in cp;
  }

  /** When starts increase, the captions of at most one entry are shown at
      any time. */
  lemma {:induction false} CaptionsExclusive(timeline: seq<Entry>, total: real, t: real, i: nat, j: nat)
    requires StartsIncreasing(timeline)
    requires i < j < |timeline|
    requires CaptionsShown(timeline, total, t, i)
    ensures !CaptionsShown(timeline, total, t, j)
  {
    if i + 1 < j {
      assert timeline[i + 1].start < timeline[j].start;
    }
  }

  // ---------------------------------------------------------------------
  // The timeline as given
  // ---------------------------------------------------------------------

  /** The entries start at 0, 3, 10, 30, 40 and 50 s and last 3, 7, 20,
      10, 10 and 20 s. */
  lemma {:induction false} TimelineDurations()
    ensures StartsIncreasing(TIMELINE)
    ensures |TIMELINE| == 6
    ensures Duration(TIMELINE, DURATION, 0) == 3.0 && Duration(TIMELINE, DURATION, 1) == 7.0
    ensures Duration(TIMELINE, DURATION, 2) == 20.0 && Duration(TIMELINE, DURATION, 3) == 10.0
    ensures Duration(TIMELINE, DURATION, 4) == 10.0 && Duration(TIMELINE, DURATION, 5) == 20.0
  {
  }

  /** Caption windows that are non-empty and each end no later than the
      next one starts. */
  predicate Successive(cs: seq<Caption>)
  {
    (forall k :: 0 <= k < |cs| ==> cs[k].start < cs[k].end) &&
    (forall k :: 0 <= k < |cs| - 1 ==> cs[k].end <= cs[k + 1].start)
  }

  /** Successive windows are pairwise disjoint, so `FindCaptionUnique`
      applies to them. */
  lemma {:induction false} SuccessiveDisjoint(cs: seq<Caption>, a: nat, b: nat)
    requires Successive(cs) && a < b < |cs|
    ensures cs[a].end <= cs[b].start
    decreases b - a
  {
    if a + 1 < b {
      SuccessiveDisjoint(cs, a + 1, b);
    }
  }

  /** The caption windows of an entry lasting `d`: successive, from 0 on,
      and all within the slot. */
  predicate CaptionsFit(cs: seq<Caption>, d: real)
  {
    Successive(cs) && |cs| > 0 && 0.0 <= cs[0].start && cs[|cs| - 1].end <= d
  }

  /** Every entry's captions fit its slot; those of the rings, homomorphism
      and duality scenes run to the slot's end. */
  lemma {:induction false} TimelineCaptionsFit()
    ensures forall i :: 0 <= i < |TIMELINE| && TIMELINE[i].captions.Some? ==>
      CaptionsFit(TIMELINE[i].captions.value, Duration(TIMELINE, DURATION, i))
    ensures RINGS_CAPTIONS[|RINGS_CAPTIONS| - 1].end == 7.0
    ensures HOM_CAPTIONS[|HOM_CAPTIONS| - 1].end == 20.0
    ensures DUALITY_CAPTIONS[|DUALITY_CAPTIONS| - 1].end == 20.0
  {
    TimelineDurations();
    ShortCaptionsFit();
    HomCaptionsFit();
    DualityCaptionsFit();
  }

  lemma {:induction false} ShortCaptionsFit()
    ensures CaptionsFit(RINGS_CAPTIONS, 7.0)
    ensures CaptionsFit(PARAM_CAPTIONS, 10.0)
    ensures CaptionsFit(PARAM3D_CAPTIONS, 10.0)
  {
  }

  lemma {:induction false} HomCaptionsFit()
    ensures CaptionsFit(HOM_CAPTIONS, 20.0)
  {
    var cs := HOM_CAPTIONS;
    assert |cs| == 10;
    assert forall k :: 0 <= k < 5 ==> cs[k].start < cs[k].end;
    assert forall k :: 5 <= k < 10 ==> cs[k].start < cs[k].end;
    assert forall k :: 0 <= k < 5 ==> cs[k].end <= cs[k + 1].start;
    assert forall k :: 5 <= k < 9 ==> cs[k].end <= cs[k + 1].start;
  }

  lemma {:induction false} DualityCaptionsFit()
    ensures CaptionsFit(DUALITY_CAPTIONS, 20.0)
  {
  }

  /** Hence each shown caption of the timeline is the only one whose window
      holds the local time. */
  lemma {:induction false} TimelineCaptionUnique(i: nat, localT: real, k: nat)
    requires i < |TIMELINE| && TIMELINE[i].captions.Some?
    requires k < |TIMELINE[i].captions.value| && Matches(TIMELINE[i].captions.value[k], localT)
    ensures FindCaption(TIMELINE[i].captions.value, localT) == Some(TIMELINE[i].captions.value[k])
  {
    TimelineCaptionsFit();
    var cs := TIMELINE[i].captions.value;
    assert Successive(cs);
    forall a, b | 0 <= a < b < |cs| ensures cs[a].end <= cs[b].start {
      SuccessiveDisjoint(cs, a, b);
    }
    FindCaptionUnique(cs, localT, k);
  }

  /** The scene starts are the declared `scene-*` cue defaults;
      `Cues.DefaultAt` turns each into a fact about the defaults map. */
  lemma {:induction false} TimelineStartsMatchCues()
    ensures Cues.CUE_DEFS[1].id == "scene-title" && Cues.CUE_DEFS[1].defaultTime == TIMELINE[0].start
    ensures Cues.CUE_DEFS[2].id == "scene-rings" && Cues.CUE_DEFS[2].defaultTime == TIMELINE[1].start
    ensures Cues.CUE_DEFS[5].id == "scene-hom" && Cues.CUE_DEFS[5].defaultTime == TIMELINE[2].start
    ensures Cues.CUE_DEFS[9].id == "scene-param" && Cues.CUE_DEFS[9].defaultTime == TIMELINE[3].start
  {
  }

  /** The later scene starts and the animation length (`config.duration`
      against `anim-end`). */
  lemma {:induction false} TimelineEndMatchesCues()
    ensures Cues.CUE_DEFS[11].id == "scene-param3d" && Cues.CUE_DEFS[11].defaultTime == TIMELINE[4].start
    ensures Cues.CUE_DEFS[13].id == "scene-duality" && Cues.CUE_DEFS[13].defaultTime == TIMELINE[5].start
    ensures Cues.CUE_DEFS[20].id == "anim-end" && Cues.CUE_DEFS[20].defaultTime == DURATION
  {
  }

  /** The cue offsets the timeline passes to the rings and homomorphism
      scenes are the declared cue defaults minus the scene's start. */
  lemma {:induction false} TimelineOffsetsMatchCues()
    ensures Cues.CUE_DEFS[3].id == "rings-labels" && Cues.CUE_DEFS[3].defaultTime == TIMELINE[1].start + TIMELINE[1].scene.labels
    ensures Cues.CUE_DEFS[4].id == "rings-polys" && Cues.CUE_DEFS[4].defaultTime == TIMELINE[1].start + TIMELINE[1].scene.polys
    ensures Cues.CUE_DEFS[6].id == "hom-typeSig" && Cues.CUE_DEFS[6].defaultTime == TIMELINE[2].start + TIMELINE[2].scene.typeSig
    ensures Cues.CUE_DEFS[7].id == "hom-constants" && Cues.CUE_DEFS[7].defaultTime == TIMELINE[2].start + TIMELINE[2].scene.constants
  {
  }

  /** The same for the mapping cue and the two plot starts. */
  lemma {:induction false} TimelinePlotOffsetsMatchCues()
    ensures Cues.CUE_DEFS[8].id == "hom-mappings" && Cues.CUE_DEFS[8].defaultTime == TIMELINE[2].start + TIMELINE[2].scene.mappings
    ensures Cues.CUE_DEFS[10].id == "param-plotStart" && Cues.CUE_DEFS[10].defaultTime == TIMELINE[3].start + TIMELINE[3].scene.plotStart
    ensures Cues.CUE_DEFS[12].id == "param3d-plotStart" && Cues.CUE_DEFS[12].defaultTime == TIMELINE[4].start + TIMELINE[4].scene.plotStart
  {
  }
}
