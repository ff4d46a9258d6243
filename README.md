# janim timing core in Dafny

janim is a small TypeScript library for programmatic animations. A scene
is drawn by a function of time. The library plays it in the browser or
renders it to numbered PNG frames under Node, and caches TeX formulas
converted once through MathJax. Its example animation is a timeline of six
scenes with closed captions, whose cue times can be overridden and stored.
This project models the parts of it that decide *what is drawn when and
where*, and proves properties of them:

- `Janim` (janim.dfy): `lerp`, the quadratic `easeInOut`, `timeSlice` and
  `parseDimension`, with `parseFloat`: leading white space, a sign, a
  decimal numeral and an exponent part, the rest of the text ignored.
- `Playback` (playback.dfy): the controller `runInBrowser` returns, as a
  class whose fields are the closure's variables: playing, current time,
  last timestamp, resolution, and the renders issued so far. It has the
  frame callback and `play`, `pause`, `seek` and `setResolution`.
- `Frames` (frames.dfy): the frame loop of `renderToFrames`. This covers
  which scene times are rendered and the file name of each frame.
- `Tex` (tex.dfy): the prepare-before-use cache of `TexRenderer` as a class.
  It has `prepare`, `measure` and where `draw` puts a formula. MathJax is a
  function parameter that yields the size attributes it writes.
- `Cues` (cues.dfy): the cue store as a class. It covers the defaults, the
  load at start-up from stored entries, `getCue`, `setCue` and `save`, and
  the declared cue table.
- `Scenes` (scenes.dfy): the opacity and timing formulas of every scene, and
  the loop that lays out the ring labels.
- `Dispatch` (dispatch.dfy): the scene timeline. It covers `animate`, which
  records the canvas commands it issues, and `drawCC` for captions.
- `Plot` (plot.dfy): fitting the fixed 2D and 3D viewports (imperative, with
  a class for the running extent), `plotToCanvas` and which axis lines and
  labels are drawn.
- `Strip` (strip.dfy): the caption clean-up script. It deletes `[!word]`
  markers, deletes spaces at line ends, collapses blank-line runs, trims the
  text and ends it with one newline.

Numbers are `real`. A JavaScript result that would be `NaN` is `None` of an
`Option`, and so is the empty extent that starts at ±Infinity. Drawing is
modelled as the sequence of commands issued (what, where, with what
opacity), not as pixels.

## Model

| member | source | states |
|---|---|---|
| Janim.Lerp | src/janim.ts:296-298 | gives `a` at t = 0 and `b` at t = 1, and stays between them for t in [0,1] |
| Janim.EaseInOut | src/janim.ts:300-304 | maps [0,1] into [0,1] |
| Janim.EaseHalves | src/janim.ts:300-304 | the branch below 0.5 stays in [0, 0.5] and the other in [0.5, 1], strictly inside away from the ends |
| Janim.EaseInOutFixedPoints | src/janim.ts:300-304 | 0, 0.5 and 1 are fixed |
| Janim.EaseInOutSymmetric | src/janim.ts:300-304 | E(1 - t) = 1 - E(t) for every t |
| Janim.EaseInOutMonotone | src/janim.ts:300-304 | non-decreasing on [0,1] |
| Janim.EaseInOutStrict | src/janim.ts:300-304 | on [0,1] the value is 0 only at 0 and 1 only at 1 |
| Janim.TimeSlice | src/janim.ts:306-311 | result in [0,1]; 0 exactly when t <= start; 1 exactly when start < t and t >= end; otherwise the proportion (t - start)/(end - start) |
| Janim.TimeSliceMonotone | src/janim.ts:307-311 | non-decreasing in t for any interval |
| Janim.Pow2Bounds | src/janim.ts:303 | `Math.pow(x, 2)` is non-negative, positive for x > 0, and at most 1 on [0,1] |
| Janim.ParseFloatDefined | src/janim.ts:35 | `parseFloat` yields a number exactly when, after the leading white space and an optional sign, the text starts with a digit or with a point and a digit; the number is <= 0 after a minus sign and >= 0 otherwise |
| Janim.ParseFloatTrimmed | src/janim.ts:35 | `parseFloat` skips the leading ECMAScript white space and reads what follows it |
| Janim.ParseFloatSkipsSpace | src/janim.ts:35 | any white space put in front of a string leaves its `parseFloat` unchanged |
| Janim.ParseFloatReadsNumeral | src/janim.ts:35 | a signed decimal numeral followed by text that does not extend it reads as the numeral's value scaled by the exponent part at the head of that text, if any |
| Janim.ParseFloatIgnoresUnit | src/janim.ts:35 | a signed decimal numeral followed by a unit with no exponent part reads as exactly the numeral's value |
| Janim.ParseDimension | src/janim.ts:34-39 | defined exactly when `parseFloat` is; for a value ending in "ex" it is the number times 8, otherwise the number itself |
| Janim.ParseDimensionUnits | src/janim.ts:34-39 | "…ex" gives the number times 8 px; "…px" gives the number itself |
| Janim.ParseDimensionSkipsSpace | src/janim.ts:34-39 | " 2ex" is 16 px |
| Janim.ParseDimensionExponents | src/janim.ts:34-39 | the exponent is read before the unit: "1e3ex" is 8000 px and "-1.5e-1px" is -0.15 px |
| Playback.SeekTarget | src/janim.ts:238 | `seek` lands in [0, duration]: t itself inside, 0 below, duration above |
| Playback.Advance | src/janim.ts:205-209 | the first frame after a reset keeps the time; later frames add the elapsed seconds, and an overshoot lands exactly on duration; never going back |
| Playback.FramesStayInRange | src/janim.ts:205-209 | from a time in [0, duration], any run of frames with non-decreasing timestamps keeps the time in [current, duration] |
| Playback.SeekClampsExamples | src/janim.ts:237-240 | seeking before the start gives 0; seeking past the end gives duration |
| Playback.Controller.constructor | src/janim.ts:183-192 | starts playing at time 0, without a timestamp, at the configured resolution, with nothing rendered |
| Playback.Controller.IsPlaying | src/janim.ts:249 | reports playing, which the invariant ties to a frame being pending |
| Playback.Controller.CurrentTime | src/janim.ts:250 | the reported time lies in [0, duration], as the invariant keeps it |
| Playback.Controller.Frame | src/janim.ts:205-220 | for timestamps that do not go backwards: advances the time, never back, renders once at it, stops playing once the end is reached and re-requests a frame only while playing; keeps the invariant |
| Playback.Controller.Play | src/janim.ts:225-231 | no effect while playing; otherwise resumes and restarts a finished animation from 0 |
| Playback.Controller.Pause | src/janim.ts:232-236 | stops, cancels the pending frame and forgets the timestamp; the time stays |
| Playback.Controller.Seek | src/janim.ts:237-241 | sets the clamped time, forgets the timestamp and renders once, playing or not |
| Playback.Controller.SetResolution | src/janim.ts:242-248 | sets the output size and renders at once only when paused |
| Frames.Ceil | src/janim.ts:268 | `Math.ceil`: the least integer not below x |
| Frames.DecimalString | src/janim.ts:281 | `String(i)`: a non-empty digit string without a leading zero |
| Frames.PadStartZeros | src/janim.ts:281 | `padStart(w, '0')`: the string keeps its place at the end, with zeros in front up to width w |
| Frames.FrameName | src/janim.ts:281 | a name is `frame_`, then digits, then `.png`, at least 15 characters long |
| Frames.FrameCount | src/janim.ts:268-274 | no frame when duration * fps is -1 or less; otherwise ceil(duration * fps) + 1 frames: the last index is the least integer not below duration * fps |
| Frames.Schedule | src/janim.ts:274-281 | n frames; frame i shows scene time i / fps under the name of frame i |
| Frames.RenderToFrames | src/janim.ts:267-287 | the loop renders frames 0 to ceil(duration * fps), with fps defaulting to 30 |
| Frames.LastFrameCoversDuration | src/janim.ts:268 | at least one frame; the last is at or after the end, by less than one frame interval |
| Frames.FiveSecondsAtDefaultRate | src/janim.ts:289 | 5 s at the default 30 fps gives 151 frames |
| Frames.DecimalStringValue | src/janim.ts:281 | the decimal digits read back to the number |
| Frames.FrameNameRoundTrip | src/janim.ts:281 | the number read from a frame's file name is its index |
| Frames.FrameNamesDistinct | src/janim.ts:281 | distinct frames get distinct files, so none is overwritten |
| Frames.FrameNameLength | src/janim.ts:281 | below 100000 frames every name is 15 characters long: five digits between `frame_` and `.png` |
| Frames.FrameNameExamples | src/janim.ts:281 | frames 0 and 42 are `frame_00000.png` and `frame_00042.png` |
| Tex.SizeOf | src/janim.ts:73-76 | a missing `width` is 100 px and a missing `height` 50 px; a present one is NaN exactly when `parseFloat` cannot read it, and otherwise its number, times 8 when it ends in "ex" |
| Tex.UncachedSpec | src/janim.ts:98-101 | exactly the listed expressions not yet cached are converted, each once, and nothing when all are cached |
| Tex.PreparedSpec | src/janim.ts:98-124 | preparing adds exactly the listed expressions, keeps every cached entry, and gives new ones the converted size |
| Tex.TexRenderer.constructor | src/janim.ts:53-62 | starts with an empty cache and no conversions |
| Tex.TexRenderer.Prepare | src/janim.ts:95-126 | the new cache and conversion log are those of the specification functions, and every listed expression can be measured afterwards |
| Tex.TexRenderer.Measure | src/janim.ts:156-160 | succeeds exactly for a prepared expression and returns its cached size; otherwise the "TeX not prepared" error |
| Tex.TexRenderer.Draw | src/janim.ts:135-139 | fails exactly when `measure` would; otherwise the formula is placed at (x, y) with its size times scale |
| Cues.DefaultsOf | src/cues.ts:29 | every declared id is a key, and every key is declared |
| Cues.DefaultsOfValue | src/cues.ts:29 | with distinct ids, each id maps to its own default time |
| Cues.LoadFilter | src/cues.ts:37-41 | only declared keys are loaded |
| Cues.LoadFilterKeeps | src/cues.ts:37-41 | the stored object holds each key once; a key is loaded exactly when it is declared and its entry is a number, and it is loaded with that number |
| Cues.Loaded | src/cues.ts:33-43 | only declared keys are loaded, and nothing when nothing is stored |
| Cues.LoadOverrides | src/cues.ts:37-41 | the load loop computes the load filter |
| Cues.RepresentsOnAppend | src/cues.ts:47 | writing one more override keeps the object a faithful copy of the overrides written so far |
| Cues.WriteStep | src/cues.ts:46-47 | one pass of the copy loop writes its key unless it is `__proto__`, and the object stays a faithful copy of the keys passed so far |
| Cues.CueStore.constructor | src/cues.ts:29-43 | defaults from the cue table; overrides are the filtered stored entries, or none when nothing is stored |
| Cues.CueStore.GetCue | src/cues.ts:51-53 | the override if set, else the default, else 0 |
| Cues.CueStore.Save | src/cues.ts:45-49 | stores an object listing each override once with its number, except a `__proto__` key, which a plain object never takes as its own property; overrides unchanged |
| Cues.CueStore.SetCue | src/cues.ts:55-58 | the cue now reads the new time, every other cue reads as before, and the store is saved with every override but `__proto__` |
| Cues.SaveLoadRoundTrip | src/cues.ts:38 | loading what `save` wrote gives back exactly the overrides of declared cues |
| Cues.SetCueSurvivesReload | src/cues.ts:55-58 | after `setCue` and a reload a declared cue reads back the time set |
| Cues.ProtoKeyUndeclared | src/cues.ts:3-29 | no declared cue is called `__proto__`, so the key `save` cannot write costs no declared override |
| Cues.CueIdsDistinct | src/cues.ts:3-25 | the declared cue ids are distinct |
| Cues.DefaultAt | src/cues.ts:29 | each declared cue's default is its declared time |
| Cues.CueTimesOrdered | src/cues.ts:3-25 | default times never decrease, from `anim-begin` at 0 to `anim-end` at 70 |
| Scenes.FadeIn | src/scenes.ts:33 | in [0,1]; 0 exactly until the start, 1 exactly from the end on |
| Scenes.FadeOut | src/scenes.ts:34 | in [0,1]; 1 exactly until the start, 0 exactly from the end on |
| Scenes.FadeInMonotone | src/scenes.ts:33 | fade-ins never decrease over time |
| Scenes.FadeOutAntitone | src/scenes.ts:34 | fade-outs never increase over time |
| Scenes.TitleAlpha | src/scenes.ts:33-35 | the title's opacity lies in [0,1] |
| Scenes.TitleDrawnWithinSlot | src/scenes.ts:33-36 | the title is drawn exactly strictly inside its slot |
| Scenes.TitleInvisibleOutside | src/scenes.ts:33-35 | opacity 0 at and before 0 and at and after the slot end |
| Scenes.TitleFullyOpaque | src/scenes.ts:33-35 | fully opaque between the two fades |
| Scenes.TitleRisesThenFalls | src/scenes.ts:33-35 | brightens until the fade-out starts, and dims after the fade-in ends |
| Scenes.PhaseOut | src/scenes.ts:54 | the rings scene's phase-out lies in [0,1] |
| Scenes.PhaseOutSpan | src/scenes.ts:54 | 1 through the slot, 0 after the grace FADE, positive exactly before then |
| Scenes.LabelAppear | src/scenes.ts:73 | label i appears 0.5 s after label i - 1 |
| Scenes.PolyAppear | src/scenes.ts:86-91 | polynomial j of group g appears at polys + 0.5 g + 0.4 j |
| Scenes.RingItemAlpha | src/scenes.ts:75-76 | a ring item's opacity lies in [0,1] and never exceeds the phase-out |
| Scenes.RingItemDrawn | src/scenes.ts:92-94 | an item is drawn exactly from its appearance until the scene has faded |
| Scenes.LabelCenters | src/scenes.ts:65-70 | the layout loop puts each label centre at its left edge plus half its width |
| Scenes.LabelLeftStep | src/scenes.ts:69 | each left edge is one label and one gap after the previous |
| Scenes.CenterStep | src/scenes.ts:65-70 | consecutive centres are half of each width plus the gap apart |
| Scenes.RowCentered | src/scenes.ts:59-66 | the row is centred: equal slack at both sides |
| Scenes.CentersIncrease | src/scenes.ts:65-70 | with non-negative widths and a positive gap the centres increase from left to right |
| Scenes.TypeSigAlpha | src/scenes.ts:107-110 | in [0,1]; positive exactly after the type-signature cue and before the slot end |
| Scenes.ConstOut | src/scenes.ts:119 | the constants' fade-out lies in [0,1] |
| Scenes.ConstAlpha | src/scenes.ts:118-129 | bounded by the constants' fade-out; positive exactly between the constant's own time and the end of that fade-out, which lies inside the block's guard |
| Scenes.RingOpAlpha | src/scenes.ts:140-143 | bounded by the constants' fade-out; never positive before the ring-ops cue plus 0.5 s |
| Scenes.PrefixAlpha | src/scenes.ts:174-175 | in [0,1]; positive exactly after the mappings cue |
| Scenes.PrefixDrawnWindow | src/scenes.ts:153-175 | the prefixes are drawn exactly strictly between the mappings cue and the slot end, inside the mapping block's guard |
| Scenes.ExampleAlpha | src/scenes.ts:183-194 | an example is skipped exactly outside its window [start, end + cross-fade]; otherwise its opacity lies in [0,1] |
| Scenes.ExampleDrawnWindow | src/scenes.ts:183-196 | a middle example is drawn exactly strictly inside its window; the last one until the slot end |
| Scenes.ExamplesExclusive | src/scenes.ts:183-196 | at most one example is drawn at any time |
| Scenes.HomLastExampleCut | src/scenes.ts:188 | with the timeline's cues, the last mapping example is fully opaque at 19.8 s and skipped at 19.81 s, while its block is still shown |
| Scenes.SectionOut | src/scenes.ts:211 | in [0,1]; positive exactly before the slot end |
| Scenes.PlotAlpha | src/scenes.ts:256-257 | in [0,1]; positive exactly between the plot start and the slot end |
| Scenes.PlotExampleAlpha | src/scenes.ts:279-283 | skipped exactly when its example is; never more opaque than the plot area or its own cycle |
| Scenes.ProjectionAzimuth | src/scenes.ts:350-351 | 0.3 rad exactly at time 0, and at least 0.3 for non-negative time |
| Scenes.ProjectionTurnsSteadily | src/scenes.ts:350-351 | the view turns at 0.15 rad per second |
| Scenes.TableOut | src/scenes.ts:449 | in [0,1]; positive exactly before the fade-out cue |
| Scenes.UniformT | src/scenes.ts:459 | swap progress in [0,1]; 0 for row 4 and beyond |
| Scenes.RowEnvelope | src/scenes.ts:453-462 | a row's envelope lies in [0,1], and is positive only once the row has appeared, so the skip guard hides no visible row |
| Scenes.OriginalRowAlpha | src/scenes.ts:462 | the original form is bounded by the row's envelope |
| Scenes.UniformRowAlpha | src/scenes.ts:475-476 | the uniform form is bounded by the row's envelope |
| Scenes.SwapConservesOpacity | src/scenes.ts:459-476 | the two forms of a row always add up to its envelope; row 4 keeps its original form |
| Scenes.DualityRowsAllSwap | src/scenes.ts:452-459 | every row drawn (three rows) is one that swaps to the uniform form |
| Scenes.ClosingAlpha | src/scenes.ts:525-527 | in [0,1]; positive exactly between the fade-out cue and the slot end |
| Scenes.TableThenClosing | src/scenes.ts:449-527 | while any table row is visible the closing line is not |
| Dispatch.Duration | src/example.ts:241 | an entry lasts until the next entry's start; the last one until the animation's end |
| Dispatch.FindCaption | src/example.ts:206 | returns a caption of the list whose window holds the time, or nothing exactly when none does |
| Dispatch.FindCaptionFirst | src/example.ts:206 | the first matching caption is the one found |
| Dispatch.FindCaptionUnique | src/example.ts:206 | with successive windows, the one caption matching is the one found |
| Dispatch.SplitLines | src/example.ts:209 | `split('\n')` gives at least one line |
| Dispatch.SplitLinesRoundTrip | src/example.ts:209 | joining the lines gives the text back; one line more than newlines; no line holds a newline |
| Dispatch.CCPaints | src/example.ts:198-227 | nothing is painted exactly when captions are off or no caption's window holds the time; otherwise the box comes first and then one line command per line of the caption, all tagged with the entry |
| Dispatch.LinePaints | src/example.ts:224-226 | one line command per line, each tagged with the entry |
| Dispatch.LinePaintsAt | src/example.ts:224-226 | line i is written centred at boxY + 12 + 44 (i + 1) |
| Dispatch.DrawCC | src/example.ts:198-227 | the caption loop issues exactly the caption commands of the specification function |
| Dispatch.CaptionBoxLayout | src/example.ts:215-225 | one box 1200 wide at the centre, 80 px above the bottom, of height `BoxHeight(n)` (44 per line plus 12 above and below); one text line per caption line, each inside the box |
| Dispatch.ScenePaints | src/example.ts:241-245 | at most one command: the scene call, exactly when the local time lies in [0, duration + FADE), with that local time and the entry's duration |
| Dispatch.CaptionPaints | src/example.ts:241-249 | caption commands only for an entry with captions and within its slot [0, duration); within it, nothing exactly when no caption matches; every command is a box or a line of that entry |
| Dispatch.PaintsUpToNext | src/example.ts:239-250 | each loop step appends its entry's commands |
| Dispatch.DrawEntry | src/example.ts:240-249 | one loop step issues its scene's and its captions' commands |
| Dispatch.DrawScene | src/example.ts:241-245 | a scene is drawn exactly from its start through its slot plus FADE, with its local time and slot length |
| Dispatch.DrawCaptions | src/example.ts:247-249 | captions are drawn only within the slot, and only for an entry that has them |
| Dispatch.Animate | src/example.ts:235-251 | the background, then every entry's commands in timeline order |
| Dispatch.EntryPaintsShape | src/example.ts:243-249 | an entry's commands are its own: at most one scene draw, first, then captions |
| Dispatch.PaintsUpTo | src/example.ts:239-250 | after n entries every command belongs to an entry before n, and commands come in timeline order, each scene draw after everything of earlier entries |
| Dispatch.BackgroundFirst | src/example.ts:236-237 | the background is the first command of a frame, and no later command is a background |
| Dispatch.SceneDrawnExactly | src/example.ts:241-245 | an entry's scene is drawn in a frame exactly when its time window holds t |
| Dispatch.CaptionsExclusive | src/example.ts:247 | with increasing starts, captions of two entries are never shown at the same time |
| Dispatch.TimelineDurations | src/example.ts:131-192 | the six scene slots last 3, 7, 20, 10, 10 and 20 s, with increasing starts |
| Dispatch.TimelineCaptionsFit | src/example.ts:131-192 | every entry's captions are successive, non-empty windows from 0 on inside its slot; those of the rings, homomorphism and duality slots end exactly at the slot end |
| Dispatch.TimelineCaptionUnique | src/example.ts:206 | in the timeline, any caption whose window holds the time is the one drawn |
| Dispatch.TimelineStartsMatchCues | src/example.ts:131-160 | the title, rings, homomorphism and 2D plot scenes start at their declared cues |
| Dispatch.TimelineEndMatchesCues | src/example.ts:102-107 | the 3D and duality scenes start at their cues, and the animation lasts until `anim-end` |
| Dispatch.TimelineOffsetsMatchCues | src/example.ts:138-150 | the rings and homomorphism cue offsets are the declared defaults minus the scene start |
| Dispatch.TimelinePlotOffsetsMatchCues | src/example.ts:150-171 | so are the mapping cue and the two plot starts |
| Plot.SampleTime | src/plot.ts:20 | sample 0 is at t0 and sample 200 at t1, all within [t0, t1] |
| Plot.SamplesEvenlySpaced | src/plot.ts:20 | successive samples are (t1 - t0)/200 apart |
| Plot.SamplePoints | src/plot.ts:18-21 | 201 points, the curve at each sample time, from its start to its end |
| Plot.AllSamples | src/plot.ts:18-19 | 201 points per curve |
| Plot.ProjectedSamples | src/plot.ts:137-140 | 201 projected points of a 3D curve, one per sample time |
| Plot.AllProjectedSamples | src/plot.ts:137-140 | 201 projected points per 3D curve |
| Plot.AxisEnds | src/plot.ts:146-150 | the projections of the six axis ends at ±6 |
| Plot.BoundsOf | src/plot.ts:17-26 | no box exactly for no points; otherwise an ordered box |
| Plot.BoundsContain | src/plot.ts:22-25 | every point lies inside its bounding box |
| Plot.BoundsAttained | src/plot.ts:22-25 | each side of the bounding box is touched by a point |
| Plot.Widen | src/plot.ts:28-29 | an axis under 0.01 wide grows by exactly 1 on each side; a wider one is unchanged; the box only grows |
| Plot.Pad | src/plot.ts:30-32 | same centre, 1.3 times the size, strictly larger when non-degenerate |
| Plot.Extend | src/plot.ts:22-25 | the box after one more point holds that point and everything the old box held, and each side is either the old side or the point's coordinate; the first point gives the box of that point alone |
| Plot.Fit | src/plot.ts:28-32 | a viewport exists exactly when there are bounds; from ordered bounds it is proper and holds every point of the bounds strictly inside |
| Plot.FitEncloses | src/plot.ts:17-32 | the fitted viewport exists exactly for some points; it is proper and holds every point strictly inside |
| Plot.Extent.constructor | src/plot.ts:17 | starts with the empty extent |
| Plot.Extent.Include | src/plot.ts:129-134 | extends the running extent by one point |
| Plot.Extent.Fitted | src/plot.ts:28-32 | widening and padding the extent gives the fitted viewport |
| Plot.IncludeSamples | src/plot.ts:19-26 | the sample loop makes the extent the bounds of everything so far plus the curve's samples |
| Plot.ComputeFixedViewport | src/plot.ts:15-33 | the viewport is the fit of the bounds of all samples |
| Plot.IncludeProjectedSamples | src/plot.ts:138-142 | the same for a projected 3D curve |
| Plot.IncludeAxisEnds | src/plot.ts:146-150 | the axis-end loop adds the six projected axis ends |
| Plot.ComputeFixedViewport3D | src/plot.ts:125-157 | the 3D viewport is the fit of all projected samples plus the axis ends |
| Plot.ViewportEnclosesSamples | src/plot.ts:15-33 | the 2D viewport exists exactly with curves, is proper and holds every sample strictly inside |
| Plot.Viewport3DEnclosesSamples | src/plot.ts:125-157 | the 3D viewport is proper and holds every projected sample and axis end strictly inside |
| Plot.SampleCurve | src/plot.ts:276-282 | the stroked polyline has 201 points, the curve's samples |
| Plot.ToCanvasX | src/plot.ts:38 | NaN exactly when the viewport has no width |
| Plot.ToCanvasY | src/plot.ts:39 | NaN exactly when the viewport has no height |
| Plot.CanvasCorners | src/plot.ts:35-40 | the viewport's corners go to the plot rectangle's corners, y flipped |
| Plot.CanvasAffine | src/plot.ts:35-40 | the mapping preserves linear interpolation |
| Plot.CanvasMonotone | src/plot.ts:35-40 | x increases rightwards and y upwards on the canvas |
| Plot.PlotAxes | src/plot.ts:56-88 | each axis line and label is drawn exactly when 0 lies within the viewport's range, at the canvas position of 0; the x line, the y line, the x label and the y label come in that order |
| Plot.AxesWithinRect | src/plot.ts:56-69 | drawn axes lie within the plot rectangle |
| Strip.StripMarkers | scripts/strip.js:10 | never lengthens the text, and leaves text with no `[!` in it unchanged |
| Strip.TrimLineEnds | scripts/strip.js:11 | never lengthens the text, and keeps its first character when that is not a space |
| Strip.CollapseNewlines | scripts/strip.js:12 | keeps the first character of the text when that is not a newline |
| Strip.StripCaptions | scripts/strip.js:9-13 | the output ends in a newline |
| Strip.WhitespaceConcat | scripts/strip.js:13 | a concatenation is all white space exactly when both parts are |
| Strip.MarkerOfWord | scripts/strip.js:10 | `[!word]` is a marker, taking one following space with it |
| Strip.MarkerIsWord | scripts/strip.js:10 | only `[!`, a word and `]` form a marker |
| Strip.MarkerDeleted | scripts/strip.js:10 | a marker and one following space are deleted, the rest kept |
| Strip.TrimLineEndsClean | scripts/strip.js:11 | afterwards no line ends in a space |
| Strip.TrimLineEndsKeeps | scripts/strip.js:11 | text with no trailing spaces is unchanged |
| Strip.TrimLineEndsWhitespace | scripts/strip.js:11 | text of white space alone stays white space |
| Strip.TrimLineEndsOnlySpaces | scripts/strip.js:11 | only spaces are deleted: with spaces removed, input and output are equal |
| Strip.CollapseNoTriple | scripts/strip.js:12 | afterwards no three newlines are in a row |
| Strip.CollapseKeeps | scripts/strip.js:12 | text without three newlines in a row is unchanged |
| Strip.CollapseKeepsNoTrailingSpace | scripts/strip.js:12 | collapsing does not bring spaces to line ends |
| Strip.CollapseWhitespace | scripts/strip.js:12 | text of white space alone stays white space |
| Strip.CollapseOnlyNewlines | scripts/strip.js:12 | only newlines are deleted or written: with newlines removed, input and output are equal |
| Strip.RunCollapsed | scripts/strip.js:12 | a run of three or more newlines becomes exactly two |
| Strip.TrimStart | scripts/strip.js:13 | drops the leading white space and nothing else |
| Strip.TrimEnd | scripts/strip.js:13 | drops the trailing white space and nothing else |
| Strip.Trim | scripts/strip.js:13 | no white space at either end; all white space gives nothing |
| Strip.TrimClean | scripts/strip.js:13 | trimmed text is unchanged by trimming |
| Strip.Finish | scripts/strip.js:13 | the output ends in a newline |
| Strip.FinishClean | scripts/strip.js:13 | the finish keeps the clean-up's guarantees and adds a single final newline |
| Strip.CleanLinesClean | scripts/strip.js:10-12 | after the three replacements no line ends in a space and no three newlines are in a row |
| Strip.StripCaptionsClean | scripts/strip.js:9-13 | the output starts with no white space, has no trailing spaces or blank-line runs, and ends in its only final newline |
| Strip.StripAllWhitespace | scripts/strip.js:9-13 | text made of white space comes out as a single newline |
| Strip.StripCleanText | scripts/strip.js:9-13 | already clean text comes out unchanged, plus a newline |

## Left out

- Painting itself (fonts, colours, fills, `globalAlpha` state, `save`/`restore` and scaling of the canvas) is not modelled. A draw is recorded as a command carrying what is drawn, where, and with what opacity.
- MathJax, `texToSvg` and its SVG string manipulation (`%WIDTH%` placeholders, `viewBox`) are not modelled. The converter is a function parameter returning the `width`/`height` attributes; `parseDimension` and the 100 x 50 fallback are modelled.
- Tex.TexRenderer.Prepare: only a `prepare` that resolves is modelled. When the browser image fails to load (src/janim.ts:116-120) or the Node import fails (src/janim.ts:105), the source rejects, keeping the expressions cached before the failing one; the model does not capture that path.
- Tex.TexRenderer.Draw: only the placement and size are modelled, not the Node supersampling or the browser image loading; the default `scale = 1` is not modelled, callers pass 1.0.
- `TexRenderer.measure().baseline` and `markerPositions` are not modelled. The scenes use them for baseline alignment and the duality arrows, so those positions are left out.
- The asynchronous `await`s, `requestAnimationFrame` and `cancelAnimationFrame` are not modelled. Timestamps are parameters, and the pending frame is a boolean field.
- PNG encoding, `fs` writes and directory creation are not modelled. `renderToFrames` returns its schedule of (time, file name) frames.
- The `i % fps` progress log and the final console line are not modelled.
- Frames.RenderToFrames: requires a positive frame rate. With a rate of 0 the source renders one frame at time NaN, and with a negative rate it may render none; neither is modelled.
- `localStorage`, `JSON.parse` and `JSON.stringify` are not modelled. Stored data is the list of (key, value) entries of the parsed object, each key once, whose values are a number or something else, and a parse failure is "nothing stored". A key repeated in the stored text is settled by `JSON.parse` (the last value wins) before the load sees it, so that case is not modelled separately.
- The setup call (`tex.prepare` of every expression the scenes use) and the expression constants of src/example.ts are not modelled; only the cache behaviour is.
- `easeOutBack` (the constants' slide) and the horizontal positions of the homomorphism scene are left out; only opacities and the ring-label layout are modelled.
- The ring-label widths come from `tex.measure` and are a parameter of Scenes.LabelCenters; `drawTexCentered` is not modelled.
- `DUALITY_ROWS_UNIFORM` and the Bézier arrows of row 4 are not modelled. Scenes.DualityRowsAllSwap records that, with three rows, the row-4 branch is never reached.
- The timeline builds the homomorphism scene without a `ringOps` offset and the duality scene without any cue argument (src/example.ts:147, 179). What those scenes then do with the missing values is not modelled. Their formulas take the offsets as parameters, and the timeline does not record them.
- Scenes.HomLastExampleCut: the last mapping example of the homomorphism slot ends at 19.8 s, before the slot end at 20 s, so it disappears without its fade-out. The model records this as the code is written.
- `createProjection` (trigonometry and perspective division) is not modelled. The projection is a function parameter, and the viewport facts hold for any projection.
- `draw3DAxes` and `draw3DParametricCurve` are not modelled, nor is the stroke of `drawParametricCurve`; only its sampled polyline is.
- Plot.ToCanvasX and Plot.ToCanvasY: a division by zero (a viewport of zero width or height) gives `None` instead of `NaN` or ±Infinity.
- Plot.ComputeFixedViewport: with no curves the source returns a viewport built from ±Infinity (`NaN` widths); the model returns `None`.
- Plot.AxesWithinRect: requires a proper viewport and a rectangle of non-negative size.
- Plot.PlotAxes: the label sizes come from `tex.measure` and are parameters.
- `NaN` and infinite numbers in general are not modelled; reals are exact.
- Janim.ParseFloat: the spellings "Infinity", "+Infinity" and "-Infinity" give `None` rather than an infinite number, and an exponent too large for a double gives an exact real rather than Infinity or 0.
- Strip: reading CAPTIONS and writing CAPTIONS.txt, and the console line, are not modelled. Characters are Unicode scalar values: an astral character, two UTF-16 code units in JavaScript, is one character here, which none of the four rewrites can tell apart; `\w` is ASCII letters, digits and `_`.
- src/browser.ts, src/render.ts and vite.config.ts are not part of this model (page wiring, the Node entry point and build configuration).
