/** The frame schedule of `renderToFrames` (src/janim.ts): which scene
    times are rendered and under which file names. The canvas, the PNG
    encoding and the file system are not modelled. */
module Frames {
  import opened Common
  import opened Janim

  /** One rendered frame: the scene time it shows and its file name. */
  datatype FrameOut = FrameOut(t: real, name: string)

  const DEFAULT_FPS: real := 30.0

  /** `Math.ceil`. */
  function Ceil(x: real): (n: int)
    ensures x <= n as real < x + 1.0
  {
    -((-x).Floor)
  }

  /** The character of one decimal digit. */
  function DigitChar(d: nat): (c: char)
    requires d < 10
    ensures IsDigit(c) && DigitValue(c) == d
  {
    ('0' as int + d) as char
  }

  /** `String(n)` for a natural number: its decimal digits, no leading
      zero. */
  function DecimalString(n: nat): (s: string)
    ensures |s| > 0 && AllDigits(s)
    ensures n > 0 ==> s[0] != '0'
    decreases n
  {
    if n < 10 then [DigitChar(n)]
    else DecimalString(n / 10) + [DigitChar(n % 10)]
  }

  /** `s.padStart(width, '0')`: zeros in front up to `width` characters;
      a longer string is left as it is. */
  function PadStartZeros(s: string, width: nat): (r: string)
    ensures |r| == if |s| < width then width else |s|
    ensures r[|r| - |s|..] == s
    ensures forall i :: 0 <= i < |r| - |s| ==> r[i] == '0'
  {
    if |s| < width then Zeros(width - |s|) + s else s
  }

  function Zeros(k: nat): string
  {
    seq(k, _ => '0')
  }

  /** "frame_", the index in decimal padded with zeros to five places, ".png". */
  function FrameName(i: nat): (r: string)
    ensures |r| >= 15 && r[..6] == "frame_" && r[|r| - 4..] == ".png"
    ensures AllDigits(r[6..|r| - 4])
  {
    var d := DecimalString(i);
    var p := PadStartZeros(d, 5);
    assert AllDigits(p) by {
      forall k | 0 <= k < |p|
        ensures IsDigit(p[k])
      {
        if k >= |p| - |d| {
          assert p[k] == p[|p| - |d|..][k - (|p| - |d|)];
        }
      }
    }
    var r := "frame_" + p + ".png";
    assert r[6..|r| - 4] == p;
    r
  }

  /** Number of frames rendered: frames 0 to `Math.ceil(duration * fps)`
      inclusive, none when that bound is negative. */
  function FrameCount(duration: real, fps: real): (r: nat)
    ensures duration * fps <= -1.0 ==> r == 0
    ensures duration * fps > -1.0 ==>
      r >= 1 && duration * fps <= (r - 1) as real < duration * fps + 1.0
  {
    var total := Ceil(duration * fps);
    if total >= 0 then total + 1 else 0
  }

  /** Frame i shows scene time i / fps. */
  function ScheduledFrame(i: nat, fps: real): FrameOut
    requires fps > 0.0
  {
    FrameOut(i as real / fps, FrameName(i))
  }

  /** The first n frames of the schedule at `fps`: frame i shows scene
      time i / fps under the name of frame i. */
  function Schedule(n: nat, fps: real): (r: seq<FrameOut>)
    requires fps > 0.0
    ensures |r| == n
    ensures forall i :: 0 <= i < n ==> r[i].t == i as real / fps && r[i].name == FrameName(i)
  {
    if n == 0 then []
    else
      var earlier := Schedule(n - 1, fps);
      var r := earlier + [ScheduledFrame(n - 1, fps)];
      assert forall i :: 0 <= i < n - 1 ==> r[i] == earlier[i];
      r
  }

  /** The frame loop: frames 0 to `Math.ceil(duration * fps)`, fps being
      30 unless given. */
  method RenderToFrames(duration: real, fps: Option<real>) returns (frames: seq<FrameOut>)
    requires fps.Some? ==> fps.value > 0.0
    ensures frames == Schedule(FrameCount(duration, if fps.Some? then fps.value else DEFAULT_FPS),
                               if fps.Some? then fps.value else DEFAULT_FPS)
  {
    var f := if fps.Some? then fps.value else DEFAULT_FPS;
    var totalFrames := Ceil(duration * f);
    frames := [];
    var i := 0;
    while i <= totalFrames
      invariant 0 <= i <= if totalFrames >= 0 then totalFrames + 1 else 0
      invariant frames == Schedule(i, f)
      decreases totalFrames - i
    {
      ScheduleStep(i, f);
      frames := frames + [ScheduledFrame(i, f)];
      i := i + 1;
    }
    FrameCountOf(duration, f, totalFrames);
  }

  lemma {:induction false} ScheduleStep(n: nat, fps: real)
    requires fps > 0.0
    ensures Schedule(n + 1, fps) == Schedule(n, fps) + [ScheduledFrame(n, fps)]
  {
  }

  lemma {:induction false} FrameCountOf(duration: real, fps: real, total: int)
    requires total == Ceil(duration * fps)
    ensures FrameCount(duration, fps) == if total >= 0 then total + 1 else 0
  {
  }

  // ---------------------------------------------------------------------
  // Properties of the schedule and the names
  // ---------------------------------------------------------------------

  /** The schedule covers the whole animation: the last frame is at or
      after `duration`, and the one before it is still before `duration`. */
  lemma {:induction false} LastFrameCoversDuration(duration: real, fps: real)
    requires duration >= 0.0 && fps > 0.0
    ensures FrameCount(duration, fps) >= 1
    ensures var last := FrameCount(duration, fps) - 1;
      last as real / fps >= duration &&
      (last >= 1 ==> (last - 1) as real / fps < duration)
  {
    var last := Ceil(duration * fps);
    assert 0.0 <= duration * fps by { MulMono(0.0, duration, 0.0, fps); }
    var q := last as real / fps;
    assert q * fps == last as real;
    if q < duration {
      MulStrict(q, duration, fps);
      assert false;
    }
    if last >= 1 {
      var p := (last - 1) as real / fps;
      assert p * fps == (last - 1) as real;
      if p >= duration {
        MulMono(duration, p, fps, fps);
        assert false;
      }
    }
  }

  /** A five-second animation at the default rate renders 151 frames. */
  lemma {:induction false} FiveSecondsAtDefaultRate()
    ensures FrameCount(5.0, DEFAULT_FPS) == 151
  {
    assert 5.0 * DEFAULT_FPS == 150.0;
    assert Ceil(150.0) == 150;
  }

  /** Leading zeros do not change the value of a digit string. */
  lemma {:induction false} LeadingZerosValue(k: nat, s: string)
    requires AllDigits(s)
    ensures AllDigits(Zeros(k) + s)
    ensures DigitsValue(Zeros(k) + s) == DigitsValue(s)
    decreases |s|
  {
    var z := Zeros(k);
    assert AllDigits(z + s) by {
      forall i | 0 <= i < |z + s| ensures IsDigit((z + s)[i]) {
        if i < |z| { assert (z + s)[i] == '0'; } else { assert (z + s)[i] == s[i - |z|]; }
      }
    }
    if s == [] {
      assert z + s == z;
      ZerosValue(k);
    } else {
      var n := |z + s|;
      assert (z + s)[..n - 1] == z + s[..|s| - 1];
      assert (z + s)[n - 1] == s[|s| - 1];
      LeadingZerosValue(k, s[..|s| - 1]);
    }
  }

  lemma {:induction false} ZerosValue(k: nat)
    ensures AllDigits(Zeros(k)) && DigitsValue(Zeros(k)) == 0
  {
    if k > 0 {
      assert Zeros(k)[..k - 1] == Zeros(k - 1);
      ZerosValue(k - 1);
    }
  }

  /** Reading the decimal string back gives the number. */
  lemma {:induction false} DecimalStringValue(n: nat)
    ensures DigitsValue(DecimalString(n)) == n
    decreases n
  {
    var s := DecimalString(n);
    if n >= 10 {
      assert s[..|s| - 1] == DecimalString(n / 10);
      DecimalStringValue(n / 10);
    }
  }

  /** The number a frame file name carries: the digits between "frame_"
      and ".png". */
  function FrameNumber(name: string): Option<nat>
  {
    if |name| >= 10 && name[..6] == "frame_" && name[|name| - 4..] == ".png"
       && AllDigits(name[6..|name| - 4])
    then Some(DigitsValue(name[6..|name| - 4]))
    else None
  }

  /** File names round-trip to their frame index, so distinct frames never
      overwrite each other's files. */
  lemma {:induction false} FrameNameRoundTrip(i: nat)
    ensures FrameNumber(FrameName(i)) == Some(i)
  {
    var d := DecimalString(i);
    var p := PadStartZeros(d, 5);
    var name := FrameName(i);
    assert name[..6] == "frame_";
    assert name[|name| - 4..] == ".png";
    assert name[6..|name| - 4] == p;
    if |d| < 5 {
      assert p == Zeros(5 - |d|) + d;
      LeadingZerosValue(5 - |d|, d);
    }
    DecimalStringValue(i);
  }

  lemma {:induction false} FrameNamesDistinct(i: nat, j: nat)
    requires i != j
    ensures FrameName(i) != FrameName(j)
  {
    FrameNameRoundTrip(i);
    FrameNameRoundTrip(j);
  }

  /** Below 100000 the decimal string fits the five padded places, so every
      such name is 15 characters long. */
  lemma {:induction false} FrameNameLength(i: nat)
    requires i < 100000
    ensures |FrameName(i)| == 15
  {
    DecimalStringShort(i);
  }

  lemma {:induction false} DecimalStringShort(n: nat)
    requires n < 100000
    ensures |DecimalString(n)| <= 5
  {
    if n >= 10 {
      assert n / 10 < 10000;
      DecimalStringShorter(n / 10);
    }
  }

  lemma {:induction false} DecimalStringShorter(n: nat)
    requires n < 10000
    ensures |DecimalString(n)| <= 4
  {
    if n >= 10 {
      assert DecimalString(n) == DecimalString(n / 10) + [DigitChar(n % 10)];
      if n / 10 >= 10 {
        if n / 100 >= 10 {
          assert n / 1000 < 10;
          assert |DecimalString(n / 100)| == |DecimalString(n / 1000)| + 1;
        }
      }
    }
  }

  lemma {:induction false} FrameNameExamples()
    ensures FrameName(0) == "frame_00000.png"
    ensures FrameName(42) == "frame_00042.png"
  {
    assert DecimalString(0) == "0";
    assert DecimalString(4) == "4";
    assert DecimalString(42) == "42";
    assert Zeros(4) == "0000";
    assert Zeros(3) == "000";
  }
}
