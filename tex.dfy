/** The prepare-before-use cache of `TexRenderer` (src/janim.ts). MathJax's
    TeX-to-SVG conversion is an abstract function that yields the `width`
    and `height` attribute values of the SVG it produces; the SVG text,
    viewBox padding and image loading are not modelled. Numbers that
    `parseFloat` cannot read are NaN in JavaScript; here they are `None`. */
module Tex {
  import opened Common
  import opened Janim

  /** The `width="…"` and `height="…"` attribute values MathJax wrote, if
      its SVG has them. The attribute pattern (src/janim.ts:71-72) captures
      at least one character, so a real SVG never yields `Some("")`; the
      type admits it, and `SizeOf` then gives `None` (NaN) for it. */
  datatype SvgDims = SvgDims(width: Option<string>, height: Option<string>)

  /** A cache entry's logical size in pixels (`None` is NaN). */
  datatype Size = Size(width: Option<real>, height: Option<real>)

  /** Where and how large `draw` puts an expression. */
  datatype Placement = Placement(x: real, y: real, w: Option<real>, h: Option<real>)

  datatype TexError = NotPrepared(tex: string)

  /** A parsed dimension, or the fallback when the attribute is missing. */
  function DimensionOr(attr: Option<string>, fallback: real): (r: Option<real>)
    ensures attr.None? ==> r == Some(fallback)
    ensures attr.Some? ==> (r.None? <==> ParseFloat(attr.value).None?)
    ensures attr.Some? && r.Some? ==>
      r.value == ParseFloat(attr.value).value * (if EndsWith(attr.value, "ex") then EX_TO_PX else 1.0)
  {
    match attr
    case None => Some(fallback)
    case Some(s) => ParseDimension(s)
  }

  /** The size `texToSvg` reports: 100 x 50 px when MathJax wrote no size. */
  function SizeOf(dims: SvgDims): (r: Size)
    ensures dims.width.None? ==> r.width == Some(100.0)
    ensures dims.height.None? ==> r.height == Some(50.0)
    ensures dims.width.Some? ==> (r.width.None? <==> ParseFloat(dims.width.value).None?)
    ensures dims.height.Some? ==> (r.height.None? <==> ParseFloat(dims.height.value).None?)
    ensures dims.width.Some? && r.width.Some? ==>
      r.width.value == ParseFloat(dims.width.value).value * (if EndsWith(dims.width.value, "ex") then EX_TO_PX else 1.0)
    ensures dims.height.Some? && r.height.Some? ==>
      r.height.value == ParseFloat(dims.height.value).value * (if EndsWith(dims.height.value, "ex") then EX_TO_PX else 1.0)
  {
    Size(DimensionOr(dims.width, 100.0), DimensionOr(dims.height, 50.0))
  }

  /** `x * scale`, where NaN stays NaN. */
  function Scaled(x: Option<real>, scale: real): Option<real>
  {
    match x
    case None => None
    case Some(v) => Some(v * scale)
  }

  /** The expressions of `exprs` that `prepare` converts when the cache
      already holds `known`: each one not cached yet, at its first
      occurrence, in list order. */
  function Uncached(known: set<string>, exprs: seq<string>): seq<string>
  {
    if exprs == [] then []
    else
      var prefix := exprs[..|exprs| - 1];
      var last := exprs[|exprs| - 1];
      var p := Uncached(known, prefix);
      if last in known || last in prefix then p else p + [last]
  }

  /** Exactly the listed expressions not known are converted, each once;
      nothing is converted when all are known. */
  lemma {:induction false} UncachedSpec(known: set<string>, exprs: seq<string>)
    ensures forall e :: e in Uncached(known, exprs) <==> e in exprs && e !in known
    ensures forall i, j :: 0 <= i < j < |Uncached(known, exprs)| ==> Uncached(known, exprs)[i] != Uncached(known, exprs)[j]
    ensures (forall e :: e in exprs ==> e in known) ==> Uncached(known, exprs) == []
  {
    if exprs != [] {
      var prefix := exprs[..|exprs| - 1];
      var last := exprs[|exprs| - 1];
      UncachedSpec(known, prefix);
      assert exprs == prefix + [last];
      var p := Uncached(known, prefix);
      if !(last in known || last in prefix) {
        var r := p + [last];
        forall i, j | 0 <= i < j < |r| ensures r[i] != r[j] {
          if j == |p| {
            assert r[i] == p[i] && r[i] in p;
          } else {
            assert r[i] == p[i] && r[j] == p[j];
          }
        }
      }
    }
  }

  /** One more expression: it is converted when neither cached nor seen
      earlier in the list. */
  lemma {:induction false} UncachedStep(known: set<string>, exprs: seq<string>, i: nat)
    requires i < |exprs|
    ensures Uncached(known, exprs[..i + 1])
         == if exprs[i] in known || exprs[i] in exprs[..i] then Uncached(known, exprs[..i])
            else Uncached(known, exprs[..i]) + [exprs[i]]
  {
    assert exprs[..i + 1][..i] == exprs[..i];
  }

  /** The cache after `prepare(exprs)` from `cache`: each expression not
      cached yet is converted and stored, in list order. */
  function Prepared(cache: map<string, Size>, convert: string -> SvgDims, exprs: seq<string>): map<string, Size>
  {
    if exprs == [] then cache
    else
      var c := Prepared(cache, convert, exprs[..|exprs| - 1]);
      var last := exprs[|exprs| - 1];
      if last in c then c else c[last := SizeOf(convert(last))]
  }

  /** One more expression. */
  lemma {:induction false} PreparedStep(cache: map<string, Size>, convert: string -> SvgDims, exprs: seq<string>, i: nat)
    requires i < |exprs|
    ensures var c := Prepared(cache, convert, exprs[..i]);
      Prepared(cache, convert, exprs[..i + 1])
        == if exprs[i] in c then c else c[exprs[i] := SizeOf(convert(exprs[i]))]
  {
    assert exprs[..i + 1][..i] == exprs[..i];
  }

  /** Preparing adds exactly the listed expressions, keeps what was cached,
      and stores the converted size of each new one. */
  lemma {:induction false} PreparedSpec(cache: map<string, Size>, convert: string -> SvgDims, exprs: seq<string>)
    ensures Prepared(cache, convert, exprs).Keys == cache.Keys + set e | e in exprs
    ensures forall e :: e in cache ==> Prepared(cache, convert, exprs)[e] == cache[e]
    ensures forall e :: e in Prepared(cache, convert, exprs) && e !in cache ==>
      Prepared(cache, convert, exprs)[e] == SizeOf(convert(e))
  {
    if exprs != [] {
      var prefix := exprs[..|exprs| - 1];
      PreparedSpec(cache, convert, prefix);
      assert exprs == prefix + [exprs[|exprs| - 1]];
    }
  }

  class TexRenderer {
    /** MathJax's conversion, reduced to the size attributes it writes. */
    const convert: string -> SvgDims
    var cache: map<string, Size>
    /** Every expression handed to the converter, oldest first. */
    var conversions: seq<string>

    constructor (convert: string -> SvgDims)
      ensures this.convert == convert
      ensures cache == map[] && conversions == []
    {
      this.convert := convert;
      cache := map[];
      conversions := [];
    }

    /** Convert and cache every listed expression not cached yet. */
    method Prepare(exprs: seq<string>)
      modifies this
      ensures cache == Prepared(old(cache), convert, exprs)
      ensures conversions == old(conversions) + Uncached(old(cache.Keys), exprs)
      ensures forall e :: e in exprs ==> Measure(e).Ok?
    {
      var i := 0;
      while i < |exprs|
        invariant 0 <= i <= |exprs|
        invariant cache == Prepared(old(cache), convert, exprs[..i])
        invariant conversions == old(conversions) + Uncached(old(cache.Keys), exprs[..i])
      {
        var expr := exprs[i];
        PreparedSpec(old(cache), convert, exprs[..i]);
        assert expr in cache <==> expr in old(cache.Keys) || expr in exprs[..i];
        PreparedStep(old(cache), convert, exprs, i);
        UncachedStep(old(cache.Keys), exprs, i);
        if expr in cache {
          i := i + 1;
          continue;
        }
        cache := cache[expr := SizeOf(convert(expr))];
        conversions := conversions + [expr];
        i := i + 1;
      }
      assert exprs[..i] == exprs;
      PreparedSpec(old(cache), convert, exprs);
    }

    /** The logical size of a prepared expression; an unprepared one is an
        error. */
    function Measure(tex: string): (r: Result<Size, TexError>)
      reads this
      ensures r.Ok? <==> tex in cache
      ensures r.Ok? ==> r.value == cache[tex]
      ensures r.Err? ==> r.error == NotPrepared(tex)
    {
      if tex in cache then Ok(cache[tex]) else Err(NotPrepared(tex))
    }

    /** Where `draw` puts a prepared expression: at (x, y), its size
        multiplied by `scale`; an unprepared one is an error. The source's
        default `scale = 1` (src/janim.ts:135) has no counterpart: callers
        pass 1.0 explicitly. */
    function Draw(tex: string, x: real, y: real, scale: real): (r: Result<Placement, TexError>)
      reads this
      ensures r.Ok? <==> Measure(tex).Ok?
      ensures r.Ok? ==> r.value.x == x && r.value.y == y
      ensures r.Ok? ==> r.value.w == Scaled(cache[tex].width, scale) && r.value.h == Scaled(cache[tex].height, scale)
      ensures r.Err? ==> r.error == NotPrepared(tex)
    {
      if tex !in cache then Err(NotPrepared(tex))
      else
        var entry := cache[tex];
        Ok(Placement(x, y, Scaled(entry.width, scale), Scaled(entry.height, scale)))
    }
  }
}
