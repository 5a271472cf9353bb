/** The range forms a slice can be narrowed by, their normalisation to a
    half-open span, and the bounds check behind `get`/`get_mut`. Everything
    here is pure: a slice is a sequence and narrowing it yields a new one. */
module Ranges {

  /** The largest value of Rust's `usize` on a 64-bit target. */
  const USIZE_MAX: int := 0xFFFF_FFFF_FFFF_FFFF

  type usize = x: int | 0 <= x <= USIZE_MAX

  datatype Option<+T> = None | Some(value: T)

  /** A half-open interval of indices `[start, end)`. */
  datatype Span = Span(start: nat, end: nat) {
    function Len(): int { end - start }
  }

  /** The range types that index a slice and yield a slice. */
  datatype SliceRange =
    | Range(start: usize, end: usize)            // a..b
    | RangeFrom(start: usize)                    // a..
    | RangeTo(end: usize)                        // ..b
    | RangeFull                                  // ..
    | RangeInclusive(start: usize, last: usize)  // a..=b
    | RangeToInclusive(last: usize)              // ..=b

  /** Whether index `i` lies in the range, read off the range's own bounds
      (inclusive ends included, unbounded sides unlimited). */
  predicate Selects(r: SliceRange, i: nat) {
    match r
    case Range(a, b) => a <= i < b
    case RangeFrom(a) => a <= i
    case RangeTo(b) => i < b
    case RangeFull => true
    case RangeInclusive(a, b) => a <= i <= b
    case RangeToInclusive(b) => i <= b
  }

  /** When indexing a slice of length `len` by `r` succeeds, stated form by
      form: the start may not pass the end, and the end may not pass `len`. */
  predicate Accepts(r: SliceRange, len: nat) {
    match r
    case Range(a, b) => a <= b <= len
    case RangeFrom(a) => a <= len
    case RangeTo(b) => b <= len
    case RangeFull => true
    case RangeInclusive(a, b) => b < len && a <= b + 1
    case RangeToInclusive(b) => b < len
  }

  /** Rewrites `r` as a half-open span against a slice of length `len`. An
      inclusive end of `usize::MAX` has no exclusive successor, so those two
      forms have no span and indexing by them fails. */
  function HalfOpen(r: SliceRange, len: usize): (h: Option<Span>)
    ensures h.None? <==> (r.RangeInclusive? || r.RangeToInclusive?) && r.last == USIZE_MAX
    ensures h.Some? ==> h.value.end <= USIZE_MAX
  {
    match r
    case Range(a, b) => Some(Span(a, b))
    case RangeFrom(a) => Some(Span(a, len))
    case RangeTo(b) => Some(Span(0, b))
    case RangeFull => Some(Span(0, len))
    case RangeInclusive(a, b) => if b == USIZE_MAX then None else Some(Span(a, b + 1))
    case RangeToInclusive(b) => if b == USIZE_MAX then None else Some(Span(0, b + 1))
  }

  /** The bounds check behind `get`/`get_mut`: the span that indexing a slice
      of length `len` by `r` selects, or None where indexing fails. */
  function Check(r: SliceRange, len: usize): (c: Option<Span>)
    ensures c.Some? <==> Accepts(r, len)
    ensures c.Some? ==> c.value.start <= c.value.end <= len
  {
    match HalfOpen(r, len)
    case None => None
    case Some(h) => if h.start <= h.end <= len then Some(h) else None
  }

  /** Within a slice of length `len`, the span an accepted range is checked
      to select holds exactly the indices the range itself contains. */
  lemma CheckSelects(r: SliceRange, len: usize, i: nat)
    requires Accepts(r, len) && i < len
    ensures Selects(r, i) <==> Check(r, len).value.start <= i < Check(r, len).value.end
  {
  }

  /** `get` on a slice: the sub-slice `r` selects, or None when out of bounds.
      The sub-slice is exactly the selected elements, in order. */
  function Get<T>(s: seq<T>, r: SliceRange): (g: Option<seq<T>>)
    requires |s| <= USIZE_MAX
    ensures g.Some? <==> Accepts(r, |s|)
    ensures g.Some? ==> var sp := Check(r, |s|).value;
              |g.value| == sp.Len() <= |s| &&
              forall j :: 0 <= j < |g.value| ==> g.value[j] == s[sp.start + j]
  {
    match Check(r, |s|)
    case None => None
    case Some(sp) => Some(s[sp.start..sp.end])
  }

  /** Narrowing by the whole current range, `..` or `0..len`, changes nothing. */
  lemma WholeRangeIsIdentity<T>(s: seq<T>)
    requires |s| <= USIZE_MAX
    ensures Get(s, RangeFull) == Some(s)
    ensures Get(s, Range(0, |s|)) == Some(s)
  {
    assert s[0..|s|] == s;
  }

  /** The span of a span taken relative to the start of `outer`. */
  function Compose(outer: Span, inner: Span): Span {
    Span(outer.start + inner.start, outer.start + inner.end)
  }

  /** Narrowing by `a` and then by `b` is the same as one narrowing by the
      plain range `c.start..c.end` of the composed span. */
  lemma GetThenGet<T>(s: seq<T>, a: SliceRange, b: SliceRange)
    requires |s| <= USIZE_MAX
    requires Get(s, a).Some? && Get(Get(s, a).value, b).Some?
    ensures var c := Compose(Check(a, |s|).value, Check(b, |Get(s, a).value|).value);
            c.start <= c.end <= |s| &&
            Get(s, Range(c.start, c.end)) == Get(Get(s, a).value, b)
  {
    var sa := Check(a, |s|).value;
    var t := Get(s, a).value;
    var sb := Check(b, |t|).value;
    var c := Compose(sa, sb);
    assert t == s[sa.start..sa.end];
    assert Get(t, b).value == t[sb.start..sb.end];
    assert t[sb.start..sb.end] == s[c.start..c.end];
  }

  /** The span that a chain of narrowings selects, relative to the slice of
      length `len` it starts from; None as soon as one step is out of bounds. */
  function ChainSpan(rs: seq<SliceRange>, len: usize): (c: Option<Span>)
    ensures c.Some? ==> c.value.start <= c.value.end <= len
    decreases |rs|
  {
    if rs == [] then Some(Span(0, len))
    else
      match Check(rs[0], len)
      case None => None
      case Some(sp) =>
        match ChainSpan(rs[1..], sp.Len())
        case None => None
        case Some(rest) => Some(Compose(sp, rest))
  }

  /** Narrowing a slice step by step, as repeated calls of `get` do. */
  function ChainGet<T>(s: seq<T>, rs: seq<SliceRange>): Option<seq<T>>
    requires |s| <= USIZE_MAX
    decreases |rs|
  {
    if rs == [] then Some(s)
    else
      match Get(s, rs[0])
      case None => None
      case Some(t) => ChainGet(t, rs[1..])
  }

  /** A chain of narrowings succeeds exactly when its composed span exists,
      and then yields the elements of that one span of the original slice. */
  lemma {:induction false} ChainGetIsOneSpan<T>(s: seq<T>, rs: seq<SliceRange>)
    requires |s| <= USIZE_MAX
    ensures ChainGet(s, rs).Some? <==> ChainSpan(rs, |s|).Some?
    ensures ChainGet(s, rs).Some? ==>
              ChainGet(s, rs).value == s[ChainSpan(rs, |s|).value.start..ChainSpan(rs, |s|).value.end]
    decreases |rs|
  {
    if rs != [] {
      match Check(rs[0], |s|)
      case None =>
      case Some(sp) =>
        var t := s[sp.start..sp.end];
        assert Get(s, rs[0]) == Some(t);
        assert ChainGet(s, rs) == ChainGet(t, rs[1..]);
        ChainGetIsOneSpan(t, rs[1..]);
        match ChainSpan(rs[1..], |t|)
        case None =>
        case Some(rest) =>
          assert ChainSpan(rs, |s|) == Some(Compose(sp, rest));
          assert t[rest.start..rest.end] == s[sp.start + rest.start..sp.start + rest.end];
    }
  }
}
