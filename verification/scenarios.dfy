/** The crate's unit tests, as methods that build the views they describe
    and state the outcome the tests assert. */
module Scenarios {
  import opened Ranges
  import opened ShrinkSlice

  type u8 = x: int | 0 <= x < 256

  /** `b"hello, world!"` */
  const HELLO: seq<u8> := [104, 101, 108, 108, 111, 44, 32, 119, 111, 114, 108, 100, 33]

  /** `b"ello, world"` */
  const ELLO: seq<u8> := [101, 108, 108, 111, 44, 32, 119, 111, 114, 108, 100]

  /** A fresh array holding `b`. */
  method Buffer(b: seq<u8>) returns (a: array<u8>)
    ensures fresh(a) && a[..] == b
  {
    a := new u8[|b|](i requires 0 <= i < |b| => b[i]);
  }

  /** `kalm` and `mut_kalm`: on `b"hello, world!"`, `shrink(1..)` and then
      `shrink(..len - 1)` leave `b"ello, world"`. */
  method Kalm(kind: Kind) returns (out: seq<u8>)
    ensures out == ELLO
  {
    var buffer := Buffer(HELLO);
    var slice := new View(buffer, kind);
    slice.Shrink(RangeFrom(1));
    assert slice.Contents() == HELLO[1..];
    slice.Shrink(RangeTo(slice.Len() - 1));
    assert slice.Contents() == HELLO[1..12];
    out := slice.Contents();
    assert forall i :: 0 <= i < 11 ==> out[i] == HELLO[i + 1] == ELLO[i];
  }

  /** `panik`: `..len + 1` on the 13-byte shared view is out of bounds, so
      `shrink` panics; `try_shrink` reports the error and keeps the view. */
  method Panik() returns (res: Outcome, after: seq<u8>)
    ensures res == Err(BoundsError) && after == HELLO
  {
    var buffer := Buffer(HELLO);
    var slice := new View(buffer, Shared);
    res := slice.TryShrink(RangeTo(slice.Len() + 1));
    after := slice.Contents();
  }

  /** `mut_panik`: `..100` on the 13-byte mutable view is out of bounds, so
      `shrink` panics; `try_shrink` reports the error and leaves the view
      empty. */
  method MutPanik() returns (res: Outcome, after: seq<u8>)
    ensures res == Err(BoundsError) && after == []
  {
    var buffer := Buffer(HELLO);
    var slice := new View(buffer, Mutable);
    res := slice.TryShrink(RangeTo(100));
    after := slice.Contents();
  }
}
