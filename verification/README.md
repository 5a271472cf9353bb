# shrink_slice, modelled in Dafny

`shrink_slice` adds one operation to Rust slice references: narrowing the
variable that holds a slice (`&[T]` or `&mut [T]`) to a sub-slice of itself,
in place. `try_shrink(range)` checks the range against the slice's current
length. If the range is in bounds it replaces the slice with the sub-slice and
returns `Ok(())`. Otherwise it returns `BoundsError`. `shrink(range)` does the
same but panics on failure.

The model has three modules:

- `Ranges` (`ranges.dfy`) is pure. It has the six range forms that index a
  slice and yield a slice (`a..b`, `a..`, `..b`, `..`, `a..=b`, `..=b`) as a
  closed datatype. It also has their normalisation to a half-open span, the
  bounds check behind `get`/`get_mut`, `get` on a sequence, and chains of
  narrowings. Indices are `usize` values (64-bit). An inclusive end of
  `usize::MAX` has no exclusive successor, so indexing by it fails.
- `ShrinkSlice` (`shrink.dfy`) holds the caller's slice variable. It is a
  class `View` with a window `[lo, hi)` onto a backing array and a `kind`,
  shared or mutable. `TryShrink` and `Shrink` update the window in place.
  They never write the array.
- `Scenarios` (`scenarios.dfy`) holds the crate's four unit tests as methods.

The two impls of `try_shrink` differ on failure, and the model keeps that
difference. The shared impl evaluates `self.get(range)` first, and `?`
returns before `*self` is assigned, so a failed call leaves the slice as it
was. The mutable impl first moves the slice out with `std::mem::take`, which
leaves the empty slice in the variable. Then `?` returns, so a failed call
leaves the caller holding an empty slice, not the original one. A failed
mutable shrink that restores the original slice would be the safer design,
but the code does not do that. The model follows the code
(`src/lib.rs:114`): `TryShrink` on a `Mutable` view ends with length 0 on
failure.

A panic of `shrink` is modelled as a precondition that the range is in
bounds. `TryShrink` returns `Ok` exactly when that precondition holds.

## Model

| member | source | states |
|---|---|---|
| `Ranges.HalfOpen` | src/lib.rs:74-75 | a range has no half-open span exactly when it is inclusive and its end is `usize::MAX`, so `end + 1` would overflow; every span it yields ends within `usize` |
| `Ranges.Check` | src/lib.rs:71-75 | the bounds check succeeds exactly when the range's start does not pass its end and its end does not pass the current length (`Accepts`, per range form); the span it yields lies in `[0, len]` |
| `Ranges.CheckSelects` | src/lib.rs:71-75 | within the slice, the span an accepted range is checked to select holds exactly the indices the range itself contains, inclusive ends included |
| `Ranges.Get` | src/lib.rs:104 | `get` succeeds exactly when the range is accepted; the sub-slice it yields has the span's length, never more than the slice's, and holds the original elements at the span's offsets, in order |
| `Ranges.WholeRangeIsIdentity` | src/lib.rs:71-73 | narrowing by `..` or by `0..len` returns the slice unchanged |
| `Ranges.GetThenGet` | src/lib.rs:144-150 | narrowing by one range and then by another equals one narrowing by the plain range of the composed span, which lies within the original slice |
| `Ranges.ChainSpan` | src/lib.rs:160-167 | the span a chain of narrowings selects always lies within the slice it starts from, so repeated shrinking never grows the slice |
| `Ranges.ChainGetIsOneSpan` | src/lib.rs:144-150 | a chain of narrowings succeeds exactly when its composed span exists, and then yields exactly that span of the original slice |
| `ShrinkSlice.WindowGet` | src/lib.rs:104 | `get` on the window `[lo, hi)` of an array is the window shifted by the span the range selects |
| `ShrinkSlice.View.constructor` | src/lib.rs:160-162 | a slice variable over a whole buffer denotes all of the buffer's elements |
| `ShrinkSlice.View.TryShrink` | src/lib.rs:71-75 | returns `Ok` exactly when the range is in bounds for the current length; on `Ok` the new contents are `get` of the old contents, the new start is the old start plus the span's start, and the length never grows; on error a shared view is unchanged and a mutable view is left empty; the backing array is never written |
| `ShrinkSlice.View.TryShrinkShared` | src/lib.rs:98-107 | the `&[T]` impl: as `TryShrink`, and a failure leaves the window exactly as it was |
| `ShrinkSlice.View.TryShrinkMutable` | src/lib.rs:109-117 | the `&mut [T]` impl: as `TryShrink`, and a failure leaves the view empty, because the slice was taken out before the bounds check |
| `ShrinkSlice.View.Shrink` | src/lib.rs:77-95 | requires the range to be in bounds, which is exactly when `try_shrink` would succeed, and then narrows the view just as `try_shrink` does |
| `Scenarios.Kalm` | src/lib.rs:143-167 | on a shared or mutable view of `b"hello, world!"`, `shrink(1..)` and then `shrink(..len - 1)` leave `b"ello, world"` |
| `Scenarios.Panik` | src/lib.rs:152-157 | `..len + 1` on the 13-byte shared view is rejected with `BoundsError`, so `shrink` panics, and the view keeps all 13 bytes |
| `Scenarios.MutPanik` | src/lib.rs:169-175 | `..100` on the 13-byte mutable view is rejected with `BoundsError`, so `shrink` panics, and the view is left empty |

## Left out

- The `&str` variant and UTF-8 character boundaries: the sealed trait is implemented only for `&[T]` and `&mut [T]` (`src/lib.rs:60-64`).
- Lifetimes and the borrow-checker motivation for the crate: these are compile-time properties with no runtime behaviour.
- Generic `SliceIndex` dispatch: it is replaced by the six range forms. The `(Bound<usize>, Bound<usize>)` index and the `exhausted` flag of an iterated `RangeInclusive` are not modelled. The standard library's `get`/`get_mut` bodies are not part of this model; the model uses their documented bounds rule.
- The address of the empty slice that `std::mem::take` leaves behind: it points to no element of the buffer. The model puts it at window `[0, 0)`, and contracts state only that it is empty.
- `fmt::Debug`, `fmt::Display` and `std::error::Error` for `BoundsError`: only the message text is kept, as `BOUNDS_ERROR_MESSAGE`.
- The panic and unwinding mechanism and the codegen attributes (`#[inline]`, `#[cold]`, `#[track_caller]`): a panic is a failed precondition.
- Writing elements through a `&mut [T]` view: the crate does not do it, and the doc example that does is not part of the operation.
- Aliasing between several views of one buffer: each `View` is a window over a shared array, and no two views are related by any contract.
