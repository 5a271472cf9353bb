/** Shrinking a slice binding in place: the caller's variable holding a
    `&[T]` or `&mut [T]` is replaced by a sub-slice of what it held. */
module ShrinkSlice {
  import opened Ranges

  /** The error a failed `try_shrink` returns. It carries no data. */
  datatype BoundsError = BoundsError

  /** The text a `BoundsError` displays, and so the panic message of `shrink`. */
  const BOUNDS_ERROR_MESSAGE: string := "slice index out of bounds"

  /** `Result<(), BoundsError>`. */
  datatype Outcome = Ok | Err(error: BoundsError)

  /** Getting `r` from the window `[lo, hi)` of `s` is the window shifted by
      the span `r` selects. */
  lemma WindowGet<T>(s: seq<T>, lo: nat, hi: nat, r: SliceRange)
    requires lo <= hi <= |s| <= USIZE_MAX
    requires Accepts(r, hi - lo)
    ensures var sp := Check(r, hi - lo).value;
            Get(s[lo..hi], r) == Some(s[lo + sp.start..lo + sp.end])
  {
    var sp := Check(r, hi - lo).value;
    var w := s[lo..hi];
    assert Get(w, r) == Some(w[sp.start..sp.end]);
    assert forall k :: 0 <= k < sp.end - sp.start ==> w[sp.start..sp.end][k] == s[lo + sp.start..lo + sp.end][k];
    assert w[sp.start..sp.end] == s[lo + sp.start..lo + sp.end];
  }

  /** The two slice types the sealed trait is implemented for. */
  datatype Kind = Shared | Mutable

  /** A variable holding a slice: a window `[lo, hi)` onto a backing array.
      Shrinking changes only the window, never the array. */
  class View<T> {
    const data: array<T>
    const kind: Kind
    var lo: nat
    var hi: nat

    ghost predicate Valid()
      reads this
    {
      lo <= hi <= data.Length <= USIZE_MAX
    }

    /** `self.len()`. */
    function Len(): usize
      reads this
      requires Valid()
    {
      hi - lo
    }

    /** The elements the view currently denotes. */
    function Contents(): seq<T>
      reads this, data
      requires Valid()
    {
      data[lo..hi]
    }

    /** A view of the whole of `data`. */
    constructor (data: array<T>, kind: Kind)
      requires data.Length <= USIZE_MAX
      ensures Valid() && this.data == data && this.kind == kind
      ensures Contents() == data[..]
    {
      this.data := data;
      this.kind := kind;
      lo := 0;
      hi := data.Length;
    }

    /** `Shrink::try_shrink`, dispatched to the impl for the view's kind.
        Succeeds exactly when `r` is in bounds for the current length, and
        then narrows the view to the selected elements. On failure a shared
        view is untouched, while a mutable view is left as the empty slice. */
    method TryShrink(r: SliceRange) returns (res: Outcome)
      requires Valid()
      modifies this
      ensures Valid()
      ensures data[..] == old(data[..])
      ensures res.Ok? <==> Accepts(r, old(Len()))
      ensures res.Ok? ==> Get(old(Contents()), r) == Some(Contents())
      ensures res.Ok? ==> var sp := Check(r, old(Len())).value;
                lo == old(lo) + sp.start && hi == old(lo) + sp.end
      ensures res.Ok? ==> old(lo) <= lo && hi <= old(hi) && Len() <= old(Len())
      ensures res.Err? ==> res.error == BoundsError
      ensures res.Err? && kind == Shared ==> lo == old(lo) && hi == old(hi)
      ensures res.Err? && kind == Mutable ==> Len() == 0 && Contents() == []
    {
      match kind {
        case Shared => res := TryShrinkShared(r);
        case Mutable => res := TryShrinkMutable(r);
      }
    }

    /** `try_shrink` for `&[T]`: the sub-slice is computed before `*self` is
        assigned, so a failure returns with the view as it was. */
    method TryShrinkShared(r: SliceRange) returns (res: Outcome)
      requires Valid()
      modifies this
      ensures Valid()
      ensures data[..] == old(data[..])
      ensures res.Ok? <==> Accepts(r, old(Len()))
      ensures res.Ok? ==> Get(old(Contents()), r) == Some(Contents())
      ensures res.Ok? ==> var sp := Check(r, old(Len())).value;
                lo == old(lo) + sp.start && hi == old(lo) + sp.end
      ensures res.Ok? ==> old(lo) <= lo && hi <= old(hi) && Len() <= old(Len())
      ensures res.Err? ==> res.error == BoundsError
      ensures res.Err? ==> lo == old(lo) && hi == old(hi)
    {
      // `*self = self.get(range).ok_or(BoundsError)?;`
      match Check(r, hi - lo) {
        case None =>
          return Err(BoundsError);
        case Some(sp) =>
          WindowGet(data[..], lo, hi, r);
          lo, hi := lo + sp.start, lo + sp.end;
          return Ok;
      }
    }

    /** `try_shrink` for `&mut [T]`: `std::mem::take` moves the slice out and
        leaves the empty slice in `*self` before the bounds check, so a
        failure returns with the view empty. */
    method TryShrinkMutable(r: SliceRange) returns (res: Outcome)
      requires Valid()
      modifies this
      ensures Valid()
      ensures data[..] == old(data[..])
      ensures res.Ok? <==> Accepts(r, old(Len()))
      ensures res.Ok? ==> Get(old(Contents()), r) == Some(Contents())
      ensures res.Ok? ==> var sp := Check(r, old(Len())).value;
                lo == old(lo) + sp.start && hi == old(lo) + sp.end
      ensures res.Ok? ==> old(lo) <= lo && hi <= old(hi) && Len() <= old(Len())
      ensures res.Err? ==> res.error == BoundsError
      ensures res.Err? ==> Len() == 0 && Contents() == []
    {
      // `std::mem::take(self)`
      var takenLo, takenHi := lo, hi;
      lo, hi := 0, 0;
      // `*self = taken.get_mut(range).ok_or(BoundsError)?;`
      match Check(r, takenHi - takenLo) {
        case None =>
          return Err(BoundsError);
        case Some(sp) =>
          WindowGet(data[..], takenLo, takenHi, r);
          lo, hi := takenLo + sp.start, takenLo + sp.end;
          return Ok;
      }
    }

    /** `Shrink::shrink`: `try_shrink` that panics on failure; the panic is
        modelled by the precondition that `r` is in bounds. */
    method Shrink(r: SliceRange)
      requires Valid()
      requires Accepts(r, Len())
      modifies this
      ensures Valid()
      ensures data[..] == old(data[..])
      ensures Get(old(Contents()), r) == Some(Contents())
      ensures var sp := Check(r, old(Len())).value;
              lo == old(lo) + sp.start && hi == old(lo) + sp.end
    {
      var res := TryShrink(r);
      if res.Err? {
        assert false;
      }
    }
  }
}
