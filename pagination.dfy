/** Page-by-page draining of a paginated endpoint. `Drain(get, lo, hi)` asks
    for pages `lo, lo + 1, …, hi` in that order, concatenates their records,
    and stops at the first page whose request fails. */
module Pagination {
  import opened Common

  /** The page numbers `lo..hi`, ascending (empty when `hi < lo`). */
  function Range(lo: int, hi: int): (r: seq<int>)
    ensures |r| == if hi < lo then 0 else hi - lo + 1
    ensures forall i :: 0 <= i < |r| ==> r[i] == lo + i
    decreases hi - lo
  {
    if hi < lo then [] else Range(lo, hi - 1) + [hi]
  }

  function Drain<T>(get: int -> Result<seq<T>>, lo: int, hi: int): Result<seq<T>>
    decreases hi - lo
  {
    if hi < lo then Ok([])
    else
      match Drain(get, lo, hi - 1)
      case Err(e) => Err(e)
      case Ok(acc) =>
        match get(hi)
        case Err(e) => Err(e)
        case Ok(d) => Ok(acc + d)
  }

  /** Draining succeeds exactly when every page request succeeds. */
  lemma {:induction false} DrainOkIff<T>(get: int -> Result<seq<T>>, lo: int, hi: int)
    ensures Drain(get, lo, hi).Ok? <==> forall k :: lo <= k <= hi ==> get(k).Ok?
    decreases hi - lo
  {
    if hi >= lo {
      DrainOkIff(get, lo, hi - 1);
    }
  }

  /** A failed drain reports the failure of the first failing page. */
  lemma {:induction false} DrainFirstError<T>(get: int -> Result<seq<T>>, lo: int, hi: int, k: int)
    requires lo <= k <= hi && get(k).Err?
    requires forall j :: lo <= j < k ==> get(j).Ok?
    ensures Drain(get, lo, hi) == Err(get(k).error)
    decreases hi - lo
  {
    if hi > k {
      DrainFirstError(get, lo, hi - 1, k);
    } else {
      DrainOkIff(get, lo, k - 1);
    }
  }

  /** Draining `lo..hi` is draining `lo..m` and then `m + 1..hi`. */
  lemma {:induction false} DrainSplit<T>(get: int -> Result<seq<T>>, lo: int, m: int, hi: int)
    requires lo - 1 <= m <= hi
    requires Drain(get, lo, hi).Ok?
    ensures Drain(get, lo, m).Ok? && Drain(get, m + 1, hi).Ok?
    ensures Drain(get, lo, hi).value == Drain(get, lo, m).value + Drain(get, m + 1, hi).value
    decreases hi - lo
  {
    if hi > m {
      DrainSplit(get, lo, m, hi - 1);
      assert Drain(get, lo, hi).value == Drain(get, lo, hi - 1).value + get(hi).value;
    }
  }

  /** Draining from the front: the first page, then the rest. */
  lemma {:induction false} DrainFront<T>(get: int -> Result<seq<T>>, lo: int, hi: int)
    requires lo <= hi
    ensures Drain(get, lo, hi) ==
            match get(lo)
            case Err(e) => Err(e)
            case Ok(d) =>
              match Drain(get, lo + 1, hi)
              case Err(e) => Err(e)
              case Ok(rest) => Ok(d + rest)
    decreases hi - lo
  {
    if hi == lo {
      if get(lo).Ok? {
        assert [] + get(lo).value == get(lo).value + [];
      }
    } else {
      DrainFront(get, lo, hi - 1);
      if get(lo).Ok? && Drain(get, lo + 1, hi - 1).Ok? && get(hi).Ok? {
        var d, mid, last := get(lo).value, Drain(get, lo + 1, hi - 1).value, get(hi).value;
        assert (d + mid) + last == d + (mid + last);
      }
    }
  }
}
