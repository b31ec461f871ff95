/** Shared wrappers of the aggregation core: optional values, results that
    carry one of the named failure kinds, and the map helpers the repositories
    use for their running totals. */
module Common {

  datatype Option<T> = None | Some(value: T) {
    function GetOr(default: T): T {
      match this
      case Some(v) => v
      case None => default
    }
  }

  /** The failure kinds that can abort a report-generation run. */
  datatype Error =
    | ClientError(status: int, message: string)   // 4xx answer, with the body text
    | ServerError(status: int, message: string)   // 5xx answer, with the body text
    | UnexpectedResponse(status: int, description: string) // any other status
    | InvalidCurrencyCode
    | UnusedCurrency
    | MultipleCurrency
    | InactiveAccount
    | IllegalDateRange
    | MissingOverview                             // a `!!` on an absent map entry
    | NoSuchElement                               // `first()` on an empty list
    | NumberFormat                                // `toInt()` on a non-numeric string
    | DateTimeParse                               // a date text the formatter rejects
    | IllegalArgument                             // `padStart` with a negative length

  datatype Result<T> = Ok(value: T) | Err(error: Error)

  /** Map lookup defaulting to zero for an absent key. */
  function GetOrZero(m: map<string, int>, k: string): (r: int)
    ensures k in m ==> r == m[k]
    ensures k !in m ==> r == 0
  {
    if k in m then m[k] else 0
  }

  /** Adds `d` to the entry of `k`, creating it from zero when absent. */
  function AddTo(m: map<string, int>, k: string, d: int): map<string, int> {
    m[k := GetOrZero(m, k) + d]
  }

  /** Reading any key after `AddTo`. */
  lemma GetOrZeroAddTo(m: map<string, int>, k: string, d: int, q: string)
    ensures GetOrZero(AddTo(m, k, d), q) == GetOrZero(m, q) + (if q == k then d else 0)
  {
  }

  predicate Distinct<T(==)>(s: seq<T>) {
    forall i, j :: 0 <= i < j < |s| ==> s[i] != s[j]
  }

  /** The total of the entries of `m` at the keys listed in `ks` (absent keys count as zero). */
  function SumOver(m: map<string, int>, ks: seq<string>): int {
    if ks == [] then 0 else GetOrZero(m, ks[0]) + SumOver(m, ks[1..])
  }

  /** Changing one entry by `d` changes the total over a duplicate-free key list
      that names that entry by exactly `d`, and leaves it alone otherwise. */
  lemma {:induction false} SumOverAddTo(m: map<string, int>, ks: seq<string>, k: string, d: int)
    requires Distinct(ks)
    ensures SumOver(AddTo(m, k, d), ks) == SumOver(m, ks) + (if k in ks then d else 0)
  {
    if ks != [] {
      assert Distinct(ks[1..]) by {
        forall i, j | 0 <= i < j < |ks[1..]| ensures ks[1..][i] != ks[1..][j] {
          assert ks[1..][i] == ks[i + 1] && ks[1..][j] == ks[j + 1];
        }
      }
      SumOverAddTo(m, ks[1..], k, d);
      if ks[0] == k {
        assert k !in ks[1..] by {
          forall i | 0 <= i < |ks[1..]| ensures ks[1..][i] != k {
            assert ks[1..][i] == ks[i + 1];
          }
        }
      }
      assert k in ks <==> ks[0] == k || k in ks[1..] by {
        if k in ks {
          var i :| 0 <= i < |ks| && ks[i] == k;
          if i > 0 { assert ks[1..][i - 1] == k; }
        }
      }
    }
  }

  /** The total over the empty map is zero. */
  lemma {:induction false} SumOverEmpty(ks: seq<string>)
    ensures SumOver(map[], ks) == 0
  {
    if ks != [] { SumOverEmpty(ks[1..]); }
  }
}
