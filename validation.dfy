/** `ValidationType`: which HTTP status codes a response must have. */
module Validation {

  datatype ValidationType = None | SuccessCodes | SuccessAndRedirectCodes | CustomCodes(codes: seq<int>)

  /** Swift's `Array(lo..<hi)`: the integers from `lo` up to, not including,
      `hi`, ascending. */
  function HalfOpenRange(lo: int, hi: int): (r: seq<int>)
    requires lo <= hi
    ensures |r| == hi - lo
    ensures forall i :: 0 <= i < |r| ==> r[i] == lo + i
    decreases hi - lo
  {
    if lo == hi then [] else [lo] + HalfOpenRange(lo + 1, hi)
  }

  /** `ValidationType.statusCodes`. */
  function StatusCodes(v: ValidationType): (r: seq<int>)
    ensures v.None? ==> r == []
    ensures v.SuccessCodes? ==> |r| == 100 && forall i :: 0 <= i < |r| ==> r[i] == 200 + i
    ensures v.SuccessAndRedirectCodes? ==> |r| == 200 && forall i :: 0 <= i < |r| ==> r[i] == 200 + i
    ensures v.CustomCodes? ==> r == v.codes
  {
    match v
    case SuccessCodes => HalfOpenRange(200, 300)
    case SuccessAndRedirectCodes => HalfOpenRange(200, 400)
    case CustomCodes(codes) => codes
    case None => []
  }

  /** A status is in the success list exactly when it is a 2xx code, and in
      the success-and-redirect list exactly when it is a 2xx or 3xx code. */
  lemma StatusCodesMembership(status: int)
    ensures status in StatusCodes(SuccessCodes) <==> 200 <= status < 300
    ensures status in StatusCodes(SuccessAndRedirectCodes) <==> 200 <= status < 400
  {
    var s := StatusCodes(SuccessCodes);
    var sr := StatusCodes(SuccessAndRedirectCodes);
    if 200 <= status < 300 {
      assert s[status - 200] == status;
    }
    if 200 <= status < 400 {
      assert sr[status - 200] == status;
    }
  }

  /** Both built-in lists are strictly ascending, and the success list is a
      prefix of the success-and-redirect list. */
  lemma StatusCodesOrdered()
    ensures var s := StatusCodes(SuccessCodes);
            forall i, j :: 0 <= i < j < |s| ==> s[i] < s[j]
    ensures var sr := StatusCodes(SuccessAndRedirectCodes);
            forall i, j :: 0 <= i < j < |sr| ==> sr[i] < sr[j]
    ensures StatusCodes(SuccessCodes) <= StatusCodes(SuccessAndRedirectCodes)
  {
    var s := StatusCodes(SuccessCodes);
    var sr := StatusCodes(SuccessAndRedirectCodes);
    assert s == sr[..100];
  }

  /** The list is empty, so that no status check is attached, exactly for
      `none` and for an empty custom list. */
  lemma NoCodesIff(v: ValidationType)
    ensures StatusCodes(v) == [] <==> (v.None? || v == CustomCodes([]))
  {
    if v.SuccessCodes? || v.SuccessAndRedirectCodes? {
      assert |StatusCodes(v)| > 0;
    }
  }
}
