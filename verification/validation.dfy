/** The request checks the routes share: an id parameter that must be numeric, an array that
    must be non-empty, and a loop over the items of a request in which the first failing item
    decides the answer. */
module Validation {
  import opened JsValue

  /** A check's verdict: go on, answer 400 with the message, or throw (a TypeError). */
  datatype Check = Pass | Reject(message: string) | Throw(error: string)

  /** `!v || isNaN(v)` does not hold: what every route asks of an id parameter. */
  predicate NumericId(v: Value) {
    Truthy(v) && !IsNaN(v)
  }

  /** `a && Array.isArray(a) && a.length > 0`, the negation of `!a || !Array.isArray(a) ||
      a.length === 0`. */
  predicate NonEmptyArray(a: Value) {
    Truthy(a) && a.Arr? && |a.elems| > 0
  }

  /** A loop over the items that returns at the first item whose check does not pass. */
  function FirstFailure(verdicts: seq<Check>): (r: Check)
    ensures r.Pass? <==> forall i :: 0 <= i < |verdicts| ==> verdicts[i].Pass?
    ensures !r.Pass? ==> exists k :: 0 <= k < |verdicts| && r == verdicts[k]
                                  && forall j :: 0 <= j < k ==> verdicts[j].Pass?
    decreases |verdicts|
  {
    if |verdicts| == 0 then Pass
    else if !verdicts[0].Pass? then verdicts[0]
    else
      var rest := FirstFailure(verdicts[1..]);
      assert forall i :: 1 <= i < |verdicts| ==> verdicts[i] == verdicts[1..][i - 1];
      if !rest.Pass? then
        var k :| 0 <= k < |verdicts[1..]| && rest == verdicts[1..][k]
                 && forall j :: 0 <= j < k ==> verdicts[1..][j].Pass?;
        assert verdicts[k + 1] == verdicts[1..][k];
        assert forall j :: 0 <= j < k + 1 ==> verdicts[j].Pass? by {
          forall j | 0 <= j < k + 1
            ensures verdicts[j].Pass?
          {
            if j > 0 {
              assert verdicts[j] == verdicts[1..][j - 1];
            }
          }
        }
        rest
      else
        rest
  }
}
