/** The error values the client hands to its callers, and the three pure
    string builders around them: resultCodeError.Error (common.go),
    investError.Error and ellipsis (invest.go). */
module Errors {

  /** The secondary protocol's error body {errorMessage, errorCode}. */
  datatype InvestError = InvestError(errorMessage: string, errorCode: string)

  /** Every error the engines return. `Wrapped` is errors.Wrap: a context
      phrase in front of a cause that errors.Is can still see. */
  datatype Error =
    | NoDataFound                                       // ErrNoDataFound
    | MaxRetriesExceeded                                // errMaxRetriesExceeded
    | Unauthorized                                      // errUnauthorized ("no sessionid")
    | Cancelled                                         // ctx.Err()
    | ResultCode(expected: string, actual: string, message: string)  // resultCodeError
    | Invest(fault: InvestError)                        // investError
    | Status(status: string)                            // errors.New(httpResp.Status)
    | Text(text: string)                                // errors.New(ellipsis(body))
    | Timeout                                           // the browser driver gave up waiting
    | Foreign(what: string)                             // a collaborator's own failure
    | Wrapped(context: string, cause: Error)            // errors.Wrap(cause, context)

  /** errors.Is: the target is the error itself or sits in its chain of causes. */
  predicate Is(e: Error, target: Error) {
    e == target || (e.Wrapped? && Is(e.cause, target))
  }

  /** resultCodeError.Error: "actual != expected", then " (message)" only
      when the provider sent a message. */
  function ResultCodeErrorText(expected: string, actual: string, message: string): (r: string)
    ensures |r| >= |actual| + 4 + |expected|
    ensures r[..|actual| + 4 + |expected|] == actual + " != " + expected
    ensures message == "" <==> |r| == |actual| + 4 + |expected|
    ensures message != "" ==> r[|actual| + 4 + |expected|..] == " (" + message + ")"
  {
    var head := actual + " != " + expected;
    if message != "" then head + " (" + message + ")" else head
  }

  /** The provider message can be read back from the text once the two codes
      are known: equal texts for equal codes mean equal messages. */
  lemma {:induction false} ResultCodeTextDeterminesMessage(expected: string, actual: string, m1: string, m2: string)
    requires ResultCodeErrorText(expected, actual, m1) == ResultCodeErrorText(expected, actual, m2)
    ensures m1 == m2
  {
    var n := |actual| + 4 + |expected|;
    var t := ResultCodeErrorText(expected, actual, m1);
    if m1 != "" && m2 != "" {
      assert t[n..] == " (" + m1 + ")" == " (" + m2 + ")";
      assert |m1| == |m2|;
      forall i | 0 <= i < |m1| ensures m1[i] == m2[i] {
        assert (" (" + m1 + ")")[i + 2] == m1[i];
        assert (" (" + m2 + ")")[i + 2] == m2[i];
      }
    }
  }

  /** investError.Error: "message (code)". */
  function InvestErrorText(e: InvestError): (r: string)
    ensures |r| == |e.errorMessage| + |e.errorCode| + 3
    ensures r[..|e.errorMessage|] == e.errorMessage
    ensures r[|e.errorMessage|..|e.errorMessage| + 2] == " ("
    ensures r[|e.errorMessage| + 2..|r| - 1] == e.errorCode
    ensures r[|r| - 1] == ')'
  {
    e.errorMessage + " (" + e.errorCode + ")"
  }

  /** Two bodies with the same message render alike only when their codes agree,
      and with the same code only when their messages agree. */
  lemma {:induction false} InvestErrorTextInjective(a: InvestError, b: InvestError)
    requires a.errorMessage == b.errorMessage || a.errorCode == b.errorCode
    requires InvestErrorText(a) == InvestErrorText(b)
    ensures a == b
  {
    var t := InvestErrorText(a);
    assert |a.errorMessage| == |b.errorMessage|;
    assert a.errorMessage == t[..|a.errorMessage|] == b.errorMessage;
    assert a.errorCode == t[|a.errorMessage| + 2..|t| - 1] == b.errorCode;
  }

  /** The length beyond which ellipsis marks a body as long. */
  const EllipsisLimit: nat := 200

  /** ellipsis: a long body keeps every byte and gains "..."; a short one is
      returned as it is. The body's bytes are modelled one char per byte. */
  function Ellipsis(data: string): (r: string)
    ensures |r| >= |data| && r[..|data|] == data
    ensures |r| == |data| <==> |data| <= EllipsisLimit
    ensures |r| != |data| ==> r[|data|..] == "..."
  {
    if |data| > EllipsisLimit then data + "..." else data
  }
}
