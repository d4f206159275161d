/**
 * The payment gateway as the handlers see it: `create` answers a token and a
 * redirect URL, `commit` answers the authorization outcome of a token. Both are
 * inputs of the handlers; a call that throws is an absent answer.
 */
module Webpay {
  import opened Common

  datatype CreateResponse = CreateResponse(token: string, url: string)

  /** The gateway request of a payment and the gateway's answer. */
  datatype PaymentInit = PaymentInit(buyOrder: string, sessionId: string, amount: int, token: string, url: string)

  datatype CommitResponse = CommitResponse(
    status: string, responseCode: int, transactionDate: Option<string>, sessionId: Option<string>)

  /** The gateway authorized the payment. */
  predicate IsApproved(c: CommitResponse)
  {
    c.status == "AUTHORIZED" && c.responseCode == 0
  }

  /** `response.transaction_date?.toString() || null`. */
  function TransactionId(c: CommitResponse): (r: Option<string>)
    ensures r.Some? <==> c.transactionDate.Some? && c.transactionDate.value != ""
    ensures r.Some? ==> r.value == c.transactionDate.value
  {
    if c.transactionDate.Some? then OrNull(c.transactionDate.value) else None
  }

  /** `(req.body && req.body.token_ws) || (req.query && req.query.token_ws)`; "" is an absent token. */
  function ReturnToken(bodyToken: string, queryToken: string): (t: string)
    ensures t == "" <==> bodyToken == "" && queryToken == ""
    ensures bodyToken != "" ==> t == bodyToken
    ensures bodyToken == "" ==> t == queryToken
  {
    OrElse(bodyToken, queryToken)
  }

  /** `s.substring(0, n)`. */
  function Prefix(s: string, n: nat): (r: string)
    ensures |r| <= n && r <= s
    ensures |s| <= n ==> r == s
  {
    if |s| <= n then s else s[..n]
  }
}
