/**
 * Webpay payment of an order. Initiation asks the gateway for a token and
 * stores it on the order, leaving the payment PENDING; the gateway's return
 * callback commits the token, finds the order holding it and records the
 * outcome, always answering with a redirect to the storefront.
 */
module Payments {
  import opened Common
  import opened Store
  import opened Webpay
  import Orders

  method InitWebpayPayment(db: Db, userId: Id, orderId: Id, gateway: Option<CreateResponse>)
    returns (r: Response<PaymentInit>)
    modifies db`orders
    ensures orderId == "" ==> r == Fail(400, "MISSING_ORDER_ID") && db.orders == old(db.orders)
    ensures orderId != "" && !Orders.OwnsOrder(old(db.orders), userId, orderId) ==>
      r == Fail(404, "ORDER_NOT_FOUND") && db.orders == old(db.orders)
    ensures orderId != "" && Orders.OwnsOrder(old(db.orders), userId, orderId)
            && old(db.orders)[orderId].paymentStatus != PaymentStatus.PENDING ==>
      r == Fail(400, "INVALID_PAYMENT_STATUS") && db.orders == old(db.orders)
    ensures orderId != "" && Orders.OwnsOrder(old(db.orders), userId, orderId)
            && old(db.orders)[orderId].paymentStatus == PaymentStatus.PENDING && gateway.None? ==>
      r == Fail(500, "WEBPAY_INIT_ERROR") && db.orders == old(db.orders)
    ensures orderId != "" && Orders.OwnsOrder(old(db.orders), userId, orderId)
            && old(db.orders)[orderId].paymentStatus == PaymentStatus.PENDING && gateway.Some? ==>
      var o := old(db.orders)[orderId];
      && r == Ok(PaymentInit(orderId, userId, o.total, gateway.value.token, gateway.value.url))
      && db.orders == old(db.orders)[orderId := o.(webpayToken := Some(gateway.value.token))]
  {
    if orderId == "" {
      return Fail(400, "MISSING_ORDER_ID");
    }
    if !(orderId in db.orders && db.orders[orderId].userId == userId) {
      return Fail(404, "ORDER_NOT_FOUND");
    }
    var order := db.orders[orderId];
    if order.paymentStatus != PaymentStatus.PENDING {
      return Fail(400, "INVALID_PAYMENT_STATUS");
    }
    if gateway.None? {
      return Fail(500, "WEBPAY_INIT_ERROR");
    }
    db.orders := db.orders[orderId := order.(webpayToken := Some(gateway.value.token))];
    r := Ok(PaymentInit(orderId, userId, order.total, gateway.value.token, gateway.value.url));
  }

  /** The order after the gateway's answer: paid and processing when approved, failed otherwise. */
  function Settled(o: Order, c: CommitResponse): (s: Order)
    ensures s.paymentStatus == PaymentStatus.PAID <==> IsApproved(c)
    ensures s.paymentStatus == PaymentStatus.FAILED <==> !IsApproved(c)
    ensures s.status == (if IsApproved(c) then OrderStatus.PROCESSING else o.status)
    ensures s.webpayTransactionId == TransactionId(c)
    ensures s == o.(paymentStatus := s.paymentStatus, status := s.status, webpayTransactionId := s.webpayTransactionId)
  {
    if IsApproved(c)
    then o.(paymentStatus := PaymentStatus.PAID, status := OrderStatus.PROCESSING, webpayTransactionId := TransactionId(c))
    else o.(paymentStatus := PaymentStatus.FAILED, webpayTransactionId := TransactionId(c))
  }

  /** The storefront redirect that reports a settled payment. */
  function ResultUrl(frontendUrl: string, orderId: Id, approved: bool): string
  {
    frontendUrl + "?orderId=" + orderId + "&status=" + (if approved then "success" else "failed")
  }

  /** The redirect reports success exactly when the payment was approved. */
  lemma ResultUrlReportsOutcome(frontendUrl: string, orderId: Id, approved: bool)
    ensures var u := ResultUrl(frontendUrl, orderId, approved);
            approved <==> u[|u| - 7..] == "success"
  {
    var u := ResultUrl(frontendUrl, orderId, approved);
    if !approved {
      assert u[|u| - 6..] == "failed";
      assert u[|u| - 7..][1] == 'f';
    }
  }

  /** A freshly initiated order that the gateway approves ends PAID and PROCESSING; a rejected one ends FAILED and keeps its status. */
  lemma InitThenCommit(o: Order, token: string, c: CommitResponse)
    requires o.paymentStatus == PaymentStatus.PENDING
    ensures var s := Settled(o.(webpayToken := Some(token)), c);
      && s.webpayToken == Some(token) && s.items == o.items && s.total == o.total
      && (IsApproved(c) ==> s.paymentStatus == PaymentStatus.PAID && s.status == OrderStatus.PROCESSING)
      && (!IsApproved(c) ==> s.paymentStatus == PaymentStatus.FAILED && s.status == o.status)
  {
  }

  predicate HoldsToken(orders: map<Id, Order>, id: Id, token: string)
  {
    id in orders && orders[id].webpayToken == Some(token)
  }

  /**
   * The gateway's return: `commit` is the gateway's answer for the token
   * (absent when the call throws). Every path ends in a redirect.
   */
  method HandleWebpayReturn(db: Db, bodyToken: string, queryToken: string,
                            commit: Option<CommitResponse>, frontendUrl: string)
    returns (url: string)
    modifies db`orders
    ensures ReturnToken(bodyToken, queryToken) == "" || commit.None? ==>
      url == frontendUrl + "?status=error" && db.orders == old(db.orders)
    ensures ReturnToken(bodyToken, queryToken) != "" && commit.Some?
            && !(exists id :: HoldsToken(old(db.orders), id, ReturnToken(bodyToken, queryToken))) ==>
      url == frontendUrl + "?status=error" && db.orders == old(db.orders)
    ensures ReturnToken(bodyToken, queryToken) != "" && commit.Some?
            && (exists id :: HoldsToken(old(db.orders), id, ReturnToken(bodyToken, queryToken))) ==>
      exists id :: HoldsToken(old(db.orders), id, ReturnToken(bodyToken, queryToken))
        && url == ResultUrl(frontendUrl, id, IsApproved(commit.value))
        && db.orders == old(db.orders)[id := Settled(old(db.orders)[id], commit.value)]
  {
    var token := ReturnToken(bodyToken, queryToken);
    if token == "" || commit.None? {
      return frontendUrl + "?status=error";
    }
    if !(exists id :: id in db.orders && db.orders[id].webpayToken == Some(token)) {
      return frontendUrl + "?status=error";
    }
    var id :| id in db.orders && db.orders[id].webpayToken == Some(token);
    assert HoldsToken(db.orders, id, token);
    db.orders := db.orders[id := Settled(db.orders[id], commit.value)];
    url := ResultUrl(frontendUrl, id, IsApproved(commit.value));
  }
}
