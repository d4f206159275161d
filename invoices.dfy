/**
 * Invoices of paid orders. An invoice is issued at most once per order, takes
 * a sequential `INV-` number that is also its id, copies the order's customer,
 * address and money fields, and is readable by its owner and by administrators.
 */
module Invoices {
  import opened Common
  import opened Store
  import Orders
  import ShoppingCart

  /* ---------------------------------------------------------------------- */
  /* Numbers, lines and the issued row                                      */
  /* ---------------------------------------------------------------------- */

  /** `INV-` followed by count + 1, zero-padded to at least six digits. */
  function InvoiceNumber(count: nat): string
  {
    "INV-" + PadStart(NatToString(count + 1), 6)
  }

  /** The digits after `INV-` read back as count + 1. */
  lemma InvoiceNumberReadsBack(count: nat)
    ensures |InvoiceNumber(count)| >= 10 && InvoiceNumber(count)[..4] == "INV-"
    ensures AllDigits(InvoiceNumber(count)[4..]) && ParseNat(InvoiceNumber(count)[4..]) == count + 1
  {
    PaddedNumberRoundTrip(count + 1, 6);
    assert InvoiceNumber(count)[4..] == PadStart(NatToString(count + 1), 6);
  }

  /** Different invoice counts give different invoice numbers. */
  lemma InvoiceNumberInjective(m: nat, n: nat)
    requires InvoiceNumber(m) == InvoiceNumber(n)
    ensures m == n
  {
    InvoiceNumberReadsBack(m);
    InvoiceNumberReadsBack(n);
  }

  /** The first invoice is INV-000001. */
  lemma FirstInvoiceNumber()
    ensures InvoiceNumber(0) == "INV-000001"
  {
    assert NatToString(1) == "1";
  }

  function PdfUrl(invoiceId: Id): string
  {
    "/api/invoices/" + invoiceId + "/pdf"
  }

  /** What an order item costs: its price at order time times its quantity. */
  function ItemCharge(item: OrderItem): int { item.price * item.quantity }

  function LineTotal(line: InvoiceLine): int { line.total }

  /** The invoice lines: one per order item, in order. */
  function InvoiceLines(items: seq<OrderItem>): (lines: seq<InvoiceLine>)
    ensures |lines| == |items|
  {
    seq(|items|, k requires 0 <= k < |items| =>
      InvoiceLine(items[k].name, items[k].quantity, items[k].price, items[k].price * items[k].quantity))
  }

  /** Each line carries its item's name, quantity and unit price, and totals unitPrice × quantity. */
  lemma InvoiceLinesMatchItems(items: seq<OrderItem>)
    ensures forall k :: 0 <= k < |items| ==>
      var line := InvoiceLines(items)[k];
      && line.productName == items[k].name && line.quantity == items[k].quantity
      && line.unitPrice == items[k].price && line.total == line.unitPrice * line.quantity
    ensures SumBy(InvoiceLines(items), LineTotal) == SumBy(items, ItemCharge)
  {
    SumByPointwise(InvoiceLines(items), LineTotal, items, ItemCharge);
  }

  /** `${street}, ${city}, ${postalCode}, ${country}`. */
  function CustomerAddress(a: AddressSnapshot): string
  {
    a.street + ", " + a.city + ", " + a.postalCode + ", " + a.country
  }

  /** The invoice row generateInvoice creates for an order. */
  function Issued(o: Order, orderId: Id, pdfUrl: string): Invoice
  {
    var business := o.taxId.Some? && o.taxId.value != "";
    Invoice(orderId, o.userId, if business then CustomerType.BUSINESS else CustomerType.INDIVIDUAL,
            o.firstName + " " + o.lastName, if business then o.taxId.value else "", o.email,
            CustomerAddress(o.shipping), InvoiceLines(o.items),
            o.subtotal, 0, o.shippingCost, o.total, "ISSUED", pdfUrl)
  }

  /**
   * An issued invoice is a business invoice exactly when the order carries a
   * tax id, copies the order's money fields, charges no tax and is ISSUED.
   */
  lemma IssuedContents(o: Order, orderId: Id, pdfUrl: string)
    ensures var inv := Issued(o, orderId, pdfUrl);
      && (inv.customerType == CustomerType.BUSINESS <==> o.taxId.Some? && o.taxId.value != "")
      && (inv.customerTaxId != "" ==> inv.customerType == CustomerType.BUSINESS)
      && inv.orderId == orderId && inv.userId == o.userId
      && inv.subtotal == o.subtotal && inv.shippingCost == o.shippingCost && inv.total == o.total
      && inv.taxAmount == 0 && inv.status == "ISSUED" && inv.pdfUrl == pdfUrl
      && |inv.items| == |o.items|
  {
  }

  /** The lines of the invoice of a checked-out order add up to the order's subtotal. */
  lemma PlacedOrderInvoiceAddsUp(userId: Id, profile: Profile, email: string, shipping: Address, billing: Address,
                                 ids: seq<Id>, items: map<Id, CartItem>, products: map<Id, Product>,
                                 cartId: Id, orderId: Id, pdfUrl: string)
    requires Orders.Resolved(ids, items, products)
    requires ShoppingCart.UniqueLines(items)
    requires forall j :: 0 <= j < |ids| ==> items[ids[j]].cartId == cartId
    ensures var o := Orders.PlacedOrder(userId, profile, email, shipping, billing, ids, items, products);
            SumBy(Issued(o, orderId, pdfUrl).items, LineTotal) == o.subtotal
  {
    var o := Orders.PlacedOrder(userId, profile, email, shipping, billing, ids, items, products);
    Orders.PlacedOrderContents(userId, profile, email, shipping, billing, ids, items, products, cartId);
    InvoiceLinesMatchItems(o.items);
    SumByPointwise(o.items, ItemCharge, ids, Orders.ChargeOf(items, products));
  }

  /* ---------------------------------------------------------------------- */
  /* Handlers                                                               */
  /* ---------------------------------------------------------------------- */

  /** The invoices table's unique order column: at most one invoice per order. */
  ghost predicate OneInvoicePerOrder(invoices: map<Id, Invoice>)
  {
    forall i, j :: i in invoices && j in invoices && invoices[i].orderId == invoices[j].orderId ==> i == j
  }

  predicate InvoiceOf(invoices: map<Id, Invoice>, orderId: Id, invoiceId: Id)
  {
    invoiceId in invoices && invoices[invoiceId].orderId == orderId
  }

  /** The invoice returned, and whether this call created it. */
  datatype Issuance = Issuance(invoiceId: Id, created: bool)

  /**
   * generateInvoice; `pdfWritten` says whether writing the PDF file succeeded
   * (when it fails the row stays with an empty pdfUrl and the call fails).
   */
  method GenerateInvoice(db: Db, userId: Id, orderId: Id, pdfWritten: bool) returns (r: Response<Issuance>)
    requires OneInvoicePerOrder(db.invoices)
    modifies db`invoices
    ensures orderId == "" ==> r == Fail(400, "MISSING_ORDER_ID") && db.invoices == old(db.invoices)
    ensures orderId != "" && !Orders.OwnsOrder(db.orders, userId, orderId) ==>
      r == Fail(404, "ORDER_NOT_FOUND") && db.invoices == old(db.invoices)
    ensures orderId != "" && Orders.OwnsOrder(db.orders, userId, orderId)
            && db.orders[orderId].paymentStatus != PaymentStatus.PAID ==>
      r == Fail(400, "ORDER_NOT_PAID") && db.invoices == old(db.invoices)
    ensures orderId != "" && Orders.OwnsOrder(db.orders, userId, orderId)
            && db.orders[orderId].paymentStatus == PaymentStatus.PAID
            && (exists id :: InvoiceOf(old(db.invoices), orderId, id)) ==>
      exists id :: InvoiceOf(old(db.invoices), orderId, id)
        && r == Ok(Issuance(id, false)) && db.invoices == old(db.invoices)
    ensures orderId != "" && Orders.OwnsOrder(db.orders, userId, orderId)
            && db.orders[orderId].paymentStatus == PaymentStatus.PAID
            && !(exists id :: InvoiceOf(old(db.invoices), orderId, id)) ==>
      var number := InvoiceNumber(|old(db.invoices)|);
      && (number in old(db.invoices) ==>
            r == Fail(500, "INVOICE_GENERATION_ERROR") && db.invoices == old(db.invoices))
      && (number !in old(db.invoices) && !pdfWritten ==>
            && r == Fail(500, "INVOICE_GENERATION_ERROR")
            && db.invoices == old(db.invoices)[number := Issued(db.orders[orderId], orderId, "")])
      && (number !in old(db.invoices) && pdfWritten ==>
            && r == Ok(Issuance(number, true))
            && db.invoices == old(db.invoices)[number := Issued(db.orders[orderId], orderId, PdfUrl(number))])
    ensures OneInvoicePerOrder(db.invoices)
    ensures r.Ok? ==> InvoiceOf(db.invoices, orderId, r.value.invoiceId)
  {
    if orderId == "" {
      return Fail(400, "MISSING_ORDER_ID");
    }
    if !(orderId in db.orders && db.orders[orderId].userId == userId) {
      return Fail(404, "ORDER_NOT_FOUND");
    }
    var order := db.orders[orderId];
    if order.paymentStatus != PaymentStatus.PAID {
      return Fail(400, "ORDER_NOT_PAID");
    }
    if exists id :: id in db.invoices && db.invoices[id].orderId == orderId {
      var id :| id in db.invoices && db.invoices[id].orderId == orderId;
      assert InvoiceOf(db.invoices, orderId, id);
      return Ok(Issuance(id, false));
    }
    var number := InvoiceNumber(|db.invoices|);
    if number in db.invoices {
      return Fail(500, "INVOICE_GENERATION_ERROR");
    }
    db.invoices := db.invoices[number := Issued(order, orderId, "")];
    if !pdfWritten {
      return Fail(500, "INVOICE_GENERATION_ERROR");
    }
    db.invoices := db.invoices[number := db.invoices[number].(pdfUrl := PdfUrl(number))];
    r := Ok(Issuance(number, true));
  }

  /** Once an order has its invoice, generating again answers that same invoice. */
  lemma SecondGenerationFindsTheFirst(invoices: map<Id, Invoice>, orderId: Id, first: Id, id: Id)
    requires OneInvoicePerOrder(invoices)
    requires InvoiceOf(invoices, orderId, first) && InvoiceOf(invoices, orderId, id)
    ensures id == first
  {
  }

  /** getInvoicePDF's access rule. */
  predicate CanReadInvoice(role: Role, requesterId: Id, ownerId: Id)
  {
    role == Role.ADMIN || ownerId == requesterId
  }

  /**
   * getInvoicePDF up to streaming the file; `pdfExists` says whether the file
   * is on disk. The answer is the invoice number used as the file name.
   */
  method GetInvoicePdf(db: Db, invoiceId: Id, requesterId: Id, role: Role, pdfExists: bool) returns (r: Response<Id>)
    requires forall i :: i in db.invoices ==> db.invoices[i].orderId in db.orders
    ensures invoiceId !in db.invoices ==> r == Fail(404, "INVOICE_NOT_FOUND")
    ensures invoiceId in db.invoices ==>
      var owner := db.orders[db.invoices[invoiceId].orderId].userId;
      && (!CanReadInvoice(role, requesterId, owner) ==> r == Fail(403, "FORBIDDEN"))
      && (CanReadInvoice(role, requesterId, owner) && !pdfExists ==> r == Fail(404, "PDF_NOT_FOUND"))
      && (CanReadInvoice(role, requesterId, owner) && pdfExists ==> r == Ok(invoiceId))
    ensures r.Ok? <==> invoiceId in db.invoices && pdfExists
                       && (role == Role.ADMIN || db.orders[db.invoices[invoiceId].orderId].userId == requesterId)
  {
    if invoiceId !in db.invoices {
      return Fail(404, "INVOICE_NOT_FOUND");
    }
    if role != Role.ADMIN && db.orders[db.invoices[invoiceId].orderId].userId != requesterId {
      return Fail(403, "FORBIDDEN");
    }
    if !pdfExists {
      return Fail(404, "PDF_NOT_FOUND");
    }
    r := Ok(invoiceId);
  }

  method GetInvoiceByOrderId(db: Db, userId: Id, orderId: Id) returns (r: Response<Id>)
    ensures !Orders.OwnsOrder(db.orders, userId, orderId) ==> r == Fail(404, "ORDER_NOT_FOUND")
    ensures Orders.OwnsOrder(db.orders, userId, orderId) && !(exists id :: InvoiceOf(db.invoices, orderId, id)) ==>
      r == Fail(404, "INVOICE_NOT_FOUND")
    ensures r.Ok? ==> Orders.OwnsOrder(db.orders, userId, orderId) && InvoiceOf(db.invoices, orderId, r.value)
    ensures Orders.OwnsOrder(db.orders, userId, orderId) && (exists id :: InvoiceOf(db.invoices, orderId, id)) ==> r.Ok?
  {
    if !(orderId in db.orders && db.orders[orderId].userId == userId) {
      return Fail(404, "ORDER_NOT_FOUND");
    }
    if !(exists id :: id in db.invoices && db.invoices[id].orderId == orderId) {
      return Fail(404, "INVOICE_NOT_FOUND");
    }
    var id :| id in db.invoices && db.invoices[id].orderId == orderId;
    assert InvoiceOf(db.invoices, orderId, id);
    r := Ok(id);
  }
}
