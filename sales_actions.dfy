/** The sale-actions endpoint: the "cancel" and "refund" actions on a stored sale.
    Both put every sold unit back into stock and leave the sale CANCELLED; "refund" also
    records a refund that copies the sale's line items. The endpoint's database is the
    product stock table, the sale table and the refund table. */
module SalesActions {
  import opened Wrappers

  type ProductId = string
  type SaleId = string

  datatype SaleStatus = COMPLETED | CANCELLED | REFUNDED

  /** A line of a stored sale: the product sold, how many units, and the prices (in cents)
      snapshotted when the sale was made. */
  datatype SaleItem = SaleItem(productId: ProductId, quantity: int, unitPrice: int, subtotal: int)

  datatype Sale = Sale(tenantId: string, status: SaleStatus, total: int, items: seq<SaleItem>)

  datatype RefundStatus = RefundCompleted

  datatype RefundItem = RefundItem(productId: ProductId, quantity: int, unitPrice: int, subtotal: int)

  datatype Refund = Refund(
    id: string, refundNumber: string, saleId: SaleId, total: int,
    status: RefundStatus, tenantId: string, items: seq<RefundItem>)

  /** The JSON body `{ action, saleId, tenantId }`; an absent field is the empty string,
      which JavaScript treats as falsy just like `undefined`. */
  datatype Request = Request(action: string, saleId: SaleId, tenantId: string)

  datatype Response =
    | SaleCancelled(sale: Sale)
    | RefundCreated(refundId: string, refundNumber: string)
    | Failure(status: nat, error: string)

  /** The three tables the endpoint reads and writes: stock per product, sales by id, refunds. */
  datatype Tables = Tables(stock: map<ProductId, int>, sales: map<SaleId, Sale>, refunds: seq<Refund>)

  /** Units of product `p` over the line items (lines for the same product add up). */
  function QtyOf(items: seq<SaleItem>, p: ProductId): int
  {
    if items == [] then 0
    else (if items[0].productId == p then items[0].quantity else 0) + QtyOf(items[1..], p)
  }

  predicate AllStocked(stock: map<ProductId, int>, items: seq<SaleItem>) {
    forall i :: 0 <= i < |items| ==> items[i].productId in stock
  }

  /** The stock table after `quantity: { increment: item.quantity }` for each item in order,
      or None when an item's product has no row (the update throws and the transaction rolls back). */
  function Restock(stock: map<ProductId, int>, items: seq<SaleItem>): (r: Option<map<ProductId, int>>)
    ensures r.Some? ==> r.value.Keys == stock.Keys
  {
    if items == [] then Some(stock)
    else if items[0].productId !in stock then None
    else
      var p := items[0].productId;
      Restock(stock[p := stock[p] + items[0].quantity], items[1..])
  }

  /** Restocking succeeds exactly when every item's product exists; it then raises each product
      by the units sold of it and touches no other product and no key of the table. */
  lemma {:induction false} RestockAdds(stock: map<ProductId, int>, items: seq<SaleItem>)
    ensures Restock(stock, items).Some? <==> AllStocked(stock, items)
    ensures Restock(stock, items).Some? ==>
      var s := Restock(stock, items).value;
      forall p :: p in stock ==> s[p] == stock[p] + QtyOf(items, p)
  {
    if items != [] {
      var p := items[0].productId;
      if p in stock {
        var next := stock[p := stock[p] + items[0].quantity];
        RestockAdds(next, items[1..]);
        assert AllStocked(next, items[1..]) <==> AllStocked(stock, items) by {
          assert forall i :: 1 <= i < |items| ==> items[1..][i - 1] == items[i];
        }
      }
    }
  }

  /** A product that no line item names keeps its stock. */
  lemma {:induction false} QtyOfAbsent(items: seq<SaleItem>, p: ProductId)
    requires forall i :: 0 <= i < |items| ==> items[i].productId != p
    ensures QtyOf(items, p) == 0
  {
    if items != [] {
      QtyOfAbsent(items[1..], p);
    }
  }

  /** The loop `for (const item of sale.items) await tx.product.update(...)` run on a working
      copy of the stock table: the result is committed only if every update succeeded. */
  method ApplyIncrements(stock: map<ProductId, int>, items: seq<SaleItem>)
    returns (r: Option<map<ProductId, int>>)
    ensures r == Restock(stock, items)
  {
    var next := stock;
    var i := 0;
    while i < |items|
      invariant 0 <= i <= |items|
      invariant Restock(next, items[i..]) == Restock(stock, items)
    {
      var item := items[i];
      assert items[i..][0] == item && items[i..][1..] == items[i + 1..];
      if item.productId !in next {
        return None;
      }
      next := next[item.productId := next[item.productId] + item.quantity];
      i := i + 1;
    }
    assert items[i..] == [];
    return Some(next);
  }

  /** The refund's line items, field by field the sale's. */
  function CopyItems(items: seq<SaleItem>): (r: seq<RefundItem>)
    ensures |r| == |items|
    ensures forall i :: 0 <= i < |items| ==>
      r[i].productId == items[i].productId && r[i].quantity == items[i].quantity &&
      r[i].unitPrice == items[i].unitPrice && r[i].subtotal == items[i].subtotal
  {
    seq(|items|, i requires 0 <= i < |items| =>
      RefundItem(items[i].productId, items[i].quantity, items[i].unitPrice, items[i].subtotal))
  }

  /** The sale the endpoint finds: `findFirst({ where: { id: saleId, tenantId } })`. */
  function FindSale(sales: map<SaleId, Sale>, saleId: SaleId, tenantId: string): (r: Option<Sale>)
    ensures r.Some? <==> saleId in sales && sales[saleId].tenantId == tenantId
    ensures r.Some? ==> r.value == sales[saleId]
  {
    if saleId in sales && sales[saleId].tenantId == tenantId then Some(sales[saleId]) else None
  }

  /** What one POST does to the tables and what it answers. `authenticated` is whether a session
      exists; `refundId` and `refundNumber` are the identifiers the database and the clock supply
      for a refund row. */
  function Handle(t: Tables, authenticated: bool, req: Request, refundId: string, refundNumber: string)
    : (out: (Tables, Response))
    ensures out.1.Failure? ==> out.0 == t
    ensures out.0.sales.Keys == t.sales.Keys && out.0.stock.Keys == t.stock.Keys
    ensures forall s :: s in t.sales && s != req.saleId ==> out.0.sales[s] == t.sales[s]
  {
    if !authenticated then (t, Failure(401, "No autorizado"))
    else if req.action == "" || req.saleId == "" || req.tenantId == "" then
      (t, Failure(400, "Datos faltantes"))
    else match FindSale(t.sales, req.saleId, req.tenantId)
      case None => (t, Failure(404, "Venta no encontrada"))
      case Some(sale) =>
        if req.action == "cancel" then
          if sale.status == CANCELLED then (t, Failure(400, "La venta ya está anulada"))
          else match Restock(t.stock, sale.items)
            case None => (t, Failure(500, "Error interno del servidor"))
            case Some(stock) =>
              var cancelled := sale.(status := CANCELLED);
              (t.(stock := stock, sales := t.sales[req.saleId := cancelled]), SaleCancelled(cancelled))
        else if req.action == "refund" then
          if sale.status != COMPLETED then (t, Failure(400, "Venta no válida para devolución"))
          else match Restock(t.stock, sale.items)
            case None => (t, Failure(500, "Error interno del servidor"))
            case Some(stock) =>
              var refund := Refund(refundId, refundNumber, req.saleId, sale.total, RefundCompleted,
                                   req.tenantId, CopyItems(sale.items));
              (Tables(stock, t.sales[req.saleId := sale.(status := CANCELLED)], t.refunds + [refund]),
               RefundCreated(refundId, refundNumber))
        else (t, Failure(400, "Acción no válida"))
  }

  /** The endpoint over its database: a product stock table, a sale table and a refund table. */
  class Store {
    var stock: map<ProductId, int>
    var sales: map<SaleId, Sale>
    var refunds: seq<Refund>

    function Snapshot(): Tables
      reads this
    {
      Tables(stock, sales, refunds)
    }

    constructor (stock: map<ProductId, int>, sales: map<SaleId, Sale>)
      ensures Snapshot() == Tables(stock, sales, [])
    {
      this.stock := stock;
      this.sales := sales;
      this.refunds := [];
    }

    /** `POST /api/sales-actions`. Each transaction (status write, stock writes, refund row)
        commits as a whole or not at all. */
    method Post(authenticated: bool, req: Request, refundId: string, refundNumber: string)
      returns (resp: Response)
      modifies this
      ensures (Snapshot(), resp) == Handle(old(Snapshot()), authenticated, req, refundId, refundNumber)
    {
      if !authenticated {
        return Failure(401, "No autorizado");
      }
      if req.action == "" || req.saleId == "" || req.tenantId == "" {
        return Failure(400, "Datos faltantes");
      }
      var found := FindSale(sales, req.saleId, req.tenantId);
      if found.None? {
        return Failure(404, "Venta no encontrada");
      }
      var sale := found.value;
      if req.action == "cancel" {
        if sale.status == CANCELLED {
          return Failure(400, "La venta ya está anulada");
        }
        var restocked := ApplyIncrements(stock, sale.items);
        if restocked.None? {
          return Failure(500, "Error interno del servidor");
        }
        var cancelled := sale.(status := CANCELLED);
        sales := sales[req.saleId := cancelled];
        stock := restocked.value;
        return SaleCancelled(cancelled);
      }
      if req.action == "refund" {
        if sale.status != COMPLETED {
          return Failure(400, "Venta no válida para devolución");
        }
        var refund := Refund(refundId, refundNumber, req.saleId, sale.total, RefundCompleted,
                             req.tenantId, CopyItems(sale.items));
        var restocked := ApplyIncrements(stock, sale.items);
        if restocked.None? {
          return Failure(500, "Error interno del servidor");
        }
        refunds := refunds + [refund];
        stock := restocked.value;
        sales := sales[req.saleId := sale.(status := CANCELLED)];
        return RefundCreated(refundId, refundNumber);
      }
      return Failure(400, "Acción no válida");
    }
  }

  // ---------------------------------------------------------------------------
  // Properties of one request

  /** Without all of `action`, `saleId` and `tenantId` the request gets 400 before any lookup. */
  lemma MissingFieldRejected(t: Tables, req: Request, refundId: string, refundNumber: string)
    requires req.action == "" || req.saleId == "" || req.tenantId == ""
    ensures Handle(t, true, req, refundId, refundNumber) == (t, Failure(400, "Datos faltantes"))
  {
  }

  /** A sale is found only under its own tenant: an unknown id or another tenant's sale gives 404
      and changes nothing. */
  lemma ForeignSaleNotFound(t: Tables, req: Request, refundId: string, refundNumber: string)
    requires req.action != "" && req.saleId != "" && req.tenantId != ""
    requires req.saleId !in t.sales || t.sales[req.saleId].tenantId != req.tenantId
    ensures Handle(t, true, req, refundId, refundNumber) == (t, Failure(404, "Venta no encontrada"))
  {
  }

  /** Cancelling an already cancelled sale is refused with 400 and no write. */
  lemma CancelTwiceRejected(t: Tables, req: Request, refundId: string, refundNumber: string)
    requires req.action == "cancel" && req.saleId != "" && req.tenantId != ""
    requires req.saleId in t.sales && t.sales[req.saleId].tenantId == req.tenantId
    requires t.sales[req.saleId].status == CANCELLED
    ensures Handle(t, true, req, refundId, refundNumber) == (t, Failure(400, "La venta ya está anulada"))
  {
  }

  /** Cancel's only guard is "not already CANCELLED": a COMPLETED or REFUNDED sale is accepted.
      It succeeds exactly when every sold product still has a row; then the sale becomes CANCELLED,
      every product gains the units sold of it, products outside the sale keep their stock and no
      refund is written. If a product row is missing, the whole transaction fails with 500. */
  lemma CancelRestocks(t: Tables, req: Request, refundId: string, refundNumber: string)
    requires req.action == "cancel" && req.saleId != "" && req.tenantId != ""
    requires req.saleId in t.sales && t.sales[req.saleId].tenantId == req.tenantId
    requires t.sales[req.saleId].status != CANCELLED
    ensures var (t', resp) := Handle(t, true, req, refundId, refundNumber);
      var sale := t.sales[req.saleId];
      && (resp.SaleCancelled? <==> AllStocked(t.stock, sale.items))
      && (resp.SaleCancelled? ==>
            && t'.sales[req.saleId] == sale.(status := CANCELLED)
            && resp.sale == t'.sales[req.saleId]
            && t'.refunds == t.refunds
            && (forall p :: p in t.stock ==> t'.stock[p] == t.stock[p] + QtyOf(sale.items, p))
            && (forall p :: p in t.stock && (forall i :: 0 <= i < |sale.items| ==> sale.items[i].productId != p)
                  ==> t'.stock[p] == t.stock[p]))
      && (!resp.SaleCancelled? ==> resp == Failure(500, "Error interno del servidor") && t' == t)
  {
    var sale := t.sales[req.saleId];
    RestockAdds(t.stock, sale.items);
    forall p | p in t.stock && (forall i :: 0 <= i < |sale.items| ==> sale.items[i].productId != p)
      ensures QtyOf(sale.items, p) == 0
    {
      QtyOfAbsent(sale.items, p);
    }
  }

  /** Refund is allowed only on a COMPLETED sale; otherwise 400 and no write. */
  lemma RefundNeedsCompleted(t: Tables, req: Request, refundId: string, refundNumber: string)
    requires req.action == "refund" && req.saleId != "" && req.tenantId != ""
    requires req.saleId in t.sales && t.sales[req.saleId].tenantId == req.tenantId
    requires t.sales[req.saleId].status != COMPLETED
    ensures Handle(t, true, req, refundId, refundNumber) == (t, Failure(400, "Venta no válida para devolución"))
  {
  }

  /** A refund of a COMPLETED sale whose products all exist appends one refund record (status
      COMPLETED, the sale's total, a line-for-line copy of its items), restocks exactly as a cancel
      does, and leaves the sale CANCELLED (not REFUNDED). */
  lemma RefundRestocksAndRecords(t: Tables, req: Request, refundId: string, refundNumber: string)
    requires req.action == "refund" && req.saleId != "" && req.tenantId != ""
    requires req.saleId in t.sales && t.sales[req.saleId].tenantId == req.tenantId
    requires t.sales[req.saleId].status == COMPLETED
    requires AllStocked(t.stock, t.sales[req.saleId].items)
    ensures var (t', resp) := Handle(t, true, req, refundId, refundNumber);
      var sale := t.sales[req.saleId];
      && resp == RefundCreated(refundId, refundNumber)
      && |t'.refunds| == |t.refunds| + 1 && t'.refunds[..|t.refunds|] == t.refunds
      && var r := t'.refunds[|t.refunds|];
      && r.id == refundId && r.refundNumber == refundNumber && r.saleId == req.saleId
      && r.tenantId == req.tenantId && r.total == sale.total && r.status == RefundCompleted
      && |r.items| == |sale.items|
      && (forall i :: 0 <= i < |sale.items| ==>
            r.items[i] == RefundItem(sale.items[i].productId, sale.items[i].quantity,
                                     sale.items[i].unitPrice, sale.items[i].subtotal))
      && t'.sales[req.saleId] == sale.(status := CANCELLED)
      && (forall p :: p in t.stock ==> t'.stock[p] == t.stock[p] + QtyOf(sale.items, p))
  {
    RestockAdds(t.stock, t.sales[req.saleId].items);
  }

  /** A refund of a COMPLETED sale naming a product that has no stock row fails in the middle of
      the transaction: it is rolled back, so no refund record, no stock change and no status
      change, and the answer is 500. */
  lemma RefundRollsBack(t: Tables, req: Request, refundId: string, refundNumber: string)
    requires req.action == "refund" && req.saleId != "" && req.tenantId != ""
    requires req.saleId in t.sales && t.sales[req.saleId].tenantId == req.tenantId
    requires t.sales[req.saleId].status == COMPLETED
    requires !AllStocked(t.stock, t.sales[req.saleId].items)
    ensures Handle(t, true, req, refundId, refundNumber) == (t, Failure(500, "Error interno del servidor"))
  {
    RestockAdds(t.stock, t.sales[req.saleId].items);
  }

  /** Any action other than "cancel" and "refund" is refused with 400 after the lookup, with no write. */
  lemma UnknownActionRejected(t: Tables, req: Request, refundId: string, refundNumber: string)
    requires req.action != "cancel" && req.action != "refund"
    ensures Handle(t, true, req, refundId, refundNumber).0 == t
    ensures Handle(t, true, req, refundId, refundNumber).1.Failure?
  {
  }

  /** For a sale that was found, an unknown action answers 400 "Acción no válida". */
  lemma UnknownActionOnFoundSale(t: Tables, req: Request, refundId: string, refundNumber: string)
    requires req.action != "" && req.action != "cancel" && req.action != "refund"
    requires req.saleId != "" && req.tenantId != ""
    requires req.saleId in t.sales && t.sales[req.saleId].tenantId == req.tenantId
    ensures Handle(t, true, req, refundId, refundNumber) == (t, Failure(400, "Acción no válida"))
  {
  }

  // ---------------------------------------------------------------------------
  // Restocking happens at most once per sale, over any sequence of requests

  datatype Call = Call(authenticated: bool, req: Request, refundId: string, refundNumber: string)

  function Step(t: Tables, c: Call): (Tables, Response) {
    Handle(t, c.authenticated, c.req, c.refundId, c.refundNumber)
  }

  /** The call put the units of sale `s` back into stock. */
  predicate RestocksSale(t: Tables, c: Call, s: SaleId) {
    c.req.saleId == s && (Step(t, c).1.SaleCancelled? || Step(t, c).1.RefundCreated?)
  }

  /** How many of the calls, run in order from `t`, restocked sale `s`. */
  function RestockCount(t: Tables, calls: seq<Call>, s: SaleId): nat
    decreases |calls|
  {
    if calls == [] then 0
    else (if RestocksSale(t, calls[0], s) then 1 else 0) + RestockCount(Step(t, calls[0]).0, calls[1..], s)
  }

  predicate IsCancelled(t: Tables, s: SaleId) {
    s in t.sales && t.sales[s].status == CANCELLED
  }

  /** One call: only a sale that is not CANCELLED can be restocked, it is CANCELLED afterwards,
      and a CANCELLED sale stays CANCELLED. */
  lemma StepCancels(t: Tables, c: Call, s: SaleId)
    ensures RestocksSale(t, c, s) ==> s in t.sales && !IsCancelled(t, s) && IsCancelled(Step(t, c).0, s)
    ensures IsCancelled(t, s) ==> IsCancelled(Step(t, c).0, s) && !RestocksSale(t, c, s)
  {
  }

  /** Over any sequence of cancel and refund requests to this endpoint, a sale's stock is put
      back at most once, and never for a sale that starts out CANCELLED. */
  lemma {:induction false} RestockAtMostOnce(t: Tables, calls: seq<Call>, s: SaleId)
    ensures RestockCount(t, calls, s) <= if IsCancelled(t, s) then 0 else 1
    decreases |calls|
  {
    if calls != [] {
      var t' := Step(t, calls[0]).0;
      StepCancels(t, calls[0], s);
      RestockAtMostOnce(t', calls[1..], s);
    }
  }

  /** The bound above is per endpoint. A sale REFUNDED elsewhere (the separate refund route
      restocks it and marks it REFUNDED) passes cancel's guard, so a cancel request restocks it
      once more. */
  lemma CancelRestocksRefundedSale(t: Tables, req: Request, refundId: string, refundNumber: string)
    requires req.action == "cancel" && req.saleId != "" && req.tenantId != ""
    requires req.saleId in t.sales && t.sales[req.saleId].tenantId == req.tenantId
    requires t.sales[req.saleId].status == REFUNDED
    requires AllStocked(t.stock, t.sales[req.saleId].items)
    ensures RestockCount(t, [Call(true, req, refundId, refundNumber)], req.saleId) == 1
    ensures var t' := Handle(t, true, req, refundId, refundNumber).0;
      forall p :: p in t.stock ==> t'.stock[p] == t.stock[p] + QtyOf(t.sales[req.saleId].items, p)
  {
    CancelRestocks(t, req, refundId, refundNumber);
  }
}
