/** The new-sale form: a cart of lines keyed by product, a product search, and the checks and
    payload built when the cashier submits. Money is in integer cents. */
module SaleForm {
  import opened Wrappers
  import opened Text
  import Seqs

  type ProductId = string

  /** A product as the form lists it in the search results. */
  datatype Product = Product(id: ProductId, name: string, price: int, quantity: int, barCode: Option<string>)

  /** A cart line. */
  datatype CartLine = CartLine(productId: ProductId, productName: string, quantity: int, unitPrice: int, subtotal: int)

  datatype PaymentMethod = CASH | CARD | TRANSFER | OTHER

  datatype PayloadItem = PayloadItem(productId: ProductId, quantity: int, unitPrice: int, subtotal: int)

  /** The object handed to `onSubmit`. `paymentNote` is present only for OTHER. */
  datatype SalePayload = SalePayload(
    customerId: Option<string>, paymentMethod: PaymentMethod, items: seq<PayloadItem>,
    total: int, paymentNote: Option<string>)

  datatype SubmitOutcome = Refused(message: string) | Submitted(payload: SalePayload)

  // ---------------------------------------------------------------------------
  // The cart as a value

  /** Index of the first line for `p`: `items.find(item => item.productId === p)`. */
  function Find(items: seq<CartLine>, p: ProductId): (r: Option<nat>)
    ensures r.Some? ==> r.value < |items| && items[r.value].productId == p
    ensures r.Some? ==> forall j :: 0 <= j < r.value ==> items[j].productId != p
    ensures r.None? ==> forall j :: 0 <= j < |items| ==> items[j].productId != p
  {
    if items == [] then None
    else if items[0].productId == p then Some(0)
    else match Find(items[1..], p)
      case None => None
      case Some(k) => Some(k + 1)
  }

  predicate UniqueIds(items: seq<CartLine>) {
    forall i, j :: 0 <= i < j < |items| ==> items[i].productId != items[j].productId
  }

  /** Every line holds at least one unit and its subtotal is quantity times unit price. */
  predicate WellPriced(items: seq<CartLine>) {
    forall i :: 0 <= i < |items| ==> items[i].quantity >= 1 && items[i].subtotal == items[i].quantity * items[i].unitPrice
  }

  predicate CartInvariant(items: seq<CartLine>) {
    UniqueIds(items) && WellPriced(items)
  }

  /** `items.filter(item => item.productId !== p)`. */
  function RemoveLines(items: seq<CartLine>, p: ProductId): seq<CartLine> {
    Seqs.Filter(items, (l: CartLine) => l.productId != p)
  }

  /** `items.map(...)` that gives every line of `p` quantity `q` and subtotal `q * unitPrice`. */
  function Requantify(items: seq<CartLine>, p: ProductId, q: int): (r: seq<CartLine>)
    ensures |r| == |items|
  {
    seq(|items|, i requires 0 <= i < |items| =>
      if items[i].productId == p then items[i].(quantity := q, subtotal := q * items[i].unitPrice) else items[i])
  }

  /** The cart after `updateItemQuantity(p, q)`. */
  function SetQuantity(items: seq<CartLine>, p: ProductId, q: int): seq<CartLine> {
    if q <= 0 then RemoveLines(items, p) else Requantify(items, p, q)
  }

  function NewLine(product: Product): CartLine {
    CartLine(product.id, product.name, 1, product.price, product.price)
  }

  /** The cart after `addItem(product)`. */
  function AddProduct(items: seq<CartLine>, product: Product): seq<CartLine> {
    match Find(items, product.id)
    case Some(i) => SetQuantity(items, product.id, items[i].quantity + 1)
    case None => items + [NewLine(product)]
  }

  /** `getTotal()`: `items.reduce((total, item) => total + item.subtotal, 0)`. */
  function Total(items: seq<CartLine>): int {
    if items == [] then 0 else items[0].subtotal + Total(items[1..])
  }

  /** Sum of the subtotals of the lines of `p`. */
  function SubtotalOf(items: seq<CartLine>, p: ProductId): int {
    if items == [] then 0
    else (if items[0].productId == p then items[0].subtotal else 0) + SubtotalOf(items[1..], p)
  }

  /** Sum of `q * unitPrice` over the lines of `p`. */
  function RepricedOf(items: seq<CartLine>, p: ProductId, q: int): int {
    if items == [] then 0
    else (if items[0].productId == p then q * items[0].unitPrice else 0) + RepricedOf(items[1..], p, q)
  }

  // ---------------------------------------------------------------------------
  // What each cart operation does to the lines

  /** Adding a product already in the cart raises its line by one unit and adds no line; a new
      product is appended as one unit priced at the product's price. */
  lemma AddProductEffect(items: seq<CartLine>, product: Product)
    requires CartInvariant(items)
    ensures var r := AddProduct(items, product);
      match Find(items, product.id)
      case Some(i) =>
        && |r| == |items|
        && r[i] == items[i].(quantity := items[i].quantity + 1, subtotal := (items[i].quantity + 1) * items[i].unitPrice)
        && (forall j :: 0 <= j < |items| && j != i ==> r[j] == items[j])
      case None =>
        r == items + [CartLine(product.id, product.name, 1, product.price, product.price)]
  {
  }

  /** `updateItemQuantity(p, q)` with `q > 0` changes only p's line, to quantity `q` and subtotal
      `q * unitPrice`, keeping length and order; with `q <= 0` it removes p's line. */
  lemma SetQuantityEffect(items: seq<CartLine>, p: ProductId, q: int)
    ensures q <= 0 ==> SetQuantity(items, p, q) == RemoveLines(items, p)
    ensures q > 0 ==> var r := SetQuantity(items, p, q);
      && |r| == |items|
      && forall j :: 0 <= j < |items| ==>
           r[j] == if items[j].productId == p then items[j].(quantity := q, subtotal := q * items[j].unitPrice) else items[j]
  {
  }

  /** `removeItem(p)` deletes exactly the lines of `p` and keeps the others in their order. */
  lemma RemoveLinesEffect(items: seq<CartLine>, p: ProductId)
    ensures var r := RemoveLines(items, p);
      && Seqs.IsSubsequence(r, items)
      && (forall l :: l in r ==> l.productId != p)
      && (forall j :: 0 <= j < |items| && items[j].productId != p ==> items[j] in r)
  {
    Seqs.FilterIsSubsequence(items, (l: CartLine) => l.productId != p);
  }

  // ---------------------------------------------------------------------------
  // The cart invariant is kept by every operation

  lemma {:induction false} SubsequenceKeepsInvariant(r: seq<CartLine>, items: seq<CartLine>)
    requires Seqs.IsSubsequence(r, items) && CartInvariant(items)
    ensures CartInvariant(r)
    decreases |items|
  {
    if r != [] && items != [] {
      assert CartInvariant(items[1..]);
      if r[0] == items[0] {
        SubsequenceKeepsInvariant(r[1..], items[1..]);
        forall j | 1 <= j < |r| ensures r[j] != items[0] && r[j].productId != r[0].productId {
          Seqs.SubsequenceMember(r[1..], items[1..], j - 1);
        }
      } else {
        SubsequenceKeepsInvariant(r, items[1..]);
      }
    }
  }

  lemma RemoveKeepsInvariant(items: seq<CartLine>, p: ProductId)
    requires CartInvariant(items)
    ensures CartInvariant(RemoveLines(items, p))
  {
    RemoveLinesEffect(items, p);
    SubsequenceKeepsInvariant(RemoveLines(items, p), items);
  }

  lemma SetQuantityKeepsInvariant(items: seq<CartLine>, p: ProductId, q: int)
    requires CartInvariant(items)
    ensures CartInvariant(SetQuantity(items, p, q))
  {
    if q <= 0 { RemoveKeepsInvariant(items, p); }
  }

  /** Product ids stay pairwise distinct and every subtotal stays quantity times unit price
      across `addItem`. */
  lemma AddKeepsInvariant(items: seq<CartLine>, product: Product)
    requires CartInvariant(items)
    ensures CartInvariant(AddProduct(items, product))
  {
    match Find(items, product.id)
    case Some(i) => SetQuantityKeepsInvariant(items, product.id, items[i].quantity + 1);
    case None =>
  }

  // ---------------------------------------------------------------------------
  // The total

  lemma {:induction false} TotalRemoveLines(items: seq<CartLine>, p: ProductId)
    ensures Total(RemoveLines(items, p)) == Total(items) - SubtotalOf(items, p)
  {
    if items != [] {
      TotalRemoveLines(items[1..], p);
    }
  }

  lemma {:induction false} TotalRequantify(items: seq<CartLine>, p: ProductId, q: int)
    ensures Total(Requantify(items, p, q)) == Total(items) - SubtotalOf(items, p) + RepricedOf(items, p, q)
  {
    if items != [] {
      TotalRequantify(items[1..], p, q);
      assert Requantify(items, p, q)[1..] == Requantify(items[1..], p, q);
    }
  }

  /** With distinct ids, the sums over "the lines of p" are the one line of p, or nothing. */
  lemma {:induction false} SumsOverUniqueLine(items: seq<CartLine>, p: ProductId, q: int)
    requires UniqueIds(items)
    ensures Find(items, p).Some? ==> var i := Find(items, p).value;
      SubtotalOf(items, p) == items[i].subtotal && RepricedOf(items, p, q) == q * items[i].unitPrice
    ensures Find(items, p).None? ==> SubtotalOf(items, p) == 0 && RepricedOf(items, p, q) == 0
  {
    if items != [] {
      assert UniqueIds(items[1..]);
      SumsOverUniqueLine(items[1..], p, q);
      if items[0].productId == p {
        assert Find(items[1..], p).None?;
      }
    }
  }

  /** Adding a product raises the total by exactly one unit price: the stored price of its
      line if it is already in the cart, the product's price otherwise. */
  lemma TotalAfterAdd(items: seq<CartLine>, product: Product)
    requires CartInvariant(items)
    ensures Total(AddProduct(items, product)) ==
      Total(items) + match Find(items, product.id) case Some(i) => items[i].unitPrice case None => product.price
  {
    match Find(items, product.id)
    case Some(i) =>
      TotalRequantify(items, product.id, items[i].quantity + 1);
      SumsOverUniqueLine(items, product.id, items[i].quantity + 1);
    case None =>
      TotalAppend(items, NewLine(product));
  }

  lemma {:induction false} TotalAppend(items: seq<CartLine>, line: CartLine)
    ensures Total(items + [line]) == Total(items) + line.subtotal
  {
    if items != [] {
      assert (items + [line])[1..] == items[1..] + [line];
      TotalAppend(items[1..], line);
    }
  }

  /** Setting p's quantity to `q > 0` replaces its subtotal by `q * unitPrice` in the total;
      a `q <= 0` or a removal takes p's subtotal out of it. */
  lemma TotalAfterSetQuantity(items: seq<CartLine>, p: ProductId, q: int)
    requires CartInvariant(items)
    ensures Total(SetQuantity(items, p, q)) ==
      match Find(items, p)
      case None => Total(items)
      case Some(i) => if q <= 0 then Total(items) - items[i].subtotal
                      else Total(items) - items[i].subtotal + q * items[i].unitPrice
  {
    SumsOverUniqueLine(items, p, q);
    if q <= 0 { TotalRemoveLines(items, p); } else { TotalRequantify(items, p, q); }
  }

  // ---------------------------------------------------------------------------
  // Search and submit

  /** The products shown under the search box: none for a blank term, otherwise those whose
      lower-cased name or bar code contains the trimmed lower-cased term. */
  function SearchResults(products: seq<Product>, searchTerm: string): (r: seq<Product>)
    ensures |r| <= |products| && forall pr :: pr in r ==> pr in products
    ensures IsBlank(searchTerm) ==> r == []
  {
    TrimEmptyIffBlank(searchTerm);
    if Trim(searchTerm) == [] then []
    else
      var term := Trim(Lower(searchTerm));
      Seqs.Filter(products, (pr: Product) =>
        Contains(Lower(pr.name), term) ||
        Contains(Lower(match pr.barCode case Some(b) => b case None => ""), term))
  }

  /** A blank term shows nothing; otherwise a product is shown iff it is listed and its name or
      bar code matches, whatever its stock (a result with stock 0 can still be added). */
  lemma SearchResultsMatch(products: seq<Product>, searchTerm: string, pr: Product)
    ensures IsBlank(searchTerm) ==> SearchResults(products, searchTerm) == []
    ensures !IsBlank(searchTerm) ==>
      (pr in SearchResults(products, searchTerm) <==>
        pr in products &&
        (Contains(Lower(pr.name), Trim(Lower(searchTerm))) ||
         Contains(Lower(if pr.barCode.Some? then pr.barCode.value else ""), Trim(Lower(searchTerm)))))
  {
    TrimEmptyIffBlank(searchTerm);
    if !IsBlank(searchTerm) && pr in products {
      var i :| 0 <= i < |products| && products[i] == pr;
    }
  }

  /** `handleSubmit`: refused for an empty cart, and for OTHER without a non-blank note;
      otherwise the payload carries the lines, `getTotal()` and, only for OTHER, the trimmed note. */
  function Submit(items: seq<CartLine>, method_: PaymentMethod, paymentNote: string, selectedCustomer: string)
    : (r: SubmitOutcome)
    ensures r.Refused? <==> items == [] || (method_ == OTHER && IsBlank(paymentNote))
    ensures r.Submitted? ==>
      && r.payload.total == Total(items)
      && r.payload.paymentMethod == method_
      && |r.payload.items| == |items|
      && (forall i :: 0 <= i < |items| ==>
            r.payload.items[i] == PayloadItem(items[i].productId, items[i].quantity, items[i].unitPrice, items[i].subtotal))
      && (r.payload.paymentNote.Some? <==> method_ == OTHER)
      && (method_ == OTHER ==> r.payload.paymentNote == Some(Trim(paymentNote)))
      && (r.payload.customerId.None? <==> selectedCustomer == "")
      && (selectedCustomer != "" ==> r.payload.customerId == Some(selectedCustomer))
  {
    TrimEmptyIffBlank(paymentNote);
    if |items| == 0 then Refused("Agrega al menos un producto a la venta")
    else if method_ == OTHER && Trim(paymentNote) == [] then Refused("Por favor especifica el método de pago")
    else
      Submitted(SalePayload(
        if selectedCustomer == "" then None else Some(selectedCustomer),
        method_,
        seq(|items|, i requires 0 <= i < |items| =>
          PayloadItem(items[i].productId, items[i].quantity, items[i].unitPrice, items[i].subtotal)),
        Total(items),
        if method_ == OTHER then Some(Trim(paymentNote)) else None))
  }

  /** Quantity times unit price, summed over the cart. */
  function LineValue(items: seq<CartLine>): int {
    if items == [] then 0 else items[0].quantity * items[0].unitPrice + LineValue(items[1..])
  }

  /** In a well-priced cart (the invariant every operation keeps), the total that is submitted
      is the sum of quantity times unit price. */
  lemma {:induction false} TotalIsLineValue(items: seq<CartLine>)
    requires WellPriced(items)
    ensures Total(items) == LineValue(items)
  {
    if items != [] {
      TotalIsLineValue(items[1..]);
    }
  }

  // ---------------------------------------------------------------------------
  // The form's cart state

  class CartForm {
    var items: seq<CartLine>
    var searchTerm: string

    ghost predicate Valid()
      reads this
    {
      CartInvariant(items)
    }

    constructor ()
      ensures Valid() && items == [] && searchTerm == ""
    {
      items := [];
      searchTerm := "";
    }

    method RemoveItem(p: ProductId)
      requires Valid()
      modifies this`items
      ensures Valid()
      ensures items == RemoveLines(old(items), p)
    {
      RemoveKeepsInvariant(items, p);
      items := Seqs.Filter(items, (l: CartLine) => l.productId != p);
    }

    method UpdateItemQuantity(p: ProductId, quantity: int)
      requires Valid()
      modifies this`items
      ensures Valid()
      ensures items == SetQuantity(old(items), p, quantity)
    {
      if quantity <= 0 {
        RemoveItem(p);
        return;
      }
      SetQuantityKeepsInvariant(items, p, quantity);
      items := Requantify(items, p, quantity);
    }

    method AddItem(product: Product)
      requires Valid()
      modifies this
      ensures Valid()
      ensures items == AddProduct(old(items), product) && searchTerm == ""
    {
      var existing := Find(items, product.id);
      if existing.Some? {
        UpdateItemQuantity(product.id, items[existing.value].quantity + 1);
      } else {
        AddKeepsInvariant(items, product);
        items := items + [NewLine(product)];
      }
      searchTerm := "";
    }
  }
}
