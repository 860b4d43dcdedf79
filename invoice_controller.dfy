/**
 * The invoice endpoints (backend/controllers/invoiceController.js): pricing
 * of the submitted line items, creation against the customer collection, and
 * the filtered, paginated list, over an in-memory invoice collection kept in
 * creation order.
 */
module InvoiceController {
  import opened Wrappers
  import opened Http
  import opened Pagination
  import opened InvoiceModel
  import opened Search
  import CustomerController

  /** A submitted line item; `None` is a JSON `null`. */
  datatype ItemInput = ItemInput(name: Option<string>, quantity: Option<real>, rate: Option<real>)

  /** The body of `POST /invoices`. */
  datatype InvoiceRequest = InvoiceRequest(customer: Option<CustomerId>, invoiceDate: Option<int>, items: seq<ItemInput>)

  /** The tax rate `createInvoice` applies to every invoice, in percent. */
  const TaxRate: real := 18.0

  /** A JSON number in arithmetic; `null` converts to 0. */
  function NumberValue(x: Option<real>): real {
    x.GetOr(0.0)
  }

  /** One priced item: the input's fields and `amount = quantity * rate`. */
  function PriceItem(item: ItemInput): (r: LineItem)
    ensures r.name == item.name && r.quantity == item.quantity && r.rate == item.rate
    ensures r.amount == NumberValue(item.quantity) * NumberValue(item.rate)
  {
    LineItem(item.name, item.quantity, item.rate, NumberValue(item.quantity) * NumberValue(item.rate))
  }

  /** `items.map(...)`: the priced items, same length and order as the input. */
  function PriceItems(items: seq<ItemInput>): (r: seq<LineItem>)
    ensures |r| == |items|
    ensures forall k :: 0 <= k < |items| ==> r[k] == PriceItem(items[k])
  {
    seq(|items|, k requires 0 <= k < |items| => PriceItem(items[k]))
  }

  /** `reduce((sum, item) => sum + item.amount, 0)`: a left fold from 0, so 0 for no items. */
  function Subtotal(items: seq<LineItem>): (r: real)
    ensures items == [] ==> r == 0.0
  {
    if items == [] then 0.0 else Subtotal(items[..|items| - 1]) + items[|items| - 1].amount
  }

  /** `(subtotal * tax) / 100`: `tax` percent of the subtotal. */
  function TaxAmountOf(subtotal: real, tax: real): (r: real)
    ensures subtotal == 0.0 || tax == 0.0 ==> r == 0.0
    ensures subtotal >= 0.0 && tax >= 0.0 ==> 0.0 <= r
    ensures subtotal >= 0.0 && 0.0 <= tax <= 100.0 ==> r <= subtotal
  {
    subtotal * tax / 100.0
  }

  /** An independent statement of the subtotal: quantity times rate, summed from the front. */
  function SumOfProducts(items: seq<ItemInput>): real {
    if items == [] then 0.0
    else NumberValue(items[0].quantity) * NumberValue(items[0].rate) + SumOfProducts(items[1..])
  }

  lemma {:induction false} SubtotalAppend(a: seq<LineItem>, b: seq<LineItem>)
    ensures Subtotal(a + b) == Subtotal(a) + Subtotal(b)
  {
    if b != [] {
      assert (a + b)[..|a + b| - 1] == a + b[..|b| - 1];
      SubtotalAppend(a, b[..|b| - 1]);
    } else {
      assert a + b == a;
    }
  }

  /** The subtotal `createInvoice` computes is the sum of quantity times rate over the items. */
  lemma {:induction false} SubtotalIsSumOfProducts(items: seq<ItemInput>)
    ensures Subtotal(PriceItems(items)) == SumOfProducts(items)
  {
    if items != [] {
      var p := PriceItems(items);
      assert p == [PriceItem(items[0])] + PriceItems(items[1..]);
      SubtotalAppend([PriceItem(items[0])], PriceItems(items[1..]));
      assert Subtotal([PriceItem(items[0])]) == PriceItem(items[0]).amount by {
        assert [PriceItem(items[0])][..0] == [];
      }
      SubtotalIsSumOfProducts(items[1..]);
    }
  }

  lemma {:induction false} SubtotalNonNegative(items: seq<LineItem>)
    requires forall k :: 0 <= k < |items| ==> items[k].amount >= 0.0
    ensures Subtotal(items) >= 0.0
  {
    if items != [] {
      SubtotalNonNegative(items[..|items| - 1]);
    }
  }

  /**
   * With no negative quantity or rate, the subtotal, the tax amount and the
   * total are all at least 0.
   */
  lemma PricedTotalsNonNegative(items: seq<ItemInput>)
    requires forall k :: 0 <= k < |items| ==> NumberValue(items[k].quantity) >= 0.0 && NumberValue(items[k].rate) >= 0.0
    ensures var s := Subtotal(PriceItems(items));
      s >= 0.0 && TaxAmountOf(s, TaxRate) >= 0.0 && s + TaxAmountOf(s, TaxRate) >= 0.0
  {
    var p := PriceItems(items);
    assert forall k :: 0 <= k < |p| ==> p[k].amount >= 0.0;
    SubtotalNonNegative(p);
  }

  /** The total is the subtotal plus 18 percent of it. */
  lemma TotalIsSubtotalPlusTax(subtotal: real)
    ensures subtotal + TaxAmountOf(subtotal, TaxRate) == subtotal * 118.0 / 100.0
    ensures subtotal == 0.0 ==> TaxAmountOf(subtotal, TaxRate) == 0.0
  {
  }

  /** Two widgets at 50.00 and one gadget at 25.50: subtotal 125.50, tax 22.59, total 148.09, without rounding. */
  lemma PricingExample()
    ensures var items := [ItemInput(Some("Widget"), Some(2.0), Some(50.0)), ItemInput(Some("Gadget"), Some(1.0), Some(25.5))];
      var s := Subtotal(PriceItems(items));
      s == 125.5 && TaxAmountOf(s, TaxRate) == 22.59 && s + TaxAmountOf(s, TaxRate) == 148.09
  {
    var items := [ItemInput(Some("Widget"), Some(2.0), Some(50.0)), ItemInput(Some("Gadget"), Some(1.0), Some(25.5))];
    SubtotalIsSumOfProducts(items);
    assert items[1..][1..] == [];
  }

  /** A line item's amount is its quantity times its rate. */
  predicate AmountIsProduct(item: LineItem) {
    item.amount == NumberValue(item.quantity) * NumberValue(item.rate)
  }

  /** The documented relations between a stored invoice's line items and totals. */
  predicate Consistent(inv: Invoice) {
    && (forall k :: 0 <= k < |inv.items| ==> AmountIsProduct(inv.items[k]))
    && inv.subtotal == Subtotal(inv.items)
    && inv.tax == TaxRate
    && inv.taxAmount == TaxAmountOf(inv.subtotal, inv.tax)
    && inv.totalAmount == inv.subtotal + inv.taxAmount
  }

  lemma {:induction false} SubtotalCast(items: seq<LineItem>)
    ensures Subtotal(CastItems(items)) == Subtotal(items)
  {
    if items != [] {
      assert CastItems(items)[..|items| - 1] == CastItems(items[..|items| - 1]);
      SubtotalCast(items[..|items| - 1]);
    }
  }

  lemma PricedAmounts(items: seq<ItemInput>, cast: seq<LineItem>)
    requires cast == CastItems(PriceItems(items))
    ensures forall k :: 0 <= k < |cast| ==> AmountIsProduct(cast[k])
  {
    var priced := PriceItems(items);
    forall k | 0 <= k < |cast|
      ensures AmountIsProduct(cast[k])
    {
      assert cast[k] == CastItem(priced[k]);
      assert priced[k] == PriceItem(items[k]);
    }
  }

  /**
   * The invoice `createInvoice` saves for `request` when the collection holds
   * `count` invoices and the new document gets identity `id`.
   */
  function NewInvoice(id: InvoiceId, customer: CustomerId, invoiceDate: int, items: seq<ItemInput>, count: nat): (inv: Invoice)
    ensures Consistent(inv)
    ensures inv.id == id && inv.customer == customer && inv.invoiceDate == invoiceDate
    ensures inv.invoiceNumber == InvoiceNumber(count)
    ensures inv.items == CastItems(PriceItems(items))
    ensures inv.subtotal == SumOfProducts(items)
  {
    var priced := PriceItems(items);
    var subtotal := Subtotal(priced);
    var inv := Invoice(id, InvoiceNumber(count), customer, invoiceDate, CastItems(priced),
                       subtotal, TaxRate, TaxAmountOf(subtotal, TaxRate), subtotal + TaxAmountOf(subtotal, TaxRate));
    PricedAmounts(items, inv.items);
    SubtotalCast(priced);
    SubtotalIsSumOfProducts(items);
    inv
  }

  /**
   * Lines 17-39 and the pre-validate hook: price the items, build the document
   * with tax 18, and number it from the count of stored invoices.
   */
  method BuildInvoice(id: InvoiceId, customer: CustomerId, invoiceDate: int, items: seq<ItemInput>, count: nat)
    returns (inv: Invoice)
    ensures inv == NewInvoice(id, customer, invoiceDate, items, count)
  {
    var priced := PriceItems(items);
    var subtotal := Subtotal(priced);
    var taxAmount := TaxAmountOf(subtotal, TaxRate);
    var totalAmount := subtotal + taxAmount;
    var doc := new InvoiceDocument(id, customer, invoiceDate, priced, subtotal, Some(TaxRate), taxAmount, totalAmount);
    doc.PreValidate(count);
    inv := doc.Record();
  }

  /** The rows `Invoice.find(filter)` matches: all of them, or those of one customer. */
  function ForCustomer(rows: seq<Invoice>, customer: Option<CustomerId>): (r: seq<Invoice>)
    ensures |r| <= |rows|
    ensures customer.None? ==> r == rows
    ensures forall k :: 0 <= k < |r| ==> r[k] in rows && (customer.Some? ==> r[k].customer == customer.value)
    ensures forall k :: 0 <= k < |rows| && (customer.Some? ==> rows[k].customer == customer.value) ==> rows[k] in r
  {
    if rows == [] then []
    else
      var rest := ForCustomer(rows[..|rows| - 1], customer);
      var last := rows[|rows| - 1];
      assert forall k :: 0 <= k < |rows| - 1 ==> rows[k] == rows[..|rows| - 1][k];
      if customer.None? || last.customer == customer.value then rest + [last] else rest
  }

  /** The filter keeps order: filtering a concatenation filters each part. */
  lemma {:induction false} ForCustomerAppend(a: seq<Invoice>, b: seq<Invoice>, customer: Option<CustomerId>)
    ensures ForCustomer(a + b, customer) == ForCustomer(a, customer) + ForCustomer(b, customer)
  {
    if b == [] {
      assert a + b == a;
    } else {
      assert (a + b)[..|a + b| - 1] == a + b[..|b| - 1];
      ForCustomerAppend(a, b[..|b| - 1], customer);
    }
  }

  lemma SequentialAppend(rows: seq<Invoice>, inv: Invoice)
    requires forall i :: 0 <= i < |rows| ==> rows[i].invoiceNumber == InvoiceNumber(i)
    requires inv.invoiceNumber == InvoiceNumber(|rows|)
    ensures forall i :: 0 <= i < |rows + [inv]| ==> (rows + [inv])[i].invoiceNumber == InvoiceNumber(i)
  {
  }

  /** The invoice collection, with its unique index on `invoiceNumber`. */
  class InvoiceStore {
    /** The stored invoices, oldest first. */
    var invoices: seq<Invoice>
    /** The identity the next new document receives. */
    var nextId: nat

    ghost predicate Valid()
      reads this
    {
      && (forall i :: 0 <= i < |invoices| ==>
            ValidInvoice(invoices[i]) && Consistent(invoices[i]) && invoices[i].id < nextId)
      && (forall i, j :: 0 <= i < j < |invoices| ==>
            invoices[i].invoiceNumber != invoices[j].invoiceNumber && invoices[i].id != invoices[j].id)
    }

    /** Every stored invoice carries the number the hook gave it: the i-th has `InvoiceNumber(i)`. */
    ghost predicate SequentiallyNumbered()
      reads this
    {
      forall i :: 0 <= i < |invoices| ==> invoices[i].invoiceNumber == InvoiceNumber(i)
    }

    constructor ()
      ensures Valid() && SequentiallyNumbered() && invoices == [] && nextId == 0
    {
      invoices := [];
      nextId := 0;
    }

    /** Whether the unique index already holds `number`. */
    function NumberTaken(number: string): (r: bool)
      reads this
      ensures r <==> exists k :: 0 <= k < |invoices| && invoices[k].invoiceNumber == number
    {
      FirstWhere(invoices, (inv: Invoice) => inv.invoiceNumber, number).Some?
    }

    /** In a sequentially numbered collection the next count-based number is never taken. */
    lemma NextNumberFree()
      requires SequentiallyNumbered()
      ensures !NumberTaken(InvoiceNumber(|invoices|))
    {
      if NumberTaken(InvoiceNumber(|invoices|)) {
        var k :| 0 <= k < |invoices| && invoices[k].invoiceNumber == InvoiceNumber(|invoices|);
        InvoiceNumberInjective(k, |invoices|);
      }
    }

    /** Inserting a document: refused when the unique index already holds its number. */
    method Insert(inv: Invoice) returns (ok: bool)
      requires Valid() && ValidInvoice(inv) && Consistent(inv) && inv.id == nextId
      modifies this
      ensures Valid()
      ensures ok <==> !old(NumberTaken(inv.invoiceNumber))
      ensures ok ==> invoices == old(invoices) + [inv] && nextId == old(nextId) + 1
      ensures !ok ==> invoices == old(invoices) && nextId == old(nextId)
    {
      ok := !NumberTaken(inv.invoiceNumber);
      if ok {
        invoices := invoices + [inv];
        nextId := nextId + 1;
      }
    }

    /** The customer an invoice request refers to, as `Customer.findById` finds it. */
    static function RequestedCustomer(customers: CustomerController.CustomerTable, request: InvoiceRequest): (r: Option<CustomerId>)
      reads customers
      ensures r.Some? <==>
        (request.customer.Some? && exists k :: 0 <= k < |customers.customers| && customers.customers[k].id == request.customer.value)
      ensures r.Some? ==> r == request.customer
    {
      match request.customer
      case None => None
      case Some(c) => if customers.FindById(c).Some? then Some(c) else None
    }

    /**
     * `createInvoice`: 404 for an unknown customer; otherwise price the items,
     * build the document, number it in the pre-validate hook, validate it and
     * insert it. `now` is the clock reading used when no date is given.
     */
    method CreateInvoice(customers: CustomerController.CustomerTable, request: InvoiceRequest, now: int)
      returns (reply: Reply<Invoice>)
      requires Valid()
      modifies this
      ensures Valid()
      ensures old(SequentiallyNumbered()) ==> SequentiallyNumbered() && reply.status != StatusServerError
      ensures RequestedCustomer(customers, request).None? ==>
        reply == Refused(StatusNotFound, "Customer not found", []) && invoices == old(invoices) && nextId == old(nextId)
      ensures RequestedCustomer(customers, request).Some? ==>
        var inv := NewInvoice(old(nextId), request.customer.value, request.invoiceDate.GetOr(now), request.items, old(|invoices|));
        && (InvoiceErrors(inv) != [] ==>
              reply == Refused(StatusBadRequest, "Validation error", InvoiceErrors(inv))
              && invoices == old(invoices) && nextId == old(nextId))
        && (InvoiceErrors(inv) == [] && old(NumberTaken(inv.invoiceNumber)) ==>
              reply == Refused(StatusServerError, "Error creating invoice", [])
              && invoices == old(invoices) && nextId == old(nextId))
        && (InvoiceErrors(inv) == [] && !old(NumberTaken(inv.invoiceNumber)) ==>
              reply == Done(StatusCreated, "Invoice created successfully", inv)
              && invoices == old(invoices) + [inv] && nextId == old(nextId) + 1)
    {
      if RequestedCustomer(customers, request).None? {
        return Refused(StatusNotFound, "Customer not found", []);
      }
      reply := SaveNew(request.customer.value, request.invoiceDate.GetOr(now), request.items);
    }

    /**
     * Lines 17-66 once the customer is known: build and number the invoice for
     * the current identity and count, then save it.
     */
    method SaveNew(customer: CustomerId, invoiceDate: int, items: seq<ItemInput>) returns (reply: Reply<Invoice>)
      requires Valid()
      modifies this
      ensures Valid()
      ensures old(SequentiallyNumbered()) ==> SequentiallyNumbered() && reply.status != StatusServerError
      ensures var inv := NewInvoice(old(nextId), customer, invoiceDate, items, old(|invoices|));
        && (InvoiceErrors(inv) != [] ==>
              reply == Refused(StatusBadRequest, "Validation error", InvoiceErrors(inv))
              && invoices == old(invoices) && nextId == old(nextId))
        && (InvoiceErrors(inv) == [] && old(NumberTaken(inv.invoiceNumber)) ==>
              reply == Refused(StatusServerError, "Error creating invoice", [])
              && invoices == old(invoices) && nextId == old(nextId))
        && (InvoiceErrors(inv) == [] && !old(NumberTaken(inv.invoiceNumber)) ==>
              reply == Done(StatusCreated, "Invoice created successfully", inv)
              && invoices == old(invoices) + [inv] && nextId == old(nextId) + 1)
    {
      var inv := BuildInvoice(nextId, customer, invoiceDate, items, |invoices|);
      reply := Save(inv);
    }

    /**
     * `invoice.save()` once the hook has numbered the document: validation
     * collects every message; then the unique index on `invoiceNumber` may
     * refuse the insert, which the controller answers with 500.
     */
    method Save(inv: Invoice) returns (reply: Reply<Invoice>)
      requires Valid() && Consistent(inv) && inv.id == nextId
      modifies this
      ensures Valid()
      ensures InvoiceErrors(inv) != [] ==>
        reply == Refused(StatusBadRequest, "Validation error", InvoiceErrors(inv))
        && invoices == old(invoices) && nextId == old(nextId)
      ensures InvoiceErrors(inv) == [] && old(NumberTaken(inv.invoiceNumber)) ==>
        reply == Refused(StatusServerError, "Error creating invoice", [])
        && invoices == old(invoices) && nextId == old(nextId)
      ensures InvoiceErrors(inv) == [] && !old(NumberTaken(inv.invoiceNumber)) ==>
        reply == Done(StatusCreated, "Invoice created successfully", inv)
        && invoices == old(invoices) + [inv] && nextId == old(nextId) + 1
      ensures old(SequentiallyNumbered()) && inv.invoiceNumber == InvoiceNumber(old(|invoices|)) ==>
        SequentiallyNumbered() && reply.status != StatusServerError
    {
      var errors := InvoiceErrors(inv);
      if errors != [] {
        return Refused(StatusBadRequest, "Validation error", errors);
      }
      ghost var before := invoices;
      ghost var wasSequential := SequentiallyNumbered() && inv.invoiceNumber == InvoiceNumber(|invoices|);
      if wasSequential {
        NextNumberFree();
      }
      var ok := Insert(inv);
      if ok {
        if wasSequential {
          SequentialAppend(before, inv);
        }
        reply := Done(StatusCreated, "Invoice created successfully", inv);
      } else {
        // The duplicate-key error of the unique index on `invoiceNumber`.
        reply := Refused(StatusServerError, "Error creating invoice", []);
      }
    }

    /**
     * `getAllInvoices`: the newest-first page of the invoices of `customer`
     * (of all invoices when there is none) and the count of all matching invoices.
     */
    function ListInvoices(q: PageQuery, customer: Option<CustomerId>): (r: PageResult<Invoice>)
      reads this
      ensures r.total == |ForCustomer(invoices, customer)| && r.page == q.Page()
      ensures customer.None? ==> r.total == |invoices|
      ensures r.totalPages == TotalPages(r.total, q.Limit())
      ensures r.count == |r.data| <= q.Limit()
      ensures var n, skip := |ForCustomer(invoices, customer)|, Skip(q.Page(), q.Limit());
        |r.data| == if skip >= n then 0 else if n - skip < q.Limit() then n - skip else q.Limit()
      ensures forall k :: 0 <= k < |r.data| ==> r.data[k] in invoices
      ensures customer.Some? ==> forall k :: 0 <= k < |r.data| ==> r.data[k].customer == customer.value
      ensures forall k :: 0 <= k < |r.data| ==>
        var matching := ForCustomer(invoices, customer);
        var n := Skip(q.Page(), q.Limit()) + k;
        n < |matching| && r.data[k] == matching[|matching| - 1 - n]
    {
      var matching := ForCustomer(invoices, customer);
      PageOf(matching, q)
    }

    /** `getInvoiceById`: the invoice, or 404 when no invoice has that identity. */
    function GetInvoiceById(id: InvoiceId): (r: Reply<Invoice>)
      reads this
      ensures r.Done? <==> exists k :: 0 <= k < |invoices| && invoices[k].id == id
      ensures r.Done? ==> r.status == StatusOk && r.data in invoices && r.data.id == id
      ensures r.Refused? ==> r == Refused(StatusNotFound, "Invoice not found", [])
    {
      match FirstWhere(invoices, (inv: Invoice) => inv.id, id)
      case None => Refused(StatusNotFound, "Invoice not found", [])
      case Some(inv) => Done(StatusOk, "", inv)
    }
  }
}
