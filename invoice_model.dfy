/**
 * The invoice document (backend/models/Invoice.js): line items and invoices as
 * records, the schema's constraints as a validator that collects one message per
 * failing path, and the pre-validate hook that numbers a new invoice.
 */
module InvoiceModel {
  import opened Wrappers
  import opened Text

  type CustomerId = nat
  type InvoiceId = nat

  /** The `tax` default of the schema, in percent. */
  const DefaultTax: real := 18.0

  /** A line item as stored; a `None` field is a JSON `null`. */
  datatype LineItem = LineItem(name: Option<string>, quantity: Option<real>, rate: Option<real>, amount: real)

  datatype Invoice = Invoice(
    id: InvoiceId,
    invoiceNumber: string,
    customer: CustomerId,
    invoiceDate: int,
    items: seq<LineItem>,
    subtotal: real,
    tax: real,
    taxAmount: real,
    totalAmount: real)

  /** Casting an item into the document applies the `trim` setter to its name. */
  function CastItem(item: LineItem): (r: LineItem)
    ensures r.quantity == item.quantity && r.rate == item.rate && r.amount == item.amount
    ensures r.name.Some? <==> item.name.Some?
    ensures item.name.Some? ==> r.name.value == Trim(item.name.value)
  {
    match item.name
    case None => item
    case Some(n) => item.(name := Some(Trim(n)))
  }

  function CastItems(items: seq<LineItem>): (r: seq<LineItem>)
    ensures |r| == |items|
    ensures forall k :: 0 <= k < |items| ==> r[k] == CastItem(items[k])
  {
    seq(|items|, k requires 0 <= k < |items| => CastItem(items[k]))
  }

  /** What the item schema accepts: a non-empty (already trimmed) name, quantity at least 1, rate at least 0. */
  predicate ValidItem(item: LineItem) {
    && item.name.Some? && item.name.value != ""
    && item.quantity.Some? && item.quantity.value >= 1.0
    && item.rate.Some? && item.rate.value >= 0.0
  }

  /**
   * The messages of the item schema's validators, in path order; per path
   * `required` is checked first and a path reports at most one message.
   */
  function ItemErrors(item: LineItem): (errs: seq<string>)
    ensures errs == [] <==> ValidItem(item)
    ensures (item.name == None || item.name == Some("")) <==> "Item name is required" in errs
    ensures item.quantity == None <==> "Quantity is required" in errs
    ensures (item.quantity.Some? && item.quantity.value < 1.0) <==> "Quantity must be at least 1" in errs
    ensures item.rate == None <==> "Rate is required" in errs
    ensures (item.rate.Some? && item.rate.value < 0.0) <==> "Rate must be a positive number" in errs
    ensures forall m :: m in errs ==> m in ItemMessages
  {
    (if item.name == None || item.name == Some("") then ["Item name is required"] else [])
    + (match item.quantity
       case None => ["Quantity is required"]
       case Some(q) => if q < 1.0 then ["Quantity must be at least 1"] else [])
    + (match item.rate
       case None => ["Rate is required"]
       case Some(r) => if r < 0.0 then ["Rate must be a positive number"] else [])
  }

  /** The messages an item's paths can report. */
  const ItemMessages: set<string> := {"Item name is required", "Quantity is required",
    "Quantity must be at least 1", "Rate is required", "Rate must be a positive number"}

  /** The messages of all items, item by item. */
  function AllItemErrors(items: seq<LineItem>): (errs: seq<string>)
    ensures errs == [] <==> forall k :: 0 <= k < |items| ==> ValidItem(items[k])
  {
    if items == [] then []
    else
      var rest := AllItemErrors(items[1..]);
      assert forall k :: 1 <= k < |items| ==> items[k] == items[1..][k - 1];
      ItemErrors(items[0]) + rest
  }

  /** Every message of every failing item is collected, and no other message. */
  lemma {:induction false} AllItemErrorsCollects(items: seq<LineItem>)
    ensures forall k, m :: 0 <= k < |items| && m in ItemErrors(items[k]) ==> m in AllItemErrors(items)
    ensures forall m :: m in AllItemErrors(items) ==> exists k :: 0 <= k < |items| && m in ItemErrors(items[k])
  {
    if items != [] {
      AllItemErrorsCollects(items[1..]);
      assert forall k :: 1 <= k < |items| ==> items[k] == items[1..][k - 1];
      forall m | m in AllItemErrors(items)
        ensures exists k :: 0 <= k < |items| && m in ItemErrors(items[k])
      {
        if m !in ItemErrors(items[0]) {
          assert m in AllItemErrors(items[1..]);
          var j :| 0 <= j < |items[1..]| && m in ItemErrors(items[1..][j]);
          assert items[1..][j] == items[j + 1];
        }
      }
    }
  }

  const NumberRequired: string := "Path `invoiceNumber` is required."
  const ItemsRequired: string := "At least one item is required"

  /** The messages the invoice's own paths can report, as opposed to its items'. */
  const InvoiceMessages: set<string> := {NumberRequired, ItemsRequired,
    MinMessage("subtotal"), MinMessage("taxAmount"), MinMessage("totalAmount")}

  /** The invoice's own messages are pairwise different and none is an item's message. */
  lemma InvoiceMessagesDistinct()
    ensures NumberRequired != ItemsRequired
    ensures NumberRequired != MinMessage("subtotal") && NumberRequired != MinMessage("taxAmount")
            && NumberRequired != MinMessage("totalAmount")
    ensures ItemsRequired != MinMessage("subtotal") && ItemsRequired != MinMessage("taxAmount")
            && ItemsRequired != MinMessage("totalAmount")
    ensures MinMessage("subtotal") != MinMessage("taxAmount") && MinMessage("subtotal") != MinMessage("totalAmount")
            && MinMessage("taxAmount") != MinMessage("totalAmount")
    ensures InvoiceMessages !! ItemMessages
  {
    assert ItemsRequired[0] != MinMessage("subtotal")[0];
    assert ItemsRequired[0] != MinMessage("taxAmount")[0];
    assert ItemsRequired[0] != MinMessage("totalAmount")[0];
    assert NumberRequired[0] != ItemsRequired[0];
    assert MinMessage("subtotal")[6] != MinMessage("taxAmount")[6];
    assert MinMessage("subtotal")[6] != MinMessage("totalAmount")[6];
    assert MinMessage("taxAmount")[7] != MinMessage("totalAmount")[7];
    assert NumberRequired[6] != MinMessage("subtotal")[6];
    assert NumberRequired[6] != MinMessage("taxAmount")[6];
    assert NumberRequired[6] != MinMessage("totalAmount")[6];
  }

  /** The message of one path: present exactly when the path fails. */
  function MessageIf(fails: bool, message: string): (r: seq<string>)
    ensures r == [] <==> !fails
    ensures forall m :: m in r <==> fails && m == message
  {
    if fails then [message] else []
  }

  /** A message no item can report is not among the items' messages. */
  lemma {:induction false} NotAnItemsMessage(items: seq<LineItem>, m: string)
    requires m !in ItemMessages
    ensures m !in AllItemErrors(items)
  {
    if items != [] {
      NotAnItemsMessage(items[1..], m);
    }
  }

  /** No two of the invoice's own messages are equal, and the items report none of them. */
  lemma OwnMessagesApart(items: seq<LineItem>)
    ensures NumberRequired != ItemsRequired
    ensures NumberRequired != MinMessage("subtotal") && NumberRequired != MinMessage("taxAmount")
            && NumberRequired != MinMessage("totalAmount")
    ensures ItemsRequired != MinMessage("subtotal") && ItemsRequired != MinMessage("taxAmount")
            && ItemsRequired != MinMessage("totalAmount")
    ensures MinMessage("subtotal") != MinMessage("taxAmount") && MinMessage("subtotal") != MinMessage("totalAmount")
            && MinMessage("taxAmount") != MinMessage("totalAmount")
    ensures NumberRequired !in AllItemErrors(items) && ItemsRequired !in AllItemErrors(items)
    ensures MinMessage("subtotal") !in AllItemErrors(items) && MinMessage("taxAmount") !in AllItemErrors(items)
            && MinMessage("totalAmount") !in AllItemErrors(items)
  {
    InvoiceMessagesDistinct();
    NotAnItemsMessage(items, NumberRequired);
    NotAnItemsMessage(items, ItemsRequired);
    NotAnItemsMessage(items, MinMessage("subtotal"));
    NotAnItemsMessage(items, MinMessage("taxAmount"));
    NotAnItemsMessage(items, MinMessage("totalAmount"));
  }

  /** Mongoose's message for a `min: 0` violation (the offending value is not rendered). */
  function MinMessage(path: string): string {
    "Path `" + path + "` is less than minimum allowed value (0)."
  }

  /** What the invoice schema accepts. */
  predicate ValidInvoice(inv: Invoice) {
    && inv.invoiceNumber != ""
    && |inv.items| > 0
    && (forall k :: 0 <= k < |inv.items| ==> ValidItem(inv.items[k]))
    && inv.subtotal >= 0.0
    && inv.taxAmount >= 0.0
    && inv.totalAmount >= 0.0
  }

  /**
   * The validation error of saving `inv`: every failing path contributes its
   * message and all of them are reported together.
   */
  function InvoiceErrors(inv: Invoice): (errs: seq<string>)
    ensures errs == [] <==> ValidInvoice(inv)
    ensures inv.invoiceNumber == "" <==> NumberRequired in errs
    ensures inv.items == [] <==> ItemsRequired in errs
    ensures inv.subtotal < 0.0 <==> MinMessage("subtotal") in errs
    ensures inv.taxAmount < 0.0 <==> MinMessage("taxAmount") in errs
    ensures inv.totalAmount < 0.0 <==> MinMessage("totalAmount") in errs
  {
    var number := MessageIf(inv.invoiceNumber == "", NumberRequired);
    var required := MessageIf(inv.items == [], ItemsRequired);
    var items := AllItemErrors(inv.items);
    var subtotal := MessageIf(inv.subtotal < 0.0, MinMessage("subtotal"));
    var taxAmount := MessageIf(inv.taxAmount < 0.0, MinMessage("taxAmount"));
    var totalAmount := MessageIf(inv.totalAmount < 0.0, MinMessage("totalAmount"));
    OwnMessagesApart(inv.items);
    var errs := number + required + items + subtotal + taxAmount + totalAmount;
    InConcat(NumberRequired, number, required, items, subtotal, taxAmount, totalAmount);
    InConcat(ItemsRequired, number, required, items, subtotal, taxAmount, totalAmount);
    InConcat(MinMessage("subtotal"), number, required, items, subtotal, taxAmount, totalAmount);
    InConcat(MinMessage("taxAmount"), number, required, items, subtotal, taxAmount, totalAmount);
    InConcat(MinMessage("totalAmount"), number, required, items, subtotal, taxAmount, totalAmount);
    errs
  }

  /** Membership in the six parts of a validation error. */
  lemma InConcat(m: string, a: seq<string>, b: seq<string>, c: seq<string>, d: seq<string>, e: seq<string>, f: seq<string>)
    ensures m in a + b + c + d + e + f <==> m in a || m in b || m in c || m in d || m in e || m in f
  {
  }

  /**
   * Every message of every failing item is among the messages of the invoice,
   * and every other message is one of the invoice's own.
   */
  lemma InvoiceErrorsCollectsItems(inv: Invoice)
    ensures forall k, m :: 0 <= k < |inv.items| && m in ItemErrors(inv.items[k]) ==> m in InvoiceErrors(inv)
    ensures forall m :: m in InvoiceErrors(inv) ==> m in AllItemErrors(inv.items) || m in InvoiceMessages
  {
    var number := MessageIf(inv.invoiceNumber == "", NumberRequired);
    var required := MessageIf(inv.items == [], ItemsRequired);
    var items := AllItemErrors(inv.items);
    var subtotal := MessageIf(inv.subtotal < 0.0, MinMessage("subtotal"));
    var taxAmount := MessageIf(inv.taxAmount < 0.0, MinMessage("taxAmount"));
    var totalAmount := MessageIf(inv.totalAmount < 0.0, MinMessage("totalAmount"));
    var errs := InvoiceErrors(inv);
    assert errs == number + required + items + subtotal + taxAmount + totalAmount;
    AllItemErrorsCollects(inv.items);
    forall m | m in items
      ensures m in errs
    {
      InConcat(m, number, required, items, subtotal, taxAmount, totalAmount);
    }
    forall m | m in errs
      ensures m in items || m in InvoiceMessages
    {
      InConcat(m, number, required, items, subtotal, taxAmount, totalAmount);
    }
  }

  /** The number the pre-validate hook gives the invoice created when `count` invoices exist. */
  function InvoiceNumber(count: nat): (r: string)
    ensures StartsWith(r, "INV-") && |r| >= 9
  {
    "INV-" + PadStart(NatToString(count + 1), 5, '0')
  }

  /** The number is `INV-` followed by `count + 1` in decimal, left-padded with zeros to width 5. */
  lemma InvoiceNumberFormat(count: nat)
    ensures StartsWith(InvoiceNumber(count), "INV-")
    ensures AllDigits(InvoiceNumber(count)[4..])
    ensures DigitsValue(InvoiceNumber(count)[4..]) == count + 1
    ensures |InvoiceNumber(count)| == 9 <==> count + 1 <= 99999
  {
    var digits := NatToString(count + 1);
    var padded := PadStart(digits, 5, '0');
    assert InvoiceNumber(count)[4..] == padded;
    NatToStringValue(count + 1);
    if |digits| < 5 {
      assert padded == seq(5 - |digits|, _ => '0') + digits;
      LeadingZerosValue(5 - |digits|, digits);
    }
    NatToStringLength(count + 1, 5);
    assert Pow10(5) == 100000;
  }

  /** Distinct counts give distinct numbers, also past 99999: `padStart` never truncates. */
  lemma InvoiceNumberInjective(a: nat, b: nat)
    ensures InvoiceNumber(a) == InvoiceNumber(b) <==> a == b
  {
    if InvoiceNumber(a) == InvoiceNumber(b) {
      InvoiceNumberFormat(a);
      InvoiceNumberFormat(b);
    }
  }

  /** A Mongoose invoice document between `new Invoice(...)` and its insertion. */
  class InvoiceDocument {
    const id: InvoiceId
    const customer: CustomerId
    const invoiceDate: int
    const items: seq<LineItem>
    const subtotal: real
    const tax: real
    const taxAmount: real
    const totalAmount: real
    /** `""` stands for a number not yet set. */
    var invoiceNumber: string

    /** `new Invoice({...})`: casts the items and fills in the `tax` default. */
    constructor (id: InvoiceId, customer: CustomerId, invoiceDate: int, items: seq<LineItem>,
                 subtotal: real, tax: Option<real>, taxAmount: real, totalAmount: real)
      ensures this.id == id && this.customer == customer && this.invoiceDate == invoiceDate
      ensures this.items == CastItems(items)
      ensures this.subtotal == subtotal && this.taxAmount == taxAmount && this.totalAmount == totalAmount
      ensures this.tax == tax.GetOr(DefaultTax)
      ensures invoiceNumber == ""
    {
      this.id := id;
      this.customer := customer;
      this.invoiceDate := invoiceDate;
      this.items := CastItems(items);
      this.subtotal := subtotal;
      this.tax := tax.GetOr(DefaultTax);
      this.taxAmount := taxAmount;
      this.totalAmount := totalAmount;
      invoiceNumber := "";
    }

    /** The pre-validate hook: number the invoice from the current count unless it already has a number. */
    method PreValidate(count: nat)
      modifies this`invoiceNumber
      ensures old(invoiceNumber) != "" ==> invoiceNumber == old(invoiceNumber)
      ensures old(invoiceNumber) == "" ==> invoiceNumber == InvoiceNumber(count)
    {
      if invoiceNumber == "" {
        invoiceNumber := InvoiceNumber(count);
      }
    }

    /** The record that saving the document stores. */
    function Record(): (r: Invoice)
      reads this
      ensures r.id == id && r.invoiceNumber == invoiceNumber && r.customer == customer
      ensures r.invoiceDate == invoiceDate && r.items == items
      ensures r.subtotal == subtotal && r.tax == tax && r.taxAmount == taxAmount && r.totalAmount == totalAmount
    {
      Invoice(id, invoiceNumber, customer, invoiceDate, items, subtotal, tax, taxAmount, totalAmount)
    }
  }
}
