/**
 * The create-invoice form (frontend/src/components/Invoices/InvoiceForm.js):
 * a draft list of line items that the user edits, appends to and removes
 * from, the live totals the form shows, and the filter that decides which
 * drafts are submitted.
 */
module InvoiceForm {
  import opened Wrappers
  import opened Text
  import opened InvoiceModel
  import opened InvoiceController

  /** A draft line item as the form holds it; a cleared number input is `None` (`null`). */
  datatype DraftItem = DraftItem(name: string, quantity: Option<real>, rate: Option<real>)

  /** The item the form starts with and appends: no name, quantity 1, rate 0. */
  const BlankItem: DraftItem := DraftItem("", Some(1.0), Some(0.0))

  /** One `handleItemChange(index, field, value)`: the field and the value it is set to. */
  datatype ItemEdit =
    | SetName(name: string)
    | SetQuantity(quantity: Option<real>)
    | SetRate(rate: Option<real>)

  /** The tax rate the form applies to its preview, in percent. */
  const FormTaxRate: real := 18.0

  /** `newItems[index][field] = value`: the named field takes the value, the other two keep theirs. */
  function ApplyEdit(item: DraftItem, edit: ItemEdit): (r: DraftItem)
    ensures r.name == (if edit.SetName? then edit.name else item.name)
    ensures r.quantity == (if edit.SetQuantity? then edit.quantity else item.quantity)
    ensures r.rate == (if edit.SetRate? then edit.rate else item.rate)
  {
    match edit
    case SetName(n) => item.(name := n)
    case SetQuantity(q) => item.(quantity := q)
    case SetRate(x) => item.(rate := x)
  }

  /** `(x || 0)` on a number input: a cleared input counts as 0. */
  function OrZero(x: Option<real>): real {
    x.GetOr(0.0)
  }

  /**
   * `items.reduce((sum, item) => sum + (quantity || 0) * (rate || 0), 0)`: a
   * left fold from 0 over every draft, passing or not; 0 for no drafts.
   */
  function DraftSubtotal(items: seq<DraftItem>): (r: real)
    ensures items == [] ==> r == 0.0
  {
    if items == [] then 0.0
    else DraftSubtotal(items[..|items| - 1]) + OrZero(items[|items| - 1].quantity) * OrZero(items[|items| - 1].rate)
  }

  /** The request item the form sends for a draft. */
  function ToInput(item: DraftItem): ItemInput {
    ItemInput(Some(item.name), item.quantity, item.rate)
  }

  function Inputs(items: seq<DraftItem>): (r: seq<ItemInput>)
    ensures |r| == |items|
    ensures forall k :: 0 <= k < |items| ==> r[k] == ToInput(items[k])
  {
    seq(|items|, k requires 0 <= k < |items| => ToInput(items[k]))
  }

  /**
   * The form's subtotal is the one the backend computes from the same items:
   * the form's `(x || 0)` and the backend's arithmetic on `null` both read a
   * cleared input as 0.
   */
  lemma {:induction false} DraftSubtotalMatchesBackend(items: seq<DraftItem>)
    ensures DraftSubtotal(items) == Subtotal(PriceItems(Inputs(items)))
  {
    if items != [] {
      var n := |items|;
      var front := items[..n - 1];
      var priced := PriceItems(Inputs(items));
      assert priced[..n - 1] == PriceItems(Inputs(front)) by {
        assert forall k :: 0 <= k < n - 1 ==> priced[k] == PriceItem(ToInput(front[k]));
      }
      DraftSubtotalMatchesBackend(front);
      var last := items[n - 1];
      assert priced[n - 1] == PriceItem(ToInput(last));
      assert NumberValue(last.quantity) == OrZero(last.quantity) && NumberValue(last.rate) == OrZero(last.rate);
    }
  }

  /**
   * The submit filter `item.name && item.quantity > 0 && item.rate >= 0`,
   * read with JavaScript's comparisons on `null`: `null > 0` is false, so a
   * cleared quantity fails, but `null >= 0` is true, so a cleared rate passes.
   */
  predicate Passes(item: DraftItem) {
    && item.name != ""
    && item.quantity.Some? && item.quantity.value > 0.0
    && (item.rate.None? || item.rate.value >= 0.0)
  }

  /** `items.filter(Passes)`: the passing drafts, in their order. */
  function SubmittedItems(items: seq<DraftItem>): (r: seq<DraftItem>)
    ensures |r| <= |items|
    ensures forall x :: x in r <==> x in items && Passes(x)
    ensures r == [] <==> forall k :: 0 <= k < |items| ==> !Passes(items[k])
    ensures (forall k :: 0 <= k < |items| ==> Passes(items[k])) ==> r == items
  {
    if items == [] then []
    else
      var rest := SubmittedItems(items[1..]);
      assert forall x :: x in items <==> x == items[0] || x in items[1..];
      assert forall k :: 1 <= k < |items| ==> items[k] == items[1..][k - 1];
      if Passes(items[0]) then [items[0]] + rest else rest
  }

  /** The filter keeps order: filtering a concatenation filters each part. */
  lemma {:induction false} SubmittedItemsAppend(a: seq<DraftItem>, b: seq<DraftItem>)
    ensures SubmittedItems(a + b) == SubmittedItems(a) + SubmittedItems(b)
  {
    if a != [] {
      var head := if Passes(a[0]) then [a[0]] else [];
      assert (a + b)[0] == a[0];
      assert (a + b)[1..] == a[1..] + b;
      assert SubmittedItems(a + b) == head + SubmittedItems(a[1..] + b);
      assert SubmittedItems(a) == head + SubmittedItems(a[1..]);
      SubmittedItemsAppend(a[1..], b);
      assert head + (SubmittedItems(a[1..]) + SubmittedItems(b)) == (head + SubmittedItems(a[1..])) + SubmittedItems(b);
    } else {
      assert a + b == b;
    }
  }

  /** `items.filter((_, i) => i !== index)`: the list without position `index`, or unchanged when there is none. */
  function WithoutIndex(items: seq<DraftItem>, index: int): (r: seq<DraftItem>)
    ensures 0 <= index < |items| ==> r == items[..index] + items[index + 1..]
    ensures !(0 <= index < |items|) ==> r == items
    decreases |items|
  {
    if items == [] then []
    else
      var n := |items|;
      var front := WithoutIndex(items[..n - 1], index);
      if index == n - 1 then
        front
      else
        assert 0 <= index < n - 1 ==> items[..n - 1][..index] + items[..n - 1][index + 1..] + [items[n - 1]]
                                         == items[..index] + items[index + 1..];
        assert !(0 <= index < n) ==> items[..n - 1] + [items[n - 1]] == items;
        front + [items[n - 1]]
  }

  /** The form's item list and the totals it displays. */
  class DraftForm {
    var items: seq<DraftItem>
    var subtotal: real
    var taxAmount: real
    var totalAmount: real

    /** The totals the form shows for a list of drafts. */
    predicate TotalsShown()
      reads this
    {
      && subtotal == DraftSubtotal(items)
      && taxAmount == subtotal * FormTaxRate / 100.0
      && totalAmount == subtotal + taxAmount
    }

    /** The list is never empty, and the totals effect has run on the current list. */
    ghost predicate Valid()
      reads this
    {
      |items| >= 1 && TotalsShown()
    }

    /** One blank item and zero totals. */
    constructor ()
      ensures Valid()
      ensures items == [BlankItem]
      ensures subtotal == 0.0 && taxAmount == 0.0 && totalAmount == 0.0
    {
      items := [BlankItem];
      subtotal := 0.0;
      taxAmount := 0.0;
      totalAmount := 0.0;
      assert [BlankItem][..0] == [];
    }

    /** The totals effect, which runs whenever `items` changes. */
    method RecalculateTotals()
      modifies this
      ensures items == old(items)
      ensures TotalsShown()
    {
      var newSubtotal := DraftSubtotal(items);
      var newTaxAmount := newSubtotal * FormTaxRate / 100.0;
      subtotal := newSubtotal;
      taxAmount := newTaxAmount;
      totalAmount := newSubtotal + newTaxAmount;
    }

    /** Sets one field of one draft; the length, the other drafts and the item's other fields are unchanged. */
    method HandleItemChange(index: nat, edit: ItemEdit)
      requires Valid() && index < |items|
      modifies this
      ensures Valid()
      ensures items == old(items)[index := ApplyEdit(old(items)[index], edit)]
      ensures |items| == |old(items)|
      ensures forall k :: 0 <= k < |items| && k != index ==> items[k] == old(items)[k]
    {
      items := items[index := ApplyEdit(items[index], edit)];
      RecalculateTotals();
    }

    /** Appends one blank draft; the earlier drafts are unchanged. */
    method AddItem()
      requires Valid()
      modifies this
      ensures Valid()
      ensures items == old(items) + [BlankItem]
    {
      items := items + [BlankItem];
      RecalculateTotals();
    }

    /** Removes the draft at `index`, but only while more than one draft is left. */
    method RemoveItem(index: int)
      requires Valid()
      modifies this
      ensures Valid()
      ensures |old(items)| > 1 ==> items == WithoutIndex(old(items), index)
      ensures |old(items)| <= 1 ==> items == old(items) && subtotal == old(subtotal)
      ensures 0 <= index < |old(items)| && |old(items)| > 1 ==> |items| == |old(items)| - 1
    {
      if |items| > 1 {
        items := WithoutIndex(items, index);
        RecalculateTotals();
      }
    }

    /**
     * `handleSubmit` once the customer and date fields passed their checks:
     * the request to dispatch, with the passing drafts only, or `None` when no
     * draft passes and nothing is dispatched. `now` is the clock's value in
     * case the date is empty.
     */
    method HandleSubmit(customer: CustomerId, invoiceDate: Option<int>, now: int) returns (request: Option<InvoiceRequest>)
      ensures request.None? <==> forall k :: 0 <= k < |items| ==> !Passes(items[k])
      ensures request.Some? ==> request.value.customer == Some(customer)
      ensures request.Some? ==> request.value.invoiceDate == Some(if invoiceDate.Some? then invoiceDate.value else now)
      ensures request.Some? ==> request.value.items == Inputs(SubmittedItems(items))
    {
      var validItems := SubmittedItems(items);
      if |validItems| == 0 {
        return None;
      }
      var date := if invoiceDate.Some? then invoiceDate.value else now;
      request := Some(InvoiceRequest(Some(customer), Some(date), Inputs(validItems)));
    }
  }

  /**
   * When every draft passes the filter, the invoice the backend stores for
   * the submitted items has exactly the totals the form showed.
   */
  lemma StoredTotalsMatchForm(items: seq<DraftItem>, id: InvoiceId, customer: CustomerId, date: int, count: nat)
    requires forall k :: 0 <= k < |items| ==> Passes(items[k])
    ensures NewInvoice(id, customer, date, Inputs(SubmittedItems(items)), count).subtotal == DraftSubtotal(items)
    ensures NewInvoice(id, customer, date, Inputs(SubmittedItems(items)), count).taxAmount
            == DraftSubtotal(items) * FormTaxRate / 100.0
    ensures NewInvoice(id, customer, date, Inputs(SubmittedItems(items)), count).totalAmount
            == DraftSubtotal(items) + DraftSubtotal(items) * FormTaxRate / 100.0
  {
    assert SubmittedItems(items) == items;
    DraftSubtotalMatchesBackend(items);
    SubtotalIsSumOfProducts(Inputs(items));
  }

  /**
   * The form's totals count every draft, while only the passing ones are sent:
   * with a nameless draft of 2 × 10 beside a passing 1 × 5, the form shows a
   * subtotal of 25 and the stored invoice has 5.
   */
  lemma FormTotalsCountFailingDrafts(id: InvoiceId, customer: CustomerId, date: int, count: nat)
    ensures var items := [DraftItem("", Some(2.0), Some(10.0)), DraftItem("Pen", Some(1.0), Some(5.0))];
      && DraftSubtotal(items) == 25.0
      && NewInvoice(id, customer, date, Inputs(SubmittedItems(items)), count).subtotal == 5.0
  {
    var items := [DraftItem("", Some(2.0), Some(10.0)), DraftItem("Pen", Some(1.0), Some(5.0))];
    assert DraftSubtotal(items) == 25.0 by {
      assert items[..1] == [items[0]] && [items[0]][..0] == [];
      assert DraftSubtotal([items[0]]) == 20.0;
    }
    assert SubmittedItems(items) == [items[1]] by {
      assert !Passes(items[0]) && Passes(items[1]);
      assert items[1..] == [items[1]] && [items[1]][1..] == [];
    }
    var sent := Inputs([items[1]]);
    assert sent == [ItemInput(Some("Pen"), Some(1.0), Some(5.0))];
    assert SumOfProducts(sent) == 5.0 by { assert sent[1..] == []; }
  }

  /**
   * A passing draft whose name is not all blanks, whose quantity is at least
   * 1 and whose rate is filled in is accepted by the item schema.
   */
  lemma PassingItemAccepted(item: DraftItem)
    requires Passes(item) && Trim(item.name) != ""
    requires item.quantity.value >= 1.0 && item.rate.Some?
    ensures ItemErrors(CastItem(PriceItem(ToInput(item)))) == []
  {
  }

  /**
   * The submit filter is weaker than the item schema: a cleared rate, a name
   * of blanks and a quantity below 1 all pass it, and the backend then
   * refuses the invoice.
   */
  lemma FilterAdmitsRefusedItems()
    ensures Passes(DraftItem("Pen", Some(1.0), None))
    ensures "Rate is required" in ItemErrors(CastItem(PriceItem(ToInput(DraftItem("Pen", Some(1.0), None)))))
    ensures Passes(DraftItem(" ", Some(1.0), Some(5.0)))
    ensures "Item name is required" in ItemErrors(CastItem(PriceItem(ToInput(DraftItem(" ", Some(1.0), Some(5.0))))))
    ensures Passes(DraftItem("Pen", Some(0.5), Some(5.0)))
    ensures "Quantity must be at least 1" in ItemErrors(CastItem(PriceItem(ToInput(DraftItem("Pen", Some(0.5), Some(5.0))))))
  {
    assert IsJsSpace(' ');
    assert TrimStart(" ") == "";
  }
}
