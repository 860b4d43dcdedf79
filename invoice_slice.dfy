/**
 * The invoice slice of the Redux store (frontend/src/redux/slices/invoiceSlice.js):
 * a record of fields that its reducers assign in place, driven by the plain
 * reducers and by the pending / fulfilled / rejected actions of three
 * request thunks.
 */
module InvoiceSlice {
  import opened Wrappers
  import opened Pagination
  import opened InvoiceModel
  import opened SliceCommon

  /** The values the fetch-list, create and fetch-one thunks reject with when the reply has no message. */
  const FetchInvoicesFallback: string := "Failed to fetch invoices"
  const CreateInvoiceFallback: string := "Failed to create invoice"
  const FetchInvoiceFallback: string := "Failed to fetch invoice details"

  /** The `filters` record; `None` is `customerId: null`. */
  datatype Filters = Filters(customerId: Option<CustomerId>)

  /** A `setFilters` payload: `Some(c)` when it carries `customerId` (itself possibly `null`). */
  datatype FilterPatch = FilterPatch(customerId: Option<Option<CustomerId>>)

  /** A snapshot of the slice. */
  datatype InvoicesState = InvoicesState(
    invoices: seq<Invoice>,
    currentInvoice: Option<Invoice>,
    loading: bool,
    error: Option<string>,
    success: bool,
    pagination: PageInfo,
    filters: Filters)

  /** The state the store starts with. */
  const InitialState: InvoicesState :=
    InvoicesState([], None, false, None, false, InitialPagination, Filters(None))

  class Slice {
    var invoices: seq<Invoice>
    var currentInvoice: Option<Invoice>
    var loading: bool
    var error: Option<string>
    var success: bool
    var pagination: PageInfo
    var filters: Filters

    function State(): InvoicesState
      reads this
    {
      InvoicesState(invoices, currentInvoice, loading, error, success, pagination, filters)
    }

    constructor ()
      ensures State() == InitialState
    {
      invoices := [];
      currentInvoice := None;
      loading := false;
      error := None;
      success := false;
      pagination := InitialPagination;
      filters := Filters(None);
    }

    method ClearError()
      modifies this
      ensures State() == old(State()).(error := None)
    {
      error := None;
    }

    method ClearSuccess()
      modifies this
      ensures State() == old(State()).(success := false)
    {
      success := false;
    }

    /** `{ ...filters, ...patch }`: the filter changes only when the payload carries it. */
    method SetFilters(patch: FilterPatch)
      modifies this
      ensures State() == old(State()).(filters := Filters(Spread(old(filters).customerId, patch.customerId)))
    {
      filters := Filters(Spread(filters.customerId, patch.customerId));
    }

    method SetPagination(patch: PagePatch)
      modifies this
      ensures State() == old(State()).(pagination := MergePagination(old(pagination), patch))
    {
      pagination := MergePagination(pagination, patch);
    }

    method ClearCurrentInvoice()
      modifies this
      ensures State() == old(State()).(currentInvoice := None)
    {
      currentInvoice := None;
    }

    method FetchInvoicesPending()
      modifies this
      ensures State() == old(State()).(loading := true, error := None)
    {
      loading := true;
      error := None;
    }

    /** The list is replaced by the page the reply carries; the limit stays the one the slice had. */
    method FetchInvoicesFulfilled(payload: PageResult<Invoice>)
      modifies this
      ensures State() == old(State()).(loading := false, invoices := payload.data,
                                       pagination := FetchedPagination(old(pagination), payload))
      ensures pagination.limit == old(pagination.limit)
    {
      loading := false;
      invoices := payload.data;
      pagination := FetchedPagination(pagination, payload);
    }

    /** `response` is the body of the failed reply, `None` when there was no reply. */
    method FetchInvoicesRejected(response: Option<ErrorBody>)
      modifies this
      ensures State() == old(State()).(loading := false, error := Some(FetchRejection(response, FetchInvoicesFallback)))
      ensures error.Some? && error.value != ""
    {
      loading := false;
      error := Some(FetchRejection(response, FetchInvoicesFallback));
    }

    method CreateInvoicePending()
      modifies this
      ensures State() == old(State()).(loading := true, error := None, success := false)
    {
      loading := true;
      error := None;
      success := false;
    }

    /** `unshift`: the created invoice goes in front of the list it had. */
    method CreateInvoiceFulfilled(payload: Invoice)
      modifies this
      ensures State() == old(State()).(loading := false, invoices := [payload] + old(invoices), success := true)
      ensures |invoices| == |old(invoices)| + 1 && invoices[0] == payload && invoices[1..] == old(invoices)
    {
      loading := false;
      invoices := [payload] + invoices;
      success := true;
    }

    method CreateInvoiceRejected(response: Option<ErrorBody>)
      modifies this
      ensures State() == old(State()).(loading := false, error := Some(CreateRejection(response, CreateInvoiceFallback)),
                                       success := false)
      ensures error.Some? && error.value != ""
    {
      loading := false;
      error := Some(CreateRejection(response, CreateInvoiceFallback));
      success := false;
    }

    method FetchInvoiceByIdPending()
      modifies this
      ensures State() == old(State()).(loading := true, error := None)
    {
      loading := true;
      error := None;
    }

    method FetchInvoiceByIdFulfilled(payload: Invoice)
      modifies this
      ensures State() == old(State()).(loading := false, currentInvoice := Some(payload))
    {
      loading := false;
      currentInvoice := Some(payload);
    }

    method FetchInvoiceByIdRejected(response: Option<ErrorBody>)
      modifies this
      ensures State() == old(State()).(loading := false, error := Some(FetchRejection(response, FetchInvoiceFallback)))
      ensures error.Some? && error.value != ""
    {
      loading := false;
      error := Some(FetchRejection(response, FetchInvoiceFallback));
    }
  }

  /**
   * A request cycle as the invoice form drives it: create pending, then
   * fulfilled, then the form's acknowledgement of `success`. The new invoice
   * ends up in front of the list, and nothing is left loading or flagged.
   */
  method CreateCycle(store: Slice, created: Invoice)
    modifies store
    ensures store.invoices == [created] + old(store.invoices)
    ensures !store.loading && store.error.None? && !store.success
    ensures store.pagination == old(store.pagination) && store.filters == old(store.filters)
    ensures store.currentInvoice == old(store.currentInvoice)
  {
    store.CreateInvoicePending();
    store.CreateInvoiceFulfilled(created);
    store.ClearSuccess();
  }

  /** A failed create, as the form sees it: the error it shows is the reply's message, and `success` stays down. */
  method FailedCreateCycle(store: Slice, response: Option<ErrorBody>)
    modifies store
    ensures store.invoices == old(store.invoices)
    ensures !store.loading && !store.success
    ensures store.error == Some(CreateRejection(response, CreateInvoiceFallback))
    ensures response.Some? && Truthy(response.value.message) ==> store.error == response.value.message
  {
    store.CreateInvoicePending();
    store.CreateInvoiceRejected(response);
  }
}
