/**
 * The customer slice of the Redux store (frontend/src/redux/slices/customerSlice.js):
 * the same shape as the invoice slice without a current record or filters,
 * driven by its reducers and by the actions of a list fetch and a create.
 */
module CustomerSlice {
  import opened Wrappers
  import opened Pagination
  import opened CustomerModel
  import opened SliceCommon

  /** The values the fetch and create thunks reject with when the reply has no message. */
  const FetchCustomersFallback: string := "Failed to fetch customers"
  const CreateCustomerFallback: string := "Failed to create customer"

  /** A snapshot of the slice. */
  datatype CustomersState = CustomersState(
    customers: seq<Customer>,
    loading: bool,
    error: Option<string>,
    success: bool,
    pagination: PageInfo)

  /** The state the store starts with. */
  const InitialState: CustomersState := CustomersState([], false, None, false, InitialPagination)

  class Slice {
    var customers: seq<Customer>
    var loading: bool
    var error: Option<string>
    var success: bool
    var pagination: PageInfo

    function State(): CustomersState
      reads this
    {
      CustomersState(customers, loading, error, success, pagination)
    }

    constructor ()
      ensures State() == InitialState
    {
      customers := [];
      loading := false;
      error := None;
      success := false;
      pagination := InitialPagination;
    }

    method ClearError()
      modifies this
      ensures State() == old(State()).(error := None)
    {
      error := None;
    }

    method ClearSuccess()
      modifies this
      ensures State() == old(State()).(success := false)
    {
      success := false;
    }

    method SetPagination(patch: PagePatch)
      modifies this
      ensures State() == old(State()).(pagination := MergePagination(old(pagination), patch))
    {
      pagination := MergePagination(pagination, patch);
    }

    method FetchCustomersPending()
      modifies this
      ensures State() == old(State()).(loading := true, error := None)
    {
      loading := true;
      error := None;
    }

    /** The list is replaced by the page the reply carries; the limit stays the one the slice had. */
    method FetchCustomersFulfilled(payload: PageResult<Customer>)
      modifies this
      ensures State() == old(State()).(loading := false, customers := payload.data,
                                       pagination := FetchedPagination(old(pagination), payload))
      ensures pagination.limit == old(pagination.limit)
    {
      loading := false;
      customers := payload.data;
      pagination := FetchedPagination(pagination, payload);
    }

    /** `response` is the body of the failed reply, `None` when there was no reply. */
    method FetchCustomersRejected(response: Option<ErrorBody>)
      modifies this
      ensures State() == old(State()).(loading := false, error := Some(FetchRejection(response, FetchCustomersFallback)))
      ensures error.Some? && error.value != ""
    {
      loading := false;
      error := Some(FetchRejection(response, FetchCustomersFallback));
    }

    method CreateCustomerPending()
      modifies this
      ensures State() == old(State()).(loading := true, error := None, success := false)
    {
      loading := true;
      error := None;
      success := false;
    }

    /** `unshift`: the created customer goes in front of the list it had. */
    method CreateCustomerFulfilled(payload: Customer)
      modifies this
      ensures State() == old(State()).(loading := false, customers := [payload] + old(customers), success := true)
      ensures |customers| == |old(customers)| + 1 && customers[0] == payload && customers[1..] == old(customers)
    {
      loading := false;
      customers := [payload] + customers;
      success := true;
    }

    method CreateCustomerRejected(response: Option<ErrorBody>)
      modifies this
      ensures State() == old(State()).(loading := false, error := Some(CreateRejection(response, CreateCustomerFallback)),
                                       success := false)
      ensures error.Some? && error.value != ""
    {
      loading := false;
      error := Some(CreateRejection(response, CreateCustomerFallback));
      success := false;
    }
  }

  /**
   * A refused create as the backend sends it: whatever the cause (a duplicate
   * e-mail or failed validation), the slice's error is the reply's message.
   */
  method RefusedCreateCycle(store: Slice, reply: Http.Reply<Customer>)
    requires reply.Refused? && reply.message != ""
    modifies store
    ensures store.customers == old(store.customers) && store.pagination == old(store.pagination)
    ensures !store.loading && !store.success
    ensures store.error == Some(reply.message)
  {
    store.CreateCustomerPending();
    store.CreateCustomerRejected(Some(RefusalBody(reply)));
    RefusalMessageWins(reply, CreateCustomerFallback);
  }
}
