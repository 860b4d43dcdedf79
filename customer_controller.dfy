/**
 * The customer endpoints (backend/controllers/customerController.js) over an
 * in-memory customer collection kept in creation order.
 */
module CustomerController {
  import opened Wrappers
  import opened Http
  import opened Pagination
  import opened CustomerModel
  import opened Search

  /** The customer collection, with its unique index on `email`. */
  class CustomerTable {
    /** The stored customers, oldest first. */
    var customers: seq<Customer>
    /** The identity the next new document receives. */
    var nextId: nat

    ghost predicate Valid()
      reads this
    {
      && (forall i :: 0 <= i < |customers| ==> WellFormed(customers[i]) && customers[i].id < nextId)
      && (forall i, j :: 0 <= i < j < |customers| ==>
            customers[i].email != customers[j].email && customers[i].id != customers[j].id)
    }

    constructor ()
      ensures Valid() && customers == [] && nextId == 0
    {
      customers := [];
      nextId := 0;
    }

    /** `Customer.findOne({ email })`; the query value goes through the path's setters. */
    function FindByEmail(email: Option<string>): (r: Option<Customer>)
      reads this
      ensures r.Some? ==> email.Some? && r.value in customers && r.value.email == NormalizeEmail(email.value)
      ensures r.None? <==> email.None? || forall k :: 0 <= k < |customers| ==> customers[k].email != NormalizeEmail(email.value)
    {
      match email
      case None => None
      case Some(e) => FirstWhere(customers, (c: Customer) => c.email, NormalizeEmail(e))
    }

    /** `Customer.findById(id)`. */
    function FindById(id: CustomerId): (r: Option<Customer>)
      reads this
      ensures r.Some? ==> r.value in customers && r.value.id == id
      ensures r.None? <==> forall k :: 0 <= k < |customers| ==> customers[k].id != id
    {
      FirstWhere(customers, (c: Customer) => c.id, id)
    }

    /** Inserting a document: refused when the unique index on `email` already holds its address. */
    method Insert(c: Customer) returns (ok: bool)
      requires Valid() && WellFormed(c) && c.id == nextId
      modifies this
      ensures Valid()
      ensures ok <==> forall k :: 0 <= k < |old(customers)| ==> old(customers)[k].email != c.email
      ensures ok ==> customers == old(customers) + [c] && nextId == old(nextId) + 1
      ensures !ok ==> customers == old(customers) && nextId == old(nextId)
    {
      ok := FirstWhere(customers, (d: Customer) => d.email, c.email).None?;
      if ok {
        AppendKeepsDistinct(customers, c);
        customers := customers + [c];
        nextId := nextId + 1;
      }
    }

    /**
     * `createCustomer`: refuse an address already stored, otherwise validate
     * the document and insert it.
     */
    method CreateCustomer(input: CustomerInput) returns (reply: Reply<Customer>)
      requires Valid()
      modifies this
      ensures Valid()
      ensures old(FindByEmail(input.email)).Some? ==>
        && reply == Refused(StatusBadRequest, "Customer with this email already exists", [])
        && customers == old(customers) && nextId == old(nextId)
      ensures old(FindByEmail(input.email)).None? && !ValidInput(input) ==>
        && reply == Refused(StatusBadRequest, "Validation error", CustomerErrors(input))
        && customers == old(customers) && nextId == old(nextId)
      ensures old(FindByEmail(input.email)).None? && ValidInput(input) ==>
        && reply == Done(StatusCreated, "Customer created successfully", ToCustomer(old(nextId), input))
        && customers == old(customers) + [ToCustomer(old(nextId), input)]
        && nextId == old(nextId) + 1
    {
      var existing := FindByEmail(input.email);
      if existing.Some? {
        return Refused(StatusBadRequest, "Customer with this email already exists", []);
      }
      var errors := CustomerErrors(input);
      if errors != [] {
        return Refused(StatusBadRequest, "Validation error", errors);
      }
      var customer := ToCustomer(nextId, input);
      var ok := Insert(customer);
      if ok {
        reply := Done(StatusCreated, "Customer created successfully", customer);
      } else {
        // The duplicate-key error of the unique index; the lookup above has already excluded it.
        reply := Refused(StatusServerError, "Error creating customer", []);
      }
    }

    /** `getAllCustomers`: one page of all customers, newest first. */
    function ListCustomers(q: PageQuery): (r: PageResult<Customer>)
      reads this
      ensures r.total == |customers| && r.page == q.Page()
      ensures r.totalPages == TotalPages(|customers|, q.Limit())
      ensures r.count == |r.data| <= q.Limit()
      ensures var skip := Skip(q.Page(), q.Limit());
        |r.data| == if skip >= |customers| then 0 else if |customers| - skip < q.Limit() then |customers| - skip else q.Limit()
      ensures forall k :: 0 <= k < |r.data| ==>
        var n := Skip(q.Page(), q.Limit()) + k; n < |customers| && r.data[k] == customers[|customers| - 1 - n]
    {
      PageOf(customers, q)
    }

    /** `getCustomerById`: the customer, or 404 when no customer has that identity. */
    function GetCustomerById(id: CustomerId): (r: Reply<Customer>)
      reads this
      ensures r.Done? <==> exists k :: 0 <= k < |customers| && customers[k].id == id
      ensures r.Done? ==> r.status == StatusOk && r.data in customers && r.data.id == id
      ensures r.Refused? ==> r == Refused(StatusNotFound, "Customer not found", [])
    {
      match FindById(id)
      case None => Refused(StatusNotFound, "Customer not found", [])
      case Some(c) => Done(StatusOk, "", c)
    }
  }

  /** No two stored customers share an e-mail, and a stored customer is found by its own address. */
  /** Appending a customer whose email and identity are new keeps both unique. */
  lemma AppendKeepsDistinct(cs: seq<Customer>, c: Customer)
    requires forall i, j :: 0 <= i < j < |cs| ==> cs[i].email != cs[j].email && cs[i].id != cs[j].id
    requires forall k :: 0 <= k < |cs| ==> cs[k].email != c.email && cs[k].id != c.id
    ensures var ds := cs + [c];
      forall i, j :: 0 <= i < j < |ds| ==> ds[i].email != ds[j].email && ds[i].id != ds[j].id
  {
  }

  lemma StoredEmailFindsItself(t: CustomerTable, k: nat)
    requires t.Valid() && k < |t.customers|
    ensures t.FindByEmail(Some(t.customers[k].email)) == Some(t.customers[k])
  {
    var c := t.customers[k];
    assert WellFormed(c);
    NormalizedEmailFixed(c.email);
    var r := t.FindByEmail(Some(c.email));
    assert r.Some?;
    var j :| 0 <= j < |t.customers| && t.customers[j] == r.value;
    assert j == k;
  }
}
