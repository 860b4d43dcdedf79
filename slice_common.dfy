/**
 * What the two Redux slices (frontend/src/redux/slices/invoiceSlice.js and
 * customerSlice.js) share: the message a failed request is turned into, and
 * the `pagination` record with its spread-merge update.
 */
module SliceCommon {
  import opened Wrappers
  import opened Http
  import opened Pagination

  /** The JSON body of a refused reply as the client reads it; a missing key is `None`. */
  datatype ErrorBody = ErrorBody(message: Option<string>, errors: Option<seq<string>>)

  /** JavaScript truthiness of a string that may be missing: present and non-empty. */
  predicate Truthy(s: Option<string>) {
    s.Some? && s.value != ""
  }

  /** `data?.errors?.[0]`: the first field message, when the key is present and the array is not empty. */
  function FirstError(body: ErrorBody): (r: Option<string>)
    ensures r.Some? <==> body.errors.Some? && |body.errors.value| > 0
    ensures r.Some? ==> r.value == body.errors.value[0]
  {
    match body.errors
    case Some(errs) => if |errs| > 0 then Some(errs[0]) else None
    case None => None
  }

  /**
   * The value a fetch thunk rejects with: `response?.data?.message || fallback`.
   * `response` is `None` when the request failed without a reply.
   */
  function FetchRejection(response: Option<ErrorBody>, fallback: string): (r: string)
    ensures response.Some? && Truthy(response.value.message) ==> r == response.value.message.value
    ensures !(response.Some? && Truthy(response.value.message)) ==> r == fallback
    ensures fallback != "" ==> r != ""
  {
    if response.Some? && Truthy(response.value.message) then response.value.message.value else fallback
  }

  /** The value a create thunk rejects with: `message || errors?.[0] || fallback`. */
  function CreateRejection(response: Option<ErrorBody>, fallback: string): (r: string)
    ensures response.Some? && Truthy(response.value.message) ==> r == response.value.message.value
    ensures response.Some? && !Truthy(response.value.message) && Truthy(FirstError(response.value))
            ==> r == response.value.errors.value[0]
    ensures (response.None? || (!Truthy(response.value.message) && !Truthy(FirstError(response.value))))
            ==> r == fallback
    ensures fallback != "" ==> r != ""
  {
    if response.None? then fallback
    else if Truthy(response.value.message) then response.value.message.value
    else if Truthy(FirstError(response.value)) then FirstError(response.value).value
    else fallback
  }

  /**
   * The body the backend sends with a refused reply: a `message`, and an
   * `errors` array only on a validation failure, whose list is never empty.
   */
  function RefusalBody<T>(reply: Reply<T>): (r: ErrorBody)
    requires reply.Refused?
    ensures r.message == Some(reply.message)
    ensures r.errors.Some? <==> reply.errors != []
  {
    ErrorBody(Some(reply.message), if reply.errors == [] then None else Some(reply.errors))
  }

  /**
   * Every refusal the backend sends carries a non-empty message, so what a
   * create thunk rejects with is that message: the `errors?.[0]` and fallback
   * alternatives are never reached by a reply from this backend, and a
   * validation failure surfaces as its summary message, not as a field message.
   */
  lemma RefusalMessageWins<T>(reply: Reply<T>, fallback: string)
    requires reply.Refused? && reply.message != ""
    ensures CreateRejection(Some(RefusalBody(reply)), fallback) == reply.message
    ensures FetchRejection(Some(RefusalBody(reply)), fallback) == reply.message
  {
  }

  /** An instance: the validation reply of `createCustomer` surfaces as "Validation error". */
  lemma ValidationRefusalSurfacesSummary(errors: seq<string>)
    requires errors != []
    ensures CreateRejection(Some(RefusalBody<()>(Refused(StatusBadRequest, "Validation error", errors))), "Failed to create customer")
            == "Validation error"
  {
    RefusalMessageWins<()>(Refused(StatusBadRequest, "Validation error", errors), "Failed to create customer");
  }

  /** When the body has no message, the first field message is what the create thunk rejects with. */
  lemma FieldMessageWithoutSummary(errors: seq<string>, fallback: string)
    requires errors != [] && errors[0] != ""
    ensures CreateRejection(Some(ErrorBody(None, Some(errors))), fallback) == errors[0]
    ensures FetchRejection(Some(ErrorBody(None, Some(errors))), fallback) == fallback
  {
  }

  /** The `pagination` record of a slice. */
  datatype PageInfo = PageInfo(page: int, limit: int, total: int, totalPages: int)

  /** The pagination both slices start with. */
  const InitialPagination: PageInfo := PageInfo(1, 10, 0, 0)

  /** A `setPagination` payload: the keys it carries. */
  datatype PagePatch = PagePatch(page: Option<int>, limit: Option<int>, total: Option<int>, totalPages: Option<int>)

  /** The value of one key after `{ ...before, ...patch }`. */
  function Spread<T>(before: T, patch: Option<T>): (r: T)
    ensures patch.Some? ==> r == patch.value
    ensures patch.None? ==> r == before
  {
    patch.GetOr(before)
  }

  /** `{ ...p, ...patch }`: each key the patch carries is overwritten, every other keeps its value. */
  function MergePagination(p: PageInfo, patch: PagePatch): (r: PageInfo)
    ensures r.page == (if patch.page.Some? then patch.page.value else p.page)
    ensures r.limit == (if patch.limit.Some? then patch.limit.value else p.limit)
    ensures r.total == (if patch.total.Some? then patch.total.value else p.total)
    ensures r.totalPages == (if patch.totalPages.Some? then patch.totalPages.value else p.totalPages)
  {
    PageInfo(Spread(p.page, patch.page), Spread(p.limit, patch.limit),
             Spread(p.total, patch.total), Spread(p.totalPages, patch.totalPages))
  }

  /** The patch that carries `second`'s keys and, where `second` is silent, `first`'s. */
  function CombinePatches(first: PagePatch, second: PagePatch): PagePatch {
    PagePatch(if second.page.Some? then second.page else first.page,
              if second.limit.Some? then second.limit else first.limit,
              if second.total.Some? then second.total else first.total,
              if second.totalPages.Some? then second.totalPages else first.totalPages)
  }

  /** Two merges in a row are one merge of the combined patch; an empty patch changes nothing. */
  lemma MergeComposes(p: PageInfo, first: PagePatch, second: PagePatch)
    ensures MergePagination(MergePagination(p, first), second) == MergePagination(p, CombinePatches(first, second))
    ensures MergePagination(p, PagePatch(None, None, None, None)) == p
    ensures MergePagination(MergePagination(p, first), first) == MergePagination(p, first)
  {
  }

  /**
   * The pagination after a list fetch succeeds: page, total and page count
   * from the reply, the limit the slice already had.
   */
  function FetchedPagination<T>(before: PageInfo, payload: PageResult<T>): (r: PageInfo)
    ensures r.limit == before.limit
    ensures r.page == payload.page && r.total == payload.total && r.totalPages == payload.totalPages
  {
    PageInfo(payload.page, before.limit, payload.total, payload.totalPages)
  }
}
