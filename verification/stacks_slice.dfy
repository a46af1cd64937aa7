/** The `stacks` redux slice: its reducer over tech-stack records, including
    the normalisation of the list reply's pagination, where the backend may
    name the total `total` or `total_count`. */
module StacksSlice {
  import opened JsValues
  import opened Thunks
  import opened Records

  /** The slice's pagination record; every field is whatever the reply held,
      or its default. */
  datatype StackPagination = StackPagination(
    page: Value,
    pageSize: Value,
    total: Value,
    totalCount: Value,
    totalPages: Value)

  datatype StacksState = StacksState(
    items: seq<Object>,
    currentStack: Option<Object>,
    pagination: StackPagination,
    loading: bool,
    error: Option<string>)

  const InitialPagination := StackPagination(Num(1), Num(10), Num(0), Num(0), Num(0))

  const Initial := StacksState([], None, InitialPagination, false, None)

  /** The pagination record written back as the plain object a reply carries. */
  function AsObject(p: StackPagination): Object {
    map["page" := p.page, "page_size" := p.pageSize, "total" := p.total,
        "total_count" := p.totalCount, "total_pages" := p.totalPages]
  }

  /** The list reply's pagination object (or `{}` when it has none),
      normalised field by field with `??`: each field keeps the reply's value
      unless that is nullish, and the two totals each fall back on the other
      before falling back on 0. */
  function Normalise(p: Object): (r: StackPagination)
    ensures !Nullish(r.page) && !Nullish(r.pageSize) && !Nullish(r.total) &&
            !Nullish(r.totalCount) && !Nullish(r.totalPages)
    ensures !Nullish(Get(p, "page")) ==> r.page == Get(p, "page")
    ensures Nullish(Get(p, "page")) ==> r.page == Num(1)
    ensures !Nullish(Get(p, "page_size")) ==> r.pageSize == Get(p, "page_size")
    ensures Nullish(Get(p, "page_size")) ==> r.pageSize == Num(10)
    ensures !Nullish(Get(p, "total_pages")) ==> r.totalPages == Get(p, "total_pages")
    ensures Nullish(Get(p, "total_pages")) ==> r.totalPages == Num(0)
    ensures !Nullish(Get(p, "total")) ==> r.total == Get(p, "total")
    ensures !Nullish(Get(p, "total_count")) ==> r.totalCount == Get(p, "total_count")
  {
    StackPagination(
      Coalesce(Get(p, "page"), Num(1)),
      Coalesce(Get(p, "page_size"), Num(10)),
      FirstPresent(Get(p, "total"), Get(p, "total_count"), Num(0)),
      FirstPresent(Get(p, "total_count"), Get(p, "total"), Num(0)),
      Coalesce(Get(p, "total_pages"), Num(0)))
  }

  /** The two totals agree unless the reply supplied both with different
      values: a reply naming only one of them fills in the other, and a reply
      naming neither gets 0 for both. */
  lemma TotalsReconciled(p: Object)
    ensures var r := Normalise(p);
            var t := Get(p, "total");
            var c := Get(p, "total_count");
            && (Nullish(t) && !Nullish(c) ==> r.total == c && r.totalCount == c)
            && (!Nullish(t) && Nullish(c) ==> r.total == t && r.totalCount == t)
            && (Nullish(t) && Nullish(c) ==> r.total == Num(0) && r.totalCount == Num(0))
            && (r.total != r.totalCount <==> !Nullish(t) && !Nullish(c) && t != c)
  {
  }

  /** Normalising an already normalised record changes nothing, and a reply
      without pagination yields the initial record. */
  lemma NormaliseIdempotent(p: Object)
    ensures Normalise(AsObject(Normalise(p))) == Normalise(p)
    ensures Normalise(map[]) == InitialPagination
  {
  }

  datatype Operation = ListOp | GetOp | CreateOp | UpdateOp | DeleteOp

  /** The default message of each rejected case (also the thunk's fallback text). */
  function Fallback(op: Operation): string {
    match op
    case ListOp => "Failed to fetch stacks"
    case GetOp => "Failed to fetch stack"
    case CreateOp => "Failed to create stack"
    case UpdateOp => "Failed to update stack"
    case DeleteOp => "Failed to delete stack"
  }

  /** The `listStacks` payload, which is the whole reply. */
  datatype StacksPage = StacksPage(data: Option<seq<Object>>, pagination: Option<Object>)

  datatype Action =
    | ClearError
    | Pending(op: Operation)
    | Rejected(op: Operation, payload: RejectPayload)
    | ListFulfilled(page: StacksPage)
    | GetFulfilled(fetched: Option<Object>)
    | CreateFulfilled(created: Object)
    | UpdateFulfilled(updated: Object)
    | DeleteFulfilled(id: Value)

  /** The slice reducer. Pending cases only raise `loading` and clear
      `error`; rejections only lower `loading` and record a non-empty error;
      only a list fulfilment touches the pagination, which it normalises. */
  function Reduce(s: StacksState, a: Action): (r: StacksState)
    ensures a.Pending? ==> r == s.(loading := true, error := None)
    ensures a.ClearError? ==> r == s.(error := None)
    ensures a.Rejected? ==> r == s.(loading := false, error := r.error) && r.error.Some? && r.error.value != ""
    ensures a.Rejected? ==> r.error == Some(RejectionMessage(a.payload, Fallback(a.op)))
    ensures !(a.Pending? || a.ClearError?) ==> !r.loading
    ensures !(a.Rejected? || a.Pending? || a.ClearError?) ==> r.error.None?
    ensures r.items != s.items ==>
              a.ListFulfilled? || a.CreateFulfilled? || a.UpdateFulfilled? || a.DeleteFulfilled?
    ensures r.pagination != s.pagination ==> a.ListFulfilled?
    ensures a.ListFulfilled? ==>
              r.items == (if a.page.data.Some? then a.page.data.value else []) &&
              r.pagination == Normalise(if a.page.pagination.Some? then a.page.pagination.value else map[])
    ensures a.GetFulfilled? ==> r.currentStack == a.fetched && r.items == s.items
    ensures a.CreateFulfilled? ==> |r.items| == |s.items| + 1 && r.items[..|s.items|] == s.items &&
                                   r.items[|s.items|] == a.created
    ensures a.UpdateFulfilled? ==> r.items == ReplaceById(s.items, a.updated) && r.currentStack == Some(a.updated)
    ensures a.DeleteFulfilled? ==> r.items == RemoveById(s.items, a.id)
    ensures !(a.GetFulfilled? || a.UpdateFulfilled?) ==> r.currentStack == s.currentStack
  {
    match a
    case ClearError => s.(error := None)
    case Pending(_) => s.(loading := true, error := None)
    case Rejected(op, payload) => s.(loading := false, error := Some(RejectionMessage(payload, Fallback(op))))
    case ListFulfilled(page) =>
      s.(loading := false,
         items := if page.data.Some? then page.data.value else [],
         pagination := Normalise(if page.pagination.Some? then page.pagination.value else map[]),
         error := None)
    case GetFulfilled(stack) => s.(loading := false, currentStack := stack, error := None)
    case CreateFulfilled(stack) => s.(loading := false, items := s.items + [stack], error := None)
    case UpdateFulfilled(stack) =>
      s.(loading := false, items := ReplaceById(s.items, stack), currentStack := Some(stack), error := None)
    case DeleteFulfilled(id) => s.(loading := false, items := RemoveById(s.items, id), error := None)
  }

  /** Creating a stack and then deleting its id removes it again: when no
      listed stack shared the new id, the list is back where it was. */
  lemma CreateThenDeleteRestores(s: StacksState, stack: Object)
    requires forall i :: 0 <= i < |s.items| ==> Id(s.items[i]) != Id(stack)
    ensures Reduce(Reduce(s, CreateFulfilled(stack)), DeleteFulfilled(Id(stack))).items == s.items
  {
    var created := Reduce(s, CreateFulfilled(stack)).items;
    assert created == s.items + [stack];
    RemoveKeepsOrder(s.items, [stack], Id(stack));
    RemoveAbsentId(s.items, Id(stack));
    assert |RemoveById([stack], Id(stack))| == 0 by {
      var r := RemoveById([stack], Id(stack));
      assert forall o :: o !in r;
    }
  }

  /** An update that names a listed stack's id keeps the length and puts the
      reply at the first such position. */
  lemma UpdateReplacesListedStack(s: StacksState, stack: Object, k: nat)
    requires k < |s.items| && Id(s.items[k]) == Id(stack)
    requires forall j :: 0 <= j < k ==> Id(s.items[j]) != Id(stack)
    ensures var r := Reduce(s, UpdateFulfilled(stack));
            |r.items| == |s.items| && r.items[k] == stack && stack in r.items
  {
  }
}
