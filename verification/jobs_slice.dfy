/** The `jobs` redux slice: its reducer over job records. The thunk bodies
    all follow the shared settle rule; what matters here is how each case
    edits the state. */
module JobsSlice {
  import opened JsValues
  import opened Http
  import opened Thunks
  import opened Records

  datatype JobsState = JobsState(
    items: seq<Object>,
    currentJob: Option<Object>,
    pagination: Object,
    loading: bool,
    error: Option<string>)

  const Initial := JobsState(
    [], None,
    map["page" := Num(1), "page_size" := Num(10), "total_count" := Num(0), "total_pages" := Num(0)],
    false, None)

  datatype Operation = ListOp | GetOp | CreateOp | UpdateOp | DeleteOp | PublishOp | CloseOp

  /** The default message of each rejected case (also the thunk's fallback text). */
  function Fallback(op: Operation): string {
    match op
    case ListOp => "Failed to fetch jobs"
    case GetOp => "Failed to fetch job"
    case CreateOp => "Failed to create job"
    case UpdateOp => "Failed to update job"
    case DeleteOp => "Failed to delete job"
    case PublishOp => "Failed to publish job"
    case CloseOp => "Failed to close job"
  }

  /** Update, publish and close are fulfilled alike: the reply's job replaces
      its first namesake. */
  datatype Rewrite = Updated | Published | Closed

  /** The `listJobs` payload, which is the whole reply. */
  datatype JobsPage = JobsPage(data: Option<seq<Object>>, pagination: Option<Object>)

  datatype Action =
    | ClearError
    | Pending(op: Operation)
    | Rejected(op: Operation, payload: RejectPayload)
    | ListFulfilled(page: JobsPage)
    | GetFulfilled(fetched: Option<Object>)
    | CreateFulfilled(created: Object)
    | RewriteFulfilled(kind: Rewrite, rewritten: Object)
    | DeleteFulfilled(id: Value)

  /** The slice reducer. Pending cases only raise `loading` and clear
      `error`; rejections only lower `loading` and record a non-empty error;
      the list changes only on the list, create, rewrite and delete
      fulfilments. */
  function Reduce(s: JobsState, a: Action): (r: JobsState)
    ensures a.Pending? ==> r == s.(loading := true, error := None)
    ensures a.ClearError? ==> r == s.(error := None)
    ensures a.Rejected? ==> r == s.(loading := false, error := r.error) && r.error.Some? && r.error.value != ""
    ensures a.Rejected? ==> r.error == Some(RejectionMessage(a.payload, Fallback(a.op)))
    ensures !(a.Pending? || a.ClearError?) ==> !r.loading
    ensures !(a.Rejected? || a.Pending? || a.ClearError?) ==> r.error.None?
    ensures r.items != s.items ==>
              a.ListFulfilled? || a.CreateFulfilled? || a.RewriteFulfilled? || a.DeleteFulfilled?
    ensures a.CreateFulfilled? ==> |r.items| == |s.items| + 1 && r.items[..|s.items|] == s.items &&
                                   r.items[|s.items|] == a.created
    ensures a.ListFulfilled? ==> r.items == (if a.page.data.Some? then a.page.data.value else []) &&
                                 r.pagination == (if a.page.pagination.Some? then a.page.pagination.value else map[])
    ensures a.RewriteFulfilled? ==> r.items == ReplaceById(s.items, a.rewritten) && r.currentJob == Some(a.rewritten)
    ensures a.DeleteFulfilled? ==> r.items == RemoveById(s.items, a.id)
    ensures r.pagination != s.pagination ==> a.ListFulfilled?
    ensures a.GetFulfilled? ==> r.currentJob == a.fetched && r.items == s.items
    ensures !(a.GetFulfilled? || a.RewriteFulfilled?) ==> r.currentJob == s.currentJob
  {
    match a
    case ClearError => s.(error := None)
    case Pending(_) => s.(loading := true, error := None)
    case Rejected(op, payload) => s.(loading := false, error := Some(RejectionMessage(payload, Fallback(op))))
    case ListFulfilled(page) =>
      s.(loading := false,
         items := if page.data.Some? then page.data.value else [],
         pagination := if page.pagination.Some? then page.pagination.value else map[],
         error := None)
    case GetFulfilled(job) => s.(loading := false, currentJob := job, error := None)
    case CreateFulfilled(job) => s.(loading := false, items := s.items + [job], error := None)
    case RewriteFulfilled(_, job) =>
      s.(loading := false, items := ReplaceById(s.items, job), currentJob := Some(job), error := None)
    case DeleteFulfilled(id) => s.(loading := false, items := RemoveById(s.items, id), error := None)
  }

  /** A rewrite replaces only the first job with the reply's id, keeps the
      length, and leaves the list as it was when no job has that id;
      `currentJob` becomes the reply either way. */
  lemma RewriteTouchesFirstMatchOnly(s: JobsState, kind: Rewrite, job: Object)
    ensures var r := Reduce(s, RewriteFulfilled(kind, job));
            && |r.items| == |s.items|
            && (forall i :: 0 <= i < |s.items| && Id(s.items[i]) != Id(job) ==> r.items[i] == s.items[i])
            && ((forall i :: 0 <= i < |s.items| ==> Id(s.items[i]) != Id(job)) ==> r.items == s.items)
            && r.currentJob == Some(job)
  {
  }

  /** A delete leaves no job with that id and keeps every other job (in
      order, by `Records.RemoveKeepsOrder`). */
  lemma DeleteRemovesEveryMatch(s: JobsState, id: Value)
    ensures var r := Reduce(s, DeleteFulfilled(id));
            && (forall o :: o in r.items ==> Id(o) != id)
            && (forall o :: o in s.items && Id(o) != id ==> o in r.items)
  {
  }

  /** A settled thunk and the reducer together: a reply that reports
      failure with a message records that message, a thrown call with a
      response body records the body's message, and one without a body
      records the case's default. */
  lemma RejectionRecordsBackendMessage<D>(s: JobsState, op: Operation, reply: Reply<Envelope<D>>)
    requires !(reply.Returned? && reply.body.success)
    ensures var st := Settle(reply, Fallback(op));
            && st.RejectedWith?
            && var e := Reduce(s, Rejected(op, st.payload)).error;
            && (reply.Returned? && reply.body.message.Str? && reply.body.message.s != "" ==>
                  e == Some(reply.body.message.s))
            && (reply.Threw? && reply.error.data.Some? ==>
                  e == Some(RejectionMessage(WithMessage(Get(reply.error.data.value, "message")), Fallback(op))))
            && (reply.Threw? && reply.error.data.None? ==> e == Some(Fallback(op)))
            && (reply.Returned? && !Truthy(reply.body.message) ==> e == Some(Fallback(op)))
  {
  }

  /** A rejection whose payload is the fallback text — the call threw without
      a response body — records the reducer's default message. */
  lemma TextPayloadUsesDefault(s: JobsState, op: Operation, text: string)
    ensures Reduce(s, Rejected(op, Text(text))).error == Some(Fallback(op))
  {
  }
}
