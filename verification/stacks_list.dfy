/** The redux-backed stacks list: which view it shows for a slice state, and
    how a stack's tile is coloured, titled and previewed. */
module StacksList {
  import opened JsValues
  import StacksSlice

  /** The description preview width, in characters. */
  const PreviewWidth := 60

  /** The preview of a stack's description: 'No description' unless the
      description is a non-empty string; up to 60 characters shown whole;
      a longer one cut to its first 60 characters followed by '...'. A
      non-string description has no `length`, so it counts as absent. */
  function Preview(description: Value): (p: string)
    ensures !(description.Str? && description.s != "") ==> p == "No description"
    ensures description.Str? && 0 < |description.s| <= PreviewWidth ==> p == description.s
  {
    if description.Str? && |description.s| > 0 then
      var d := description.s;
      d[..if |d| < PreviewWidth then |d| else PreviewWidth] + (if |d| > PreviewWidth then "..." else "")
    else "No description"
  }

  /** A preview never exceeds 63 characters; a long description's preview
      is exactly its first 60 characters and the ellipsis, and every
      non-empty description's preview starts with (a prefix of) it. */
  lemma PreviewBounds(description: Value)
    ensures |Preview(description)| <= PreviewWidth + 3
    ensures description.Str? && |description.s| > PreviewWidth ==>
              |Preview(description)| == PreviewWidth + 3 &&
              Preview(description) == description.s[..PreviewWidth] + "..."
    ensures description.Str? && description.s != "" ==>
              var n := if |description.s| < PreviewWidth then |description.s| else PreviewWidth;
              Preview(description)[..n] == description.s[..n]
  {
  }

  /** A tile's background colour and tooltip. */
  datatype Tile = Tile(color: Value, title: Value)

  /** `stack.color || '#3b82f6'` and `stack.description || stack.name`. */
  function TileOf(stack: Object): (t: Tile)
    ensures Truthy(Get(stack, "color")) ==> t.color == Get(stack, "color")
    ensures !Truthy(Get(stack, "color")) ==> t.color == Str("#3b82f6")
    ensures Truthy(Get(stack, "description")) ==> t.title == Get(stack, "description")
    ensures !Truthy(Get(stack, "description")) ==> t.title == Get(stack, "name")
  {
    Tile(Or(Get(stack, "color"), Str("#3b82f6")), Or(Get(stack, "description"), Get(stack, "name")))
  }

  /** What the component renders. */
  datatype View = Loading | Failed(message: string) | Empty | Grid(stacks: seq<Object>)

  /** The render precedence: loading first, then a non-empty error, then
      the empty notice or the grid. */
  function ViewOf(s: StacksSlice.StacksState): (v: View)
    ensures s.loading <==> v.Loading?
    ensures v.Failed? <==> !s.loading && s.error.Some? && s.error.value != ""
    ensures v.Failed? ==> v.message == s.error.value
    ensures v.Empty? <==> !s.loading && !(s.error.Some? && s.error.value != "") && |s.items| == 0
    ensures v.Grid? ==> v.stacks == s.items && |s.items| > 0
  {
    if s.loading then Loading
    else if s.error.Some? && s.error.value != "" then Failed(s.error.value)
    else if |s.items| == 0 then Empty
    else Grid(s.items)
  }

  /** The view follows the slice: a pending list shows the spinner, a
      rejection the error, and a fulfilled list its items or the notice. */
  lemma ViewFollowsSlice(s: StacksSlice.StacksState, a: StacksSlice.Action)
    ensures a.Pending? ==> ViewOf(StacksSlice.Reduce(s, a)) == Loading
    ensures a.Rejected? ==> ViewOf(StacksSlice.Reduce(s, a)).Failed?
    ensures a.ListFulfilled? ==>
              var r := StacksSlice.Reduce(s, a);
              ViewOf(r) == if |r.items| == 0 then Empty else Grid(r.items)
  {
  }
}
