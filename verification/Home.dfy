/**
  The `Home` todo view as a state machine. Every handler of the component
  becomes a pure transition from the old view state and the settled outcome
  of its request (if it makes one) to the new view state, together with the
  request it sent. Completions are applied one at a time, so the loading
  flag that a handler raises while its request is in flight is lowered again
  by the time the transition returns.
 */
module Home {
  import opened Api
  import opened Seqs
  import opened Text
  import opened TodoList

  // The fixed user-facing messages, one per outcome.
  const EmptyTitle := "Title cannot be empty."
  const LoadFailed := "Failed to load todos. Please try again later."
  const Added := "Todo added successfully!"
  const CreateFailed := "Failed to create todo. Please try again."
  const Deleted := "Todo deleted successfully!"
  const DeleteFailed := "Failed to delete todo. Please try again."
  const StatusUpdated := "Todo status updated successfully!"
  const StatusFailed := "Failed to update todo status. Please try again."
  const Updated := "Todo updated successfully!"
  const UpdateFailed := "Failed to update todo. Please try again."

  /** The component's eight pieces of state: the new-todo draft, the list,
      the filter flag, the two transient messages, the loading flag, the id
      in edit mode (`null` when browsing) and the edit draft. */
  datatype ViewState = ViewState(
    title: string,
    todos: seq<Todo>,
    showCompleted: bool,
    errorMessage: string,
    successMessage: string,
    loading: bool,
    editingId: Option<Id>,
    newTitle: string)

  /** The state on mount, before the initial fetch settles. */
  function Initial(): (r: ViewState)
    ensures r.title == "" && r.newTitle == ""
    ensures r.todos == [] && !r.showCompleted
    ensures r.errorMessage == "" && r.successMessage == ""
    ensures !r.loading && r.editingId == None
  {
    ViewState("", [], false, "", "", false, None, "")
  }

  /** A transition's new state and the request it sent, if any. */
  datatype Step = Step(state: ViewState, sent: Option<Request>)

  /** A draft the component refuses to submit: `!draft.trim()`. */
  predicate Rejected(draft: string)
  {
    Trim(draft) == ""
  }

  /** How create, delete, toggle and update settle on success: the new list,
      the success message, the error cleared, loading over. */
  function OnSuccess(s: ViewState, todos: seq<Todo>, message: string): ViewState
  {
    s.(todos := todos, successMessage := message, errorMessage := "", loading := false)
  }

  /** How create, delete, toggle and update settle on failure: the list kept,
      the action's error message, the success message cleared, loading over. */
  function OnFailure(s: ViewState, message: string): ViewState
  {
    s.(errorMessage := message, successMessage := "", loading := false)
  }

  /** `fetchTodos`: load the whole list, replacing the local one on success.
      Neither outcome touches the drafts, the filter or the edit mode; a
      success leaves both messages alone and a failure only sets the error. */
  function FetchTodos(s: ViewState, reply: Reply<seq<Todo>>): (r: Step)
    ensures r.sent == Some(GetTodos)
    ensures !r.state.loading
    ensures r.state.todos == if reply.Ok? then reply.value else s.todos
    ensures r.state.errorMessage == if reply.Ok? then s.errorMessage else LoadFailed
    ensures r.state.successMessage == s.successMessage
    ensures r.state.(todos := s.todos, errorMessage := s.errorMessage, loading := s.loading) == s
  {
    match reply
    case Ok(list) => Step(s.(todos := list, loading := false), Some(GetTodos))
    case Failed => Step(s.(errorMessage := LoadFailed, loading := false), Some(GetTodos))
  }

  /** `createTodo`: a blank draft only sets the empty-title error and sends
      nothing. Otherwise the untrimmed draft is posted as an incomplete todo;
      on success the server's todo is appended, the draft cleared and the
      success message shown; on failure the list and the draft are kept. */
  function CreateTodo(s: ViewState, reply: Reply<Todo>): (r: Step)
    ensures r.sent == None <==> IsBlank(s.title)
    ensures IsBlank(s.title) ==> r.state == s.(errorMessage := EmptyTitle)
    ensures !IsBlank(s.title) ==> r.sent == Some(PostTodo(s.title, false)) && !r.state.loading
    ensures !IsBlank(s.title) && reply.Ok? ==>
      && s.todos <= r.state.todos
      && |r.state.todos| == |s.todos| + 1
      && r.state.todos[|s.todos|] == reply.value
      && r.state.title == ""
      && r.state.successMessage == Added
      && r.state.errorMessage == ""
    ensures !IsBlank(s.title) && reply.Failed? ==>
      && r.state.todos == s.todos
      && r.state.title == s.title
      && r.state.errorMessage == CreateFailed
      && r.state.successMessage == ""
    ensures r.state.showCompleted == s.showCompleted
    ensures r.state.editingId == s.editingId && r.state.newTitle == s.newTitle
  {
    if Rejected(s.title) then
      Step(s.(errorMessage := EmptyTitle), None)
    else
      var request := PostTodo(s.title, false);
      match reply
      case Ok(t) => Step(OnSuccess(s, s.todos + [t], Added).(title := ""), Some(request))
      case Failed => Step(OnFailure(s, CreateFailed), Some(request))
  }

  /** `deleteTodo`: on success every entry carrying `id` is gone and the
      rest keep their order; on failure the list is kept. The edit mode is
      left as it was either way. */
  function DeleteTodo(s: ViewState, id: Id, reply: Reply<()>): (r: Step)
    ensures r.sent == Some(DeleteById(id))
    ensures !r.state.loading
    ensures reply.Ok? ==>
      && id !in Ids(r.state.todos)
      && IsSubsequence(r.state.todos, s.todos)
      && (forall t :: t in s.todos && t.id != id ==> t in r.state.todos)
      && (forall t :: multiset(r.state.todos)[t] == if t.id != id then multiset(s.todos)[t] else 0)
      && r.state.successMessage == Deleted
      && r.state.errorMessage == ""
    ensures reply.Failed? ==>
      && r.state.todos == s.todos
      && r.state.errorMessage == DeleteFailed
      && r.state.successMessage == ""
    ensures |r.state.todos| <= |s.todos|
    ensures r.state.(todos := s.todos, errorMessage := s.errorMessage,
                     successMessage := s.successMessage, loading := s.loading) == s
  {
    match reply
    case Ok(_) => Step(OnSuccess(s, RemoveById(s.todos, id), Deleted), Some(DeleteById(id)))
    case Failed => Step(OnFailure(s, DeleteFailed), Some(DeleteById(id)))
  }

  /** `toggleTodoStatus`: the server flips the flag; on success every entry
      carrying `id` becomes the server's todo verbatim (the view never
      negates `completed` itself) and every other position is kept. */
  function ToggleTodoStatus(s: ViewState, id: Id, reply: Reply<Todo>): (r: Step)
    ensures r.sent == Some(PatchToggle(id))
    ensures !r.state.loading
    ensures |r.state.todos| == |s.todos|
    ensures reply.Ok? ==>
      && (forall i :: 0 <= i < |s.todos| && s.todos[i].id == id ==> r.state.todos[i] == reply.value)
      && (forall i :: 0 <= i < |s.todos| && s.todos[i].id != id ==> r.state.todos[i] == s.todos[i])
      && r.state.successMessage == StatusUpdated
      && r.state.errorMessage == ""
    ensures reply.Failed? ==>
      && r.state.todos == s.todos
      && r.state.errorMessage == StatusFailed
      && r.state.successMessage == ""
    ensures r.state.(todos := s.todos, errorMessage := s.errorMessage,
                     successMessage := s.successMessage, loading := s.loading) == s
  {
    match reply
    case Ok(t) => Step(OnSuccess(s, ReplaceById(s.todos, id, t), StatusUpdated), Some(PatchToggle(id)))
    case Failed => Step(OnFailure(s, StatusFailed), Some(PatchToggle(id)))
  }

  /** `handleEditTodo`: enter edit mode for `id` with its current title as
      the draft, dropping any earlier draft. Nothing else changes. */
  function HandleEditTodo(s: ViewState, id: Id, currentTitle: string): (r: ViewState)
    ensures r.editingId == Some(id) && r.newTitle == currentTitle
    ensures r.(editingId := s.editingId, newTitle := s.newTitle) == s
  {
    s.(editingId := Some(id), newTitle := currentTitle)
  }

  /** `updateTodo`: a blank edit draft only sets the empty-title error, and
      edit mode stays open. Otherwise the untrimmed draft is sent as the new
      title; on success the matching entries become the server's todo and
      edit mode closes with the draft cleared; on failure edit mode and the
      draft are kept so the user can retry. */
  function UpdateTodo(s: ViewState, id: Id, reply: Reply<Todo>): (r: Step)
    ensures r.sent == None <==> IsBlank(s.newTitle)
    ensures IsBlank(s.newTitle) ==> r.state == s.(errorMessage := EmptyTitle)
    ensures !IsBlank(s.newTitle) ==> r.sent == Some(PutTitle(id, s.newTitle)) && !r.state.loading
    ensures |r.state.todos| == |s.todos|
    ensures !IsBlank(s.newTitle) && reply.Ok? ==>
      && (forall i :: 0 <= i < |s.todos| && s.todos[i].id == id ==> r.state.todos[i] == reply.value)
      && (forall i :: 0 <= i < |s.todos| && s.todos[i].id != id ==> r.state.todos[i] == s.todos[i])
      && r.state.editingId == None
      && r.state.newTitle == ""
      && r.state.successMessage == Updated
      && r.state.errorMessage == ""
    ensures !IsBlank(s.newTitle) && reply.Failed? ==>
      && r.state.todos == s.todos
      && r.state.editingId == s.editingId
      && r.state.newTitle == s.newTitle
      && r.state.errorMessage == UpdateFailed
      && r.state.successMessage == ""
    ensures r.state.title == s.title && r.state.showCompleted == s.showCompleted
  {
    if Rejected(s.newTitle) then
      Step(s.(errorMessage := EmptyTitle), None)
    else
      var request := PutTitle(id, s.newTitle);
      match reply
      case Ok(t) =>
        Step(OnSuccess(s, ReplaceById(s.todos, id, t), Updated).(editingId := None, newTitle := ""), Some(request))
      case Failed => Step(OnFailure(s, UpdateFailed), Some(request))
  }

  /** `handleKeyPress`, shared by the new-todo input and the edit input:
      Enter saves the edit when one is open and creates a todo otherwise,
      whichever input it came from; any other key does nothing. */
  function HandleKeyPress(s: ViewState, key: string, reply: Reply<Todo>): (r: Step)
    ensures key != "Enter" ==> r == Step(s, None)
    ensures key == "Enter" && s.editingId.Some? ==> r == UpdateTodo(s, s.editingId.value, reply)
    ensures key == "Enter" && s.editingId.None? ==> r == CreateTodo(s, reply)
  {
    if key == "Enter" then
      match s.editingId
      case Some(id) => UpdateTodo(s, id, reply)
      case None => CreateTodo(s, reply)
    else
      Step(s, None)
  }

  /** `filteredTodos`: the entries whose flag matches the selected filter,
      in list order. */
  function FilteredTodos(s: ViewState): (r: seq<Todo>)
    ensures IsSubsequence(r, s.todos)
    ensures forall t :: t in r <==> t in s.todos && t.completed == s.showCompleted
    ensures forall t :: multiset(r)[t] == if t.completed == s.showCompleted then multiset(s.todos)[t] else 0
  {
    WithStatus(s.todos, s.showCompleted)
  }

  /** The message timer firing: both messages are cleared and nothing else
      changes. The guard mirrors the effect that arms the timer only while
      some message is shown; with both messages empty, clearing them would
      change nothing anyway. */
  function ExpireMessages(s: ViewState): (r: ViewState)
    ensures r.errorMessage == "" && r.successMessage == ""
    ensures r.(errorMessage := s.errorMessage, successMessage := s.successMessage) == s
  {
    if s.errorMessage != "" || s.successMessage != "" then
      s.(errorMessage := "", successMessage := "")
    else
      s
  }
}
