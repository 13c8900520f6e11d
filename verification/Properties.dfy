/**
  Properties that relate several transitions of the todo view, or one
  transition to an independent description of its effect.
 */
module Properties {
  import opened Api
  import opened Seqs
  import opened Text
  import opened TodoList
  import opened Home

  /** A blank draft makes `createTodo` independent of any server: no request,
      the same state whatever reply one imagines. */
  lemma BlankCreateIgnoresServer(s: ViewState, a: Reply<Todo>, b: Reply<Todo>)
    requires IsBlank(s.title)
    ensures CreateTodo(s, a) == CreateTodo(s, b)
    ensures CreateTodo(s, a).sent == None
    ensures CreateTodo(s, a).state.errorMessage == EmptyTitle
  {
  }

  /** When the server assigns a fresh id, the created todo occurs exactly
      once in the list: at the end. */
  lemma CreateAppendsOnce(s: ViewState, t: Todo)
    requires !IsBlank(s.title) && t.id !in Ids(s.todos)
    ensures var todos := CreateTodo(s, Ok(t)).state.todos;
      && todos[|todos| - 1] == t
      && forall i :: 0 <= i < |todos| && todos[i].id == t.id ==> i == |todos| - 1
  {
  }

  /** Deleting a freshly created todo restores the list it was created in. */
  lemma CreateThenDeleteRestores(s: ViewState, t: Todo)
    requires !IsBlank(s.title) && t.id !in Ids(s.todos)
    ensures DeleteTodo(CreateTodo(s, Ok(t)).state, t.id, Ok(())).state.todos == s.todos
  {
    var keep := OtherId(t.id);
    FilterAppend(s.todos, [t], keep);
    FilterKeepsAll(s.todos, keep) by {
      forall i | 0 <= i < |s.todos|
        ensures keep(s.todos[i])
      {
        assert s.todos[i] in s.todos;
      }
    }
    assert Filter([t], keep) == [];
  }

  /** After a successful toggle of a listed todo, the todo shows under the
      filter that matches the SERVER's flag and under no other, whatever
      flag it had before. */
  lemma ToggleFollowsServer(s: ViewState, id: Id, t: Todo)
    requires t.id == id && id in Ids(s.todos)
    ensures var todos := ToggleTodoStatus(s, id, Ok(t)).state.todos;
      && t in WithStatus(todos, t.completed)
      && forall u :: u in WithStatus(todos, !t.completed) ==> u.id != id
  {
  }

  /** Starting a second edit forgets the first: the result is as if only the
      second edit had been started. */
  lemma SecondEditOverwrites(s: ViewState, a: Id, titleA: string, b: Id, titleB: string)
    ensures HandleEditTodo(HandleEditTodo(s, a, titleA), b, titleB) == HandleEditTodo(s, b, titleB)
  {
  }

  /** Edit lifecycle through the Enter key: after opening edit mode with a
      non-blank title, Enter sends that title for that id; success closes
      edit mode and clears the draft, failure keeps both for a retry. */
  lemma EditThenEnter(s: ViewState, id: Id, title: string, reply: Reply<Todo>)
    requires !IsBlank(title)
    ensures var r := HandleKeyPress(HandleEditTodo(s, id, title), "Enter", reply);
      && r.sent == Some(PutTitle(id, title))
      && (reply.Ok? ==> r.state.editingId == None && r.state.newTitle == "")
      && (reply.Failed? ==> r.state.editingId == Some(id) && r.state.newTitle == title)
      && !r.state.loading
  {
  }

  /** Enter sends an update exactly when an edit is open with a non-blank
      draft, and a create exactly when no edit is open and the new-todo
      draft is non-blank; the input the key came from plays no part. */
  lemma EnterDispatch(s: ViewState, reply: Reply<Todo>)
    ensures var r := HandleKeyPress(s, "Enter", reply);
      && (r.sent.Some? && r.sent.value.PutTitle? <==> s.editingId.Some? && !IsBlank(s.newTitle))
      && (r.sent.Some? && r.sent.value.PostTodo? <==> s.editingId.None? && !IsBlank(s.title))
      && (r.sent.Some? && r.sent.value.PutTitle? ==> r.sent.value.id == s.editingId.value)
  {
  }

  /** The two filter buttons show complementary views of the same list:
      disjoint, and together every entry exactly once. */
  lemma FilterViewsPartition(s: ViewState)
    ensures var shown := FilteredTodos(s);
      var hidden := FilteredTodos(s.(showCompleted := !s.showCompleted));
      && |shown| + |hidden| == |s.todos|
      && multiset(shown) + multiset(hidden) == multiset(s.todos)
      && forall t :: !(t in shown && t in hidden)
  {
    StatusPartition(s.todos);
  }

  /** Expiry is idempotent: once the messages are cleared, firing again
      changes nothing. */
  lemma ExpireIdempotent(s: ViewState)
    ensures ExpireMessages(ExpireMessages(s)) == ExpireMessages(s)
  {
  }

  /** Deleting the todo that is being edited leaves edit mode pointing at
      the deleted id, so a later Enter (from either input) sends an update
      for the deleted id instead of creating a todo. */
  lemma DeleteKeepsStaleEdit(s: ViewState, reply: Reply<Todo>)
    requires s.editingId.Some? && !IsBlank(s.newTitle)
    ensures var d := DeleteTodo(s, s.editingId.value, Ok(())).state;
      && s.editingId.value !in Ids(d.todos)
      && d.editingId == s.editingId
      && HandleKeyPress(d, "Enter", reply).sent == Some(PutTitle(s.editingId.value, s.newTitle))
  {
  }
}
