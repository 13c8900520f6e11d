/**
  The view driven by user events, as the component's markup wires them:
  the two text inputs, the Add button, the filter buttons, the per-item
  Toggle, Delete, Edit and Save buttons, the mount effect and the message
  timer. Per-item buttons exist only for the rendered items, so they are
  addressed by position in the filtered list, and only while the list (not
  the spinner) is shown. The edit input exists only under the rendered item
  being edited. An event aimed at a control that is not on screen changes
  nothing. A run applies events one after another.
 */
module Session {
  import opened Api
  import opened Seqs
  import opened Text
  import opened TodoList
  import opened Home

  datatype Event =
    | Mounted(list: Reply<seq<Todo>>)
    | TitleInput(text: string)
    | AddClicked(reply: Reply<Todo>)
    | KeyDown(key: string, reply: Reply<Todo>)
    | FilterClicked(completed: bool)
    | ToggleClicked(index: nat, reply: Reply<Todo>)
    | DeleteClicked(index: nat, ack: Reply<()>)
    | EditClicked(index: nat)
    | EditInput(text: string)
    | SaveClicked(index: nat, reply: Reply<Todo>)
    | MessagesExpired

  /** The rendered item at `index`, if the list is shown and that long. */
  function Rendered(s: ViewState, index: nat): (r: Option<Todo>)
    ensures r.Some? ==> r.value in s.todos && r.value.completed == s.showCompleted
    ensures r.None? <==> s.loading || index >= |FilteredTodos(s)|
  {
    var shown := FilteredTodos(s);
    if s.loading || index >= |shown| then None
    else
      assert shown[index] in shown;
      Some(shown[index])
  }

  /** Ids that a reply carried by `e` brings from the server. */
  function ServedIds(e: Event): set<Id>
  {
    match e
    case Mounted(Ok(list)) => Ids(list)
    case AddClicked(Ok(t)) => {t.id}
    case KeyDown(_, Ok(t)) => {t.id}
    case ToggleClicked(_, Ok(t)) => {t.id}
    case SaveClicked(_, Ok(t)) => {t.id}
    case _ => {}
  }

  /** Ids that `e` brings from the server in state `s`: those of its reply,
      provided the event sent a request at all. */
  function Served(s: ViewState, e: Event): set<Id>
  {
    if Apply(s, e).sent.Some? then ServedIds(e) else {}
  }

  /** Ids brought by the replies of a whole run from `s`. */
  function ServedAll(s: ViewState, es: seq<Event>): set<Id>
    decreases |es|
  {
    if |es| == 0 then {} else Served(s, es[0]) + ServedAll(Apply(s, es[0]).state, es[1..])
  }

  /** Whether the edit input is on screen: the list is shown and it holds
      the todo being edited. */
  predicate EditInputShown(s: ViewState)
  {
    !s.loading && s.editingId.Some? && s.editingId.value in Ids(FilteredTodos(s))
  }

  /** One event. Every network handler finishes with loading off. */
  function Apply(s: ViewState, e: Event): (r: Step)
    ensures r.sent.Some? ==> !r.state.loading
    ensures !s.loading ==> !r.state.loading
  {
    match e
    case Mounted(list) => FetchTodos(s, list)
    case TitleInput(text) => Step(s.(title := text), None)
    case AddClicked(reply) => CreateTodo(s, reply)
    case KeyDown(key, reply) => HandleKeyPress(s, key, reply)
    case FilterClicked(completed) => Step(s.(showCompleted := completed), None)
    case ToggleClicked(index, reply) =>
      var item := Rendered(s, index);
      if item.None? then Step(s, None)
      else ToggleTodoStatus(s, item.value.id, reply)
    case DeleteClicked(index, ack) =>
      var item := Rendered(s, index);
      if item.None? then Step(s, None) else DeleteTodo(s, item.value.id, ack)
    case EditClicked(index) =>
      var item := Rendered(s, index);
      if item.None? then Step(s, None)
      else Step(HandleEditTodo(s, item.value.id, item.value.title), None)
    case EditInput(text) =>
      if EditInputShown(s) then Step(s.(newTitle := text), None) else Step(s, None)
    case SaveClicked(index, reply) =>
      var item := Rendered(s, index);
      if item.None? || s.editingId != Some(item.value.id) then Step(s, None)
      else UpdateTodo(s, item.value.id, reply)
    case MessagesExpired => Step(ExpireMessages(s), None)
  }

  /** The only ids that one event can bring into the list are those the
      server sent in reply to the request it made. */
  lemma ApplyServedIds(s: ViewState, e: Event)
    ensures Ids(Apply(s, e).state.todos) <= Ids(s.todos) + Served(s, e)
  {
    SilentKeepsList(s, e);
    match e
    case AddClicked(reply) => AddedIds(s, CreateTodo(s, reply), reply);
    case KeyDown(key, reply) => KeyDownServedIds(s, key, reply);
    case ToggleClicked(index, reply) => ToggleServedIds(s, index, reply);
    case SaveClicked(index, reply) => SaveServedIds(s, index, reply);
    case _ =>
  }

  /** An event that sends no request leaves the list as it was. */
  lemma SilentKeepsList(s: ViewState, e: Event)
    ensures Apply(s, e).sent.None? ==> Apply(s, e).state.todos == s.todos
  {
  }

  /** Enter brings in at most the id of the created or updated todo. */
  lemma KeyDownServedIds(s: ViewState, key: string, reply: Reply<Todo>)
    ensures Ids(HandleKeyPress(s, key, reply).state.todos) <= Ids(s.todos) + ServedIds(KeyDown(key, reply))
  {
    if key == "Enter" && s.editingId.Some? {
      UpdatedIds(s, s.editingId.value, reply);
    } else if key == "Enter" {
      AddedIds(s, CreateTodo(s, reply), reply);
    }
  }

  /** A toggle brings in at most the id of the server's todo. */
  lemma ToggleServedIds(s: ViewState, index: nat, reply: Reply<Todo>)
    ensures Ids(Apply(s, ToggleClicked(index, reply)).state.todos) <= Ids(s.todos) + ServedIds(ToggleClicked(index, reply))
  {
    var item := Rendered(s, index);
    if item.Some? && reply.Ok? {
      ReplaceByIdIdsBound(s.todos, item.value.id, reply.value);
    }
  }

  /** A save brings in at most the id of the server's todo. */
  lemma SaveServedIds(s: ViewState, index: nat, reply: Reply<Todo>)
    ensures Ids(Apply(s, SaveClicked(index, reply)).state.todos) <= Ids(s.todos) + ServedIds(SaveClicked(index, reply))
  {
    var item := Rendered(s, index);
    if item.Some? && s.editingId == Some(item.value.id) {
      UpdatedIds(s, item.value.id, reply);
    }
  }

  /** After a create, the list holds the old ids plus at most the id the
      server returned. */
  lemma AddedIds(s: ViewState, r: Step, reply: Reply<Todo>)
    requires r == CreateTodo(s, reply)
    ensures Ids(r.state.todos) <= Ids(s.todos) + (if reply.Ok? then {reply.value.id} else {})
  {
    if !IsBlank(s.title) && reply.Ok? {
      assert r.state.todos == s.todos + [reply.value];
    }
  }

  /** After an update, the list holds the old ids plus at most the id the
      server returned. */
  lemma UpdatedIds(s: ViewState, id: Id, reply: Reply<Todo>)
    ensures Ids(UpdateTodo(s, id, reply).state.todos) <= Ids(s.todos) + (if reply.Ok? then {reply.value.id} else {})
  {
    if !IsBlank(s.newTitle) && reply.Ok? {
      assert UpdateTodo(s, id, reply).state.todos == ReplaceById(s.todos, id, reply.value);
      ReplaceByIdIdsBound(s.todos, id, reply.value);
    }
  }

  /** The state after a run of events. */
  function Run(s: ViewState, es: seq<Event>): ViewState
    decreases |es|
  {
    if |es| == 0 then s else Run(Apply(s, es[0]).state, es[1..])
  }

  /** Applied one at a time, handlers never leave the view stuck loading. */
  lemma {:induction false} RunStaysIdle(s: ViewState, es: seq<Event>)
    requires !s.loading
    ensures !Run(s, es).loading
    decreases |es|
  {
    if |es| > 0 {
      RunStaysIdle(Apply(s, es[0]).state, es[1..]);
    }
  }

  /** The view never fabricates an id: every id in the list was there at the
      start of the run or arrived in one of the server's replies. */
  lemma {:induction false} RunServedIds(s: ViewState, es: seq<Event>)
    ensures Ids(Run(s, es).todos) <= Ids(s.todos) + ServedAll(s, es)
    decreases |es|
  {
    if |es| > 0 {
      ApplyServedIds(s, es[0]);
      RunServedIds(Apply(s, es[0]).state, es[1..]);
    }
  }

  /** From the mounted, empty view every listed id came from the server. */
  lemma FromInitialAllServed(es: seq<Event>)
    ensures Ids(Run(Initial(), es).todos) <= ServedAll(Initial(), es)
    ensures !Run(Initial(), es).loading
  {
    RunServedIds(Initial(), es);
    RunStaysIdle(Initial(), es);
  }

  /** The Edit button opens edit mode on a todo of the list, shown under the
      current filter, with that todo's title as the draft. */
  lemma EditTargetsListedTodo(s: ViewState, index: nat)
    requires !s.loading && index < |FilteredTodos(s)|
    ensures var r := Apply(s, EditClicked(index)).state;
      && r.editingId.Some?
      && exists t :: t in s.todos && t.completed == s.showCompleted
                     && r.editingId == Some(t.id) && r.newTitle == t.title
  {
  }
}
