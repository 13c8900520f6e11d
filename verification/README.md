# Todo view state machine

A Dafny model of the `Home` component of a small todo application. The
component keeps a list of todos in sync with a REST service. Through five
requests it lists, creates, deletes, toggles and renames todos. It also keeps
a new-todo draft, a completed/incomplete filter, transient error and success
messages, a loading flag, and an edit mode with its own draft.

The model strips away React and axios. Each handler becomes a pure function
from the old `ViewState` and the settled outcome of its request to the new
`ViewState`, together with the request it sent. The outcome is a `Reply`:
`Ok(body)` or `Failed`. Completions apply one at a time.

- `Api`: the `Todo` record, the five `Request`s (method, path id, JSON body) and `Reply`.
- `Seqs`: an order-preserving `Filter` (JavaScript's `Array.prototype.filter`) and the subsequence relation.
- `Text`: `Trim` over the ECMAScript whitespace set, and `IsBlank`.
- `TodoList`: remove-by-id, replace-by-id and the completed/incomplete projection.
- `Home`: the state record and one transition per handler.
- `Session`: the component's markup wiring as an `Event` type, runs of events, and invariants over runs.
- `Properties`: lemmas that relate several transitions.

Behaviours of the code worth knowing:

- On success, `deleteTodo` removes every entry carrying the id, not just one.
- A successful `fetchTodos` leaves both messages alone. A failed one sets the error but does not clear the success message.
- Failed create, delete, toggle and update all clear the success message.
- A blank draft in `createTodo` or `updateTodo` sets the error and leaves the success message, the loading flag and everything else untouched.

One behaviour follows from the code as written and is stated, not corrected: deleting the todo that is being edited leaves `editingId` set (`Properties.DeleteKeepsStaleEdit`). A later Enter in the new-todo input then sends an update for the deleted id instead of creating a todo.

## Model

| member | source | states |
|---|---|---|
| `Seqs.Filter` | Front-end/src/components/Home.jsx:134-136 | filter never returns a longer list, and every element it returns satisfies the predicate |
| `Seqs.FilterCounts` | Front-end/src/components/Home.jsx:72 | each kept value occurs in the result exactly as often as in the input and no rejected value occurs; membership iff in the input and kept |
| `Seqs.FilterIsSubsequence` | Front-end/src/components/Home.jsx:134-136 | the filtered list is a subsequence of the input (relative order kept) |
| `Seqs.FilterAppend` | Front-end/src/components/Home.jsx:72 | filtering distributes over concatenation |
| `Seqs.FilterKeepsAll` | Front-end/src/components/Home.jsx:72 | a filter that rejects no element returns the list unchanged |
| `Seqs.FilterPartition` | Front-end/src/components/Home.jsx:134-136 | filtering by a predicate and by its negation gives disjoint parts whose lengths and multisets add up to the input |
| `Text.Trim` | Front-end/src/components/Home.jsx:38 | `trim` yields the empty string exactly when the draft is all whitespace; otherwise a slice that neither starts nor ends with whitespace, between a blank prefix and a blank suffix |
| `TodoList.RemoveById` | Front-end/src/components/Home.jsx:72 | removing an id keeps exactly the entries with another id, in order and with their multiplicity; the id set loses exactly that id; the list shrinks when the id was present and is unchanged when it was absent |
| `TodoList.ReplaceById` | Front-end/src/components/Home.jsx:90 | replacement keeps the length; every position with the id holds the new todo and every other position is unchanged |
| `TodoList.ReplaceAbsent` | Front-end/src/components/Home.jsx:120 | replacing an id that no entry carries leaves the list unchanged |
| `TodoList.ReplacedIds` | Front-end/src/components/Home.jsx:90 | replacing a present id changes the id set by exactly removing that id and adding the server todo's id |
| `TodoList.ReplaceByIdIdsBound` | Front-end/src/components/Home.jsx:120 | replacement brings in no id except the replacement todo's own |
| `TodoList.WithStatus` | Front-end/src/components/Home.jsx:134-136 | the status projection is the subsequence of entries whose `completed` equals the flag, each with its multiplicity |
| `TodoList.StatusPartition` | Front-end/src/components/Home.jsx:134-136 | the completed and incomplete projections are disjoint and exhaustive; lengths and multisets sum to the list's; each todo sits in the projection of its own flag |
| `Home.FetchTodos` | Front-end/src/components/Home.jsx:24-35 | fetch sends GET; success replaces the list wholesale, failure keeps it and sets the load error; drafts, filter and edit mode untouched; loading ends false |
| `Home.CreateTodo` | Front-end/src/components/Home.jsx:37-58 | no request iff the draft is blank, in which case only the error changes. Otherwise it posts the untrimmed draft with `completed: false`. Success: old list is a prefix, length +1, server todo last, draft cleared, success set, error cleared. Failure: list and draft kept, error set, success cleared. Loading ends false |
| `Home.HandleKeyPress` | Front-end/src/components/Home.jsx:59-67 | Enter runs update for the open edit id, else create; other keys change nothing and send nothing |
| `Home.DeleteTodo` | Front-end/src/components/Home.jsx:68-82 | sends DELETE. Success: the id is absent, the rest keep their order and every copy of them survives. Failure: list kept, error set. List never grows; loading ends false; drafts, filter and edit mode untouched |
| `Home.ToggleTodoStatus` | Front-end/src/components/Home.jsx:84-100 | sends PATCH. Success: each entry with the id becomes the server's todo verbatim (no local negation) and every other position is kept. Failure: list kept. Length constant; loading ends false |
| `Home.HandleEditTodo` | Front-end/src/components/Home.jsx:102-105 | sets the edit id and overwrites the edit draft; no other field changes |
| `Home.UpdateTodo` | Front-end/src/components/Home.jsx:107-132 | no request iff the edit draft is blank, in which case only the error changes and edit mode stays open. Otherwise it sends PUT with the untrimmed draft. Success: matching entries replaced, edit id null, draft cleared. Failure: edit id and draft kept. Loading ends false |
| `Home.Initial` | Front-end/src/components/Home.jsx:11-18 | on mount both drafts and both messages are empty, the list is empty, the incomplete filter is selected, nothing is loading and no edit is open |
| `Home.FilteredTodos` | Front-end/src/components/Home.jsx:134-136 | the shown list is exactly the entries whose flag equals `showCompleted`, in list order, each with its multiplicity |
| `Home.ExpireMessages` | Front-end/src/components/Home.jsx:138-146 | expiry leaves both messages empty and changes no other field |
| `Session.Rendered` | Front-end/src/components/Home.jsx:205-212 | an item button exists only while the list is shown, for a todo of the list under the current filter |
| `Session.Apply` | Front-end/src/components/Home.jsx:151-265 | every event that sends a request ends with loading false, and no event raises loading |
| `Session.SilentKeepsList` | Front-end/src/components/Home.jsx:151-265 | an event that sends no request (a typed character, a filter click, Edit, a blank draft, a key other than Enter, a control not on screen, expiry) leaves the list unchanged |
| `Session.ApplyServedIds` | Front-end/src/components/Home.jsx:24-132 | an event adds to the list no ids beyond those in the server's reply to the request it sent |
| `Session.RunStaysIdle` | Front-end/src/components/Home.jsx:32-34 | over any run of sequentially applied events, the loading flag ends false |
| `Session.RunServedIds` | Front-end/src/components/Home.jsx:24-132 | over any run, every listed id was listed at the start or came in a server reply to a request sent during the run (the view never fabricates ids) |
| `Session.FromInitialAllServed` | Front-end/src/components/Home.jsx:20-22 | from the empty mounted state, every listed id came from the server, and loading ends false |
| `Session.EditTargetsListedTodo` | Front-end/src/components/Home.jsx:241-247 | the Edit button opens edit mode on a listed todo shown under the current filter, with its title as the draft |
| `Properties.BlankCreateIgnoresServer` | Front-end/src/components/Home.jsx:38-41 | a blank draft makes create send nothing and reply-independent, with the empty-title error |
| `Properties.CreateAppendsOnce` | Front-end/src/components/Home.jsx:47 | with a fresh server id, the created todo is the only entry with that id, and it is last |
| `Properties.CreateThenDeleteRestores` | Front-end/src/components/Home.jsx:47 | deleting a freshly created todo restores the list from before the create (delete inverts create) |
| `Properties.ToggleFollowsServer` | Front-end/src/components/Home.jsx:90 | after a toggle the todo shows under the filter of the server's flag and no entry with its id shows under the other |
| `Properties.SecondEditOverwrites` | Front-end/src/components/Home.jsx:102-105 | starting a second edit equals starting only the second one (the first draft is lost) |
| `Properties.EditThenEnter` | Front-end/src/components/Home.jsx:107-132 | edit then Enter sends PUT with that id and title. Success closes edit mode and clears the draft; failure keeps both; loading ends false |
| `Properties.EnterDispatch` | Front-end/src/components/Home.jsx:59-67 | Enter sends an update iff an edit is open with a non-blank draft, for the open id. It sends a create iff no edit is open and the new-todo draft is non-blank |
| `Properties.FilterViewsPartition` | Front-end/src/components/Home.jsx:134-136 | the two filter settings show disjoint views that together hold every entry exactly once |
| `Properties.ExpireIdempotent` | Front-end/src/components/Home.jsx:138-146 | a second expiry changes nothing |
| `Properties.DeleteKeepsStaleEdit` | Front-end/src/components/Home.jsx:68-82 | deleting the edited todo keeps `editingId`, so Enter then sends an update for the deleted id |

## Left out

- HTTP transport, the base URL and its environment fallback, and console logging. Each request becomes a `Request` value, and its outcome a `Reply` parameter.
- React rendering: markup, CSS classes, spinner, icons, the Add button's `disabled` attribute and the list numbering. Only the event wiring and the list-versus-spinner choice are modelled, in `Session`.
- The in-flight state. A handler raises `loading` before its request and lowers it when the request settles. Completions apply immediately here, so only the settled state is modelled.
- Overlapping requests and the handlers' closure over a stale `todos`. These are concurrency behaviour; the model applies completions one at a time.
- The 3000 ms timer and its cleanup. Expiry is the explicit `MessagesExpired` event, and the countdown restart on a new message is not modelled.
- The response body of DELETE, which is ignored (modelled as `Reply<()>`).
- The JSON decoding of server todos: a reply is assumed to be a well-formed `Todo`.
- Back-end/src/main/java/com/zosh/controllers/TodoController.java: it delegates to a service that is not part of this model.
- Back-end/src/main/java/com/zosh/security/CorsConfig.java: framework configuration with no logic.
- Text.Trim: uses the ECMAScript whitespace code points written out in `Text.IsWhitespace`. A JavaScript engine built on a different Unicode version could classify some space separators differently.
