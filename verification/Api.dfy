/**
  What crosses the HTTP boundary between the todo view and the todo service:
  the todo record, the five requests the view issues, and the outcome of a
  request as the view sees it (a response body, or any failure at all).
 */
module Api {

  /** JavaScript's `null` alongside a value. */
  datatype Option<+T> = None | Some(value: T)

  /** Todo ids are assigned by the server (a Java `Long`); the view only
      compares them for equality. */
  type Id = int

  datatype Todo = Todo(id: Id, title: string, completed: bool)

  /** One HTTP request, with its method, path parameter and JSON body. */
  datatype Request =
    | GetTodos                                    // GET    /todos
    | PostTodo(title: string, completed: bool)    // POST   /todos                     {title, completed}
    | DeleteById(id: Id)                          // DELETE /todos/{id}
    | PatchToggle(id: Id)                         // PATCH  /todos/{id}/toggle-status
    | PutTitle(id: Id, title: string)             // PUT    /todos/{id}                {title}

  /** The settled outcome of a request: the response body, or a failure
      (a transport error or a non-success status; the view does not tell
      them apart). */
  datatype Reply<+T> = Ok(value: T) | Failed
}
