/** What the two views exchange with the backend, as values. A view never
    performs a request: it emits a description of one, together with what it
    does once that request resolves. */
module Api {

  /** A task as the backend returns it. `dueDate` is `None` when the field
      is absent or null. */
  datatype Task = Task(
    id: string,
    title: string,
    description: string,
    priority: string,
    status: string,
    dueDate: Option<string>)

  datatype Option<T> = None | Some(value: T)

  /** JavaScript truthiness of an optional string: only an absent value and
      the empty string are falsy. */
  predicate Truthy(s: Option<string>): (b: bool)
    ensures !b <==> s.None? || |s.value| == 0
  {
    s.Some? && s.value != ""
  }

  /** The editor's form record; it is also the body of a create or update
      request. */
  datatype Form = Form(
    title: string,
    description: string,
    priority: string,
    status: string,
    dueDate: string)

  /** The named inputs of the form. */
  datatype Field = Title | Description | Priority | Status | DueDate

  datatype Method = Get | Post | Put | Delete

  /** A request description: URL, HTTP method, JSON body, and the value of
      the `Authorization` header (the session token, verbatim). */
  datatype Request = Request(url: string, verb: Method, body: Option<Form>, token: string)

  /** What a view does once a request has resolved. */
  datatype Continuation =
    | Navigate(route: string)  // go to a route
    | FillForm                 // store the fetched task and fill the form from it
    | ReplaceTasks             // replace the list with the response's tasks
    | Refetch                  // issue the list request again

  /** The outward effect of one user action or lifecycle step. */
  datatype Effect =
    | Idle                                      // nothing is issued
    | Send(request: Request, next: Continuation) // one request; `next` runs only after it resolves
    | Go(route: string)                         // navigate at once, without a request

  /** The URL of one task. */
  function TaskUrl(id: string): string
  {
    "/tasks/" + id
  }
}
