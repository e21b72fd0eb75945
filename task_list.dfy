/** The task list (frontend/src/components/Tasks.jsx): badge colours, the
    list state with its fetch and delete steps, and what gets rendered. */
module TaskList {
  import opened Api

  const Red := "bg-red-100 text-red-600"
  const Yellow := "bg-yellow-100 text-yellow-600"
  const Green := "bg-green-100 text-green-600"
  const Blue := "bg-blue-100 text-blue-600"
  const Gray := "bg-gray-100 text-gray-600"

  /** `getPriorityColor`: high, medium and low have their own colour;
      every other value is gray. */
  function PriorityColor(priority: string): (c: string)
    ensures c == Red <==> priority == "high"
    ensures c == Yellow <==> priority == "medium"
    ensures c == Green <==> priority == "low"
    ensures c == Gray <==> priority != "high" && priority != "medium" && priority != "low"
  {
    if priority == "high" then Red
    else if priority == "medium" then Yellow
    else if priority == "low" then Green
    else Gray
  }

  /** `getStatusColor`: in-progress is blue and done is green; "todo" and
      every other value are gray. */
  function StatusColor(status: string): (c: string)
    ensures c == Blue <==> status == "in-progress"
    ensures c == Green <==> status == "done"
    ensures c == Gray <==> status != "in-progress" && status != "done"
  {
    if status == "todo" then Gray
    else if status == "in-progress" then Blue
    else if status == "done" then Green
    else Gray
  }

  // ---------------------------------------------------------------------
  // Requests

  /** `fetchTasks`: one GET of the collection, whose response replaces the
      list. */
  function FetchEffect(token: string): (e: Effect)
    ensures e.Send? && e.request.url == "/tasks" && e.request.verb == Get
    ensures e.request.body == None && e.request.token == token
    ensures e.next == ReplaceTasks
  {
    Send(Request("/tasks", Get, None, token), ReplaceTasks)
  }

  /** The load effect of the list: nothing while logged out, otherwise the
      collection fetch. */
  function MountEffect(isLoggedIn: bool, token: string): (e: Effect)
    ensures e.Idle? <==> !isLoggedIn
    ensures isLoggedIn ==> e == FetchEffect(token)
  {
    if !isLoggedIn then Idle else FetchEffect(token)
  }

  // ---------------------------------------------------------------------
  // Rendering

  /** What one task card shows. `deleteId` is the id its delete control
      passes to `handleDelete`. */
  datatype Card = Card(
    title: string,
    editLink: string,
    deleteId: string,
    statusClass: string,
    priorityClass: string,
    showDueDate: bool,
    description: string)

  datatype Body = Loading | EmptyState(addLink: string) | Cards(cards: seq<Card>)

  /** The heading's count (absent for an empty list) and the body below it. */
  datatype View = View(heading: Option<nat>, body: Body)

  function CardOf(t: Task): (c: Card)
    ensures c.editLink == "/tasks/" + t.id && c.deleteId == t.id
    ensures c.title == t.title && c.description == t.description
    ensures c.statusClass == StatusColor(t.status) && c.priorityClass == PriorityColor(t.priority)
    ensures c.showDueDate <==> t.dueDate.Some? && t.dueDate.value != ""
  {
    Card(t.title, TaskUrl(t.id), t.id, StatusColor(t.status), PriorityColor(t.priority),
         Truthy(t.dueDate), t.description)
  }

  /** `tasks.map(...)`: one card per task, in list order. */
  function CardsOf(tasks: seq<Task>): (cs: seq<Card>)
    ensures |cs| == |tasks|
    ensures forall i :: 0 <= i < |tasks| ==> cs[i] == CardOf(tasks[i])
  {
    if tasks == [] then [] else [CardOf(tasks[0])] + CardsOf(tasks[1..])
  }

  /** The rendered list. The heading is outside the loading switch, so it
      shows the current count even while a fetch is in flight. */
  function Render(tasks: seq<Task>, loading: bool): (v: View)
    ensures v.heading == (if |tasks| == 0 then None else Some(|tasks|))
    ensures loading ==> v.body == Loading
    ensures !loading && |tasks| == 0 ==> v.body == EmptyState("/tasks/add")
    ensures !loading && |tasks| != 0 ==> v.body.Cards? && |v.body.cards| == |tasks|
    ensures !loading && |tasks| != 0 ==> forall i :: 0 <= i < |tasks| ==> v.body.cards[i] == CardOf(tasks[i])
  {
    View(
      if |tasks| != 0 then Some(|tasks|) else None,
      if loading then Loading
      else if |tasks| == 0 then EmptyState("/tasks/add")
      else Cards(CardsOf(tasks)))
  }

  /** Once the refetch after a delete comes back without that task, no card
      carries its id. */
  lemma DeletedTaskNotRendered(response: seq<Task>, id: string)
    requires forall t :: t in response ==> t.id != id
    ensures Render(response, false).body.Cards? ==>
      forall c :: c in Render(response, false).body.cards ==> c.deleteId != id && c.editLink != "/tasks/" + id
  {
    var v := Render(response, false);
    if v.body.Cards? {
      forall c | c in v.body.cards
        ensures c.deleteId != id && c.editLink != "/tasks/" + id
      {
        var i :| 0 <= i < |v.body.cards| && v.body.cards[i] == c;
        assert response[i] in response;
        assert c.editLink[7..] == response[i].id;
      }
    }
  }

  // ---------------------------------------------------------------------
  // The list state

  /** The component's `tasks` state: a display copy of what the backend
      last returned. */
  class TaskListState {
    var tasks: seq<Task>

    constructor ()
      ensures tasks == []
    {
      tasks := [];
    }

    /** The collection fetch resolved: the list becomes exactly the
        response's tasks, whatever it held before. */
    method Fetched(response: seq<Task>)
      modifies this
      ensures tasks == response
    {
      tasks := response;
    }

    /** `handleDelete(id)`: one DELETE of that task, after whose resolution
        the list is fetched again. The list itself is not touched. */
    method Delete(id: string, token: string) returns (e: Effect)
      ensures e.Send? && e.request == Request("/tasks/" + id, Method.Delete, None, token)
      ensures e.next == Refetch
    {
      e := Send(Request(TaskUrl(id), Method.Delete, None, token), Refetch);
    }

    /** The delete resolved: the collection fetch is issued now. */
    method Deleted(token: string) returns (e: Effect)
      ensures e == FetchEffect(token)
    {
      e := FetchEffect(token);
    }
  }

  /** Delete, its resolution and the refetch's resolution, in that order:
      the list still holds the deleted task until the refetch returns, and
      then is exactly the backend's new list. */
  method DeleteThenRefresh(list: TaskListState, id: string, token: string, response: seq<Task>)
    returns (first: Effect, meanwhile: seq<Task>, second: Effect)
    modifies list
    ensures first.Send? && first.request == Request(TaskUrl(id), Method.Delete, None, token) && first.next == Refetch
    ensures meanwhile == old(list.tasks)
    ensures second == FetchEffect(token)
    ensures list.tasks == response
  {
    first := list.Delete(id, token);
    second := list.Deleted(token);
    meanwhile := list.tasks;
    list.Fetched(response);
  }
}
