/** The task editor page (frontend/src/pages/Task.jsx): one form shared by
    "add" and "update", a first-failure validator, and the requests the page
    emits. */
module TaskEditor {
  import opened Api
  import Js

  datatype Mode = Add | Update

  /** The mode follows from whether the route carries a task id. */
  function ModeOf(taskId: Option<string>): (m: Mode)
    ensures m == Add <==> taskId.None?
  {
    if taskId.None? then Add else Update
  }

  /** The form a fresh editor starts with. */
  const InitialForm := Form("", "", "medium", "todo", "")

  const TitleRequired := "Title is required"
  const DescriptionRequired := "Description is required"

  // ---------------------------------------------------------------------
  // Form fields

  function FieldValue(form: Form, f: Field): string {
    match f
    case Title => form.title
    case Description => form.description
    case Priority => form.priority
    case Status => form.status
    case DueDate => form.dueDate
  }

  /** `{ ...formData, [name]: value }`: the named field takes the new value
      and every other field keeps its old one. */
  function With(form: Form, f: Field, v: string): (r: Form)
    ensures FieldValue(r, f) == v
    ensures forall g :: g != f ==> FieldValue(r, g) == FieldValue(form, g)
  {
    match f
    case Title => form.(title := v)
    case Description => form.(description := v)
    case Priority => form.(priority := v)
    case Status => form.(status := v)
    case DueDate => form.(dueDate := v)
  }

  /** Two forms that agree on every field are the same form. */
  lemma FormsEqualByFields(a: Form, b: Form)
    requires forall f :: FieldValue(a, f) == FieldValue(b, f)
    ensures a == b
  {
    assert FieldValue(a, Title) == FieldValue(b, Title);
    assert FieldValue(a, Description) == FieldValue(b, Description);
    assert FieldValue(a, Priority) == FieldValue(b, Priority);
    assert FieldValue(a, Status) == FieldValue(b, Status);
    assert FieldValue(a, DueDate) == FieldValue(b, DueDate);
  }

  /** Setting a field to the value it already has changes nothing, and a
      second change of the same field overrides the first. */
  lemma WithSameValue(form: Form, f: Field)
    ensures With(form, f, FieldValue(form, f)) == form
  {
    FormsEqualByFields(With(form, f, FieldValue(form, f)), form);
  }

  lemma WithTwice(form: Form, f: Field, v: string, w: string)
    ensures With(With(form, f, v), f, w) == With(form, f, w)
  {
    FormsEqualByFields(With(With(form, f, v), f, w), With(form, f, w));
  }

  // ---------------------------------------------------------------------
  // Loading a task into the form

  /** `dueDate ? dueDate.split("T")[0] : ""`. */
  function DueDateField(d: Option<string>): (r: string)
    ensures !Truthy(d) ==> r == ""
    ensures Truthy(d) ==> |r| <= |d.value| && r == d.value[..|r|] && 'T' !in r
    ensures Truthy(d) && |r| < |d.value| ==> d.value[|r|] == 'T'
    ensures Truthy(d) && 'T' !in d.value ==> r == d.value
  {
    if Truthy(d) then Js.BeforeFirst(d.value, 'T') else ""
  }

  /** An ISO timestamp is cut to its calendar date. */
  lemma DueDateOfTimestamp(date: string, time: string)
    requires 'T' !in date
    ensures DueDateField(Some(date + "T" + time)) == date
  {
    Js.BeforeFirstSplit(date, 'T', time);
  }

  lemma DueDateExample()
    ensures DueDateField(Some("2024-03-15T00:00:00.000Z")) == "2024-03-15"
    ensures DueDateField(Some("2024-03-15")) == "2024-03-15"
    ensures DueDateField(Some("")) == "" && DueDateField(None) == ""
  {
    DueDateOfTimestamp("2024-03-15", "00:00:00.000Z");
    assert "2024-03-15" + "T" + "00:00:00.000Z" == "2024-03-15T00:00:00.000Z";
  }

  /** Converting an already converted date changes nothing: a date in the
      form's format loads back as it was when the backend returns the text
      it was given (or that text followed by "T" and a time). */
  lemma DueDateFieldIdempotent(d: Option<string>)
    ensures DueDateField(Some(DueDateField(d))) == DueDateField(d)
  {
  }

  /** The form filled from a loaded task. */
  function FormOf(t: Task): (r: Form)
    ensures r.title == t.title && r.description == t.description
    ensures r.priority == t.priority && r.status == t.status
    ensures r.dueDate == DueDateField(t.dueDate)
  {
    Form(t.title, t.description, t.priority, t.status, DueDateField(t.dueDate))
  }

  /** The load effect: in update mode, one GET of the task whose result
      fills the form; in add mode nothing is issued. */
  function LoadEffect(taskId: Option<string>, token: string): (e: Effect)
    ensures e.Idle? <==> ModeOf(taskId) == Add
    ensures ModeOf(taskId) == Update ==>
      e == Send(Request("/tasks/" + taskId.value, Get, None, token), FillForm)
  {
    if ModeOf(taskId) == Update then Send(Request(TaskUrl(taskId.value), Get, None, token), FillForm) else Idle
  }

  // ---------------------------------------------------------------------
  // Submitting

  /** The first failing rule: title before description. */
  function Validate(form: Form): (r: Option<Field>)
    ensures r == Some(Title) <==> Js.IsBlank(form.title)
    ensures r == Some(Description) <==> !Js.IsBlank(form.title) && Js.IsBlank(form.description)
    ensures r == None <==> !Js.IsBlank(form.title) && !Js.IsBlank(form.description)
  {
    if Js.IsBlank(form.title) then Some(Title)
    else if Js.IsBlank(form.description) then Some(Description)
    else None
  }

  /** The error map after a submit: it is cleared first, then holds at most
      the one message of the first failing rule. */
  function SubmitErrors(form: Form): (errs: map<Field, string>)
    ensures |errs| <= 1
    ensures errs == map[] <==> Validate(form).None?
    ensures Validate(form).Some? ==> errs.Keys == {Validate(form).value}
  {
    match Validate(form)
    case None => map[]
    case Some(Title) => map[Title := TitleRequired]
    case Some(f) => map[f := DescriptionRequired]
  }

  /** The create or update request for a form that passed validation. */
  function SubmitRequest(taskId: Option<string>, token: string, form: Form): (r: Request)
    ensures r.verb == Post <==> ModeOf(taskId) == Add
    ensures r.verb == Put <==> ModeOf(taskId) == Update
    ensures ModeOf(taskId) == Add ==> r.url == "/tasks"
    ensures ModeOf(taskId) == Update ==> r.url == TaskUrl(taskId.value)
    ensures r.body == Some(form) && r.token == token
  {
    Request(
      if ModeOf(taskId) == Add then "/tasks" else TaskUrl(taskId.value),
      if ModeOf(taskId) == Add then Post else Put,
      Some(form),
      token)
  }

  /** What a submit emits: nothing when validation fails, otherwise exactly
      one request, after whose resolution the page goes to "/". */
  function SubmitEffect(taskId: Option<string>, token: string, form: Form): (e: Effect)
    ensures !e.Go?
    ensures e.Idle? <==> Validate(form).Some?
    ensures e.Send? ==> e.request == SubmitRequest(taskId, token, form) && e.next == Navigate("/")
  {
    if Validate(form).None? then Send(SubmitRequest(taskId, token, form), Navigate("/")) else Idle
  }

  /** A blank title: the only error is on the title, and nothing is sent. */
  lemma SubmitBlankTitle(taskId: Option<string>, token: string, form: Form)
    requires Js.AllWhitespace(form.title)
    ensures SubmitErrors(form) == map[Title := TitleRequired]
    ensures SubmitEffect(taskId, token, form) == Idle
  {
  }

  /** A non-blank title with a blank description: the only error is on the
      description, and nothing is sent. */
  lemma SubmitBlankDescription(taskId: Option<string>, token: string, form: Form)
    requires !Js.AllWhitespace(form.title) && Js.AllWhitespace(form.description)
    ensures SubmitErrors(form) == map[Description := DescriptionRequired]
    ensures SubmitEffect(taskId, token, form) == Idle
  {
  }

  /** Both fields non-blank: no error, and exactly one request carrying the
      whole form and the token, a POST to /tasks in add mode and a PUT to
      /tasks/{id} in update mode. */
  lemma SubmitValid(taskId: Option<string>, token: string, form: Form)
    requires !Js.AllWhitespace(form.title) && !Js.AllWhitespace(form.description)
    ensures SubmitErrors(form) == map[]
    ensures var e := SubmitEffect(taskId, token, form);
      && e.Send? && e.request.body == Some(form) && e.request.token == token
      && e.next == Navigate("/")
      && (taskId.None? ==> e.request.verb == Post && e.request.url == "/tasks")
      && (taskId.Some? ==> e.request.verb == Put && e.request.url == "/tasks/" + taskId.value)
  {
  }

  /** The untouched initial form never validates: submitting it is always
      the title error. */
  lemma SubmitInitialForm(taskId: Option<string>, token: string)
    ensures SubmitErrors(InitialForm) == map[Title := TitleRequired]
    ensures SubmitEffect(taskId, token, InitialForm) == Idle
  {
    SubmitBlankTitle(taskId, token, InitialForm);
  }

  // ---------------------------------------------------------------------
  // Rendering rules

  /** `fieldError(field)`: the message is shown when `formErrors[field]` is
      truthy; a field without a recorded error never shows one. */
  predicate ErrorShown(errors: map<Field, string>, f: Field): (b: bool)
    ensures b ==> f in errors
  {
    f in errors && errors[f] != ""
  }

  /** After a submit a field's error is shown exactly when that field has a
      recorded error, and that field is the first failing one. */
  lemma ErrorShownAfterSubmit(form: Form, f: Field)
    ensures ErrorShown(SubmitErrors(form), f) <==> f in SubmitErrors(form)
    ensures ErrorShown(SubmitErrors(form), f) <==> Validate(form) == Some(f)
  {
  }

  /** The Reset button is rendered only in update mode, that is, exactly
      when the route carries a task id. */
  predicate ResetOffered(taskId: Option<string>): (b: bool)
    ensures b <==> taskId.Some?
  {
    ModeOf(taskId) == Update
  }

  // ---------------------------------------------------------------------
  // The page's state

  /** The component state: the form, the per-field errors and the task last
      loaded. The route's task id and the session token are inputs. */
  class Editor {
    const taskId: Option<string>
    var form: Form
    var errors: map<Field, string>
    var snapshot: Option<Task>

    /** A task is loaded only in update mode, and every recorded error
        carries a non-empty message. */
    ghost predicate Valid()
      reads this
    {
      && (snapshot.Some? ==> ModeOf(taskId) == Update)
      && (forall g :: g in errors ==> errors[g] != "")
    }

    constructor (taskId: Option<string>)
      ensures this.taskId == taskId && Valid()
      ensures form == InitialForm && errors == map[] && snapshot == None
    {
      this.taskId := taskId;
      form := InitialForm;
      errors := map[];
      snapshot := None;
    }

    /** The request of the load effect resolved with task `t`. */
    method Loaded(t: Task)
      requires Valid() && ModeOf(taskId) == Update
      modifies this
      ensures Valid()
      ensures snapshot == Some(t) && form == FormOf(t) && errors == old(errors)
    {
      snapshot := Some(t);
      form := FormOf(t);
    }

    /** `handleChange`: one field takes the new value. */
    method Change(f: Field, v: string)
      requires Valid()
      modifies this
      ensures Valid()
      ensures form == With(old(form), f, v)
      ensures errors == old(errors) && snapshot == old(snapshot)
    {
      form := With(form, f, v);
    }

    /** `handleReset`: the form is refilled from the loaded task; this is
        offered only in update mode and issues no request. */
    method Reset()
      requires Valid() && snapshot.Some?
      modifies this
      ensures Valid() && ResetOffered(taskId)
      ensures errors == old(errors) && snapshot == old(snapshot)
      ensures form == FormOf(old(snapshot).value)
    {
      form := FormOf(snapshot.value);
    }

    /** `handleSubmit`: replace the errors by those of the first failing
        rule, and emit the request when there is none. */
    method Submit(token: string) returns (e: Effect)
      requires Valid()
      modifies this
      ensures Valid()
      ensures errors == SubmitErrors(form)
      ensures e == SubmitEffect(taskId, token, form)
      ensures form == old(form) && snapshot == old(snapshot)
    {
      errors := map[];
      match Validate(form)
      case Some(Title) =>
        errors := errors[Title := TitleRequired];
        e := Idle;
      case Some(f) =>
        errors := errors[f := DescriptionRequired];
        e := Idle;
      case None =>
        e := Send(SubmitRequest(taskId, token, form), Navigate("/"));
    }

    /** The Cancel button: straight to "/", no request, no state change. */
    method Cancel() returns (e: Effect)
      ensures e == Go("/")
    {
      e := Go("/");
    }
  }

  /** In any editor state a field's error text is shown exactly when that
      field has a recorded error. */
  lemma ErrorShownIffRecorded(ed: Editor, f: Field)
    requires ed.Valid()
    ensures ErrorShown(ed.errors, f) <==> f in ed.errors
  {
  }

  /** An editor holding a loaded task always offers Reset. */
  lemma ResetOfferedWhenLoaded(ed: Editor)
    requires ed.Valid() && ed.snapshot.Some?
    ensures ResetOffered(ed.taskId)
  {
  }

  /** Load a task, edit any field, reset: the form is exactly what the load
      produced. */
  method EditThenReset(id: string, t: Task, f: Field, v: string) returns (ed: Editor)
    ensures ed.snapshot == Some(t) && ed.form == FormOf(t)
  {
    ed := new Editor(Some(id));
    ed.Loaded(t);
    ed.Change(f, v);
    ed.Reset();
  }
}
