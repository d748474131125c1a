/** The add/edit task form (`TaskFormModal`): its controlled fields, the
    partial initial data merged over the defaults, per-field edits, and a
    submit that refuses a blank title and otherwise clears the form. */
module TaskForm {
  import opened Wrappers
  import opened Tasks
  import Text
  import opened RemoteTasks

  /** `Partial<TaskFormData>`: `None` is a key that is absent. */
  datatype FormPatch = FormPatch(
    title: Option<string>,
    description: Option<string>,
    priority: Option<string>,
    status: Option<string>,
    due: Option<Option<Day>>)

  /** The empty form: blank title and description, medium priority, pending,
      no due date. */
  const Defaults: FormData := FormData("", "", Medium, Pending, None)

  /** `{ ...form, ...patch }`: every key the patch has replaces the form's. */
  function Merge(form: FormData, patch: Option<FormPatch>): (r: FormData)
    ensures patch.None? ==> r == form
    ensures patch.Some? ==>
      r.title == patch.value.title.GetOr(form.title)
      && r.description == patch.value.description.GetOr(form.description)
      && r.priority == patch.value.priority.GetOr(form.priority)
      && r.status == patch.value.status.GetOr(form.status)
      && r.due == patch.value.due.GetOr(form.due)
  {
    match patch
    case None => form
    case Some(p) =>
      FormData(p.title.GetOr(form.title), p.description.GetOr(form.description),
               p.priority.GetOr(form.priority), p.status.GetOr(form.status), p.due.GetOr(form.due))
  }

  /** Merging the same initial data twice is merging it once, so the effect
      that re-applies `initialData` after mounting changes nothing more. */
  lemma MergeIdempotent(form: FormData, patch: Option<FormPatch>)
    ensures Merge(Merge(form, patch), patch) == Merge(form, patch)
  {
  }

  /** A patch naming every field determines the form whatever it was. */
  lemma FullPatchOverrides(a: FormData, b: FormData, p: FormPatch)
    requires p.title.Some? && p.description.Some? && p.priority.Some? && p.status.Some? && p.due.Some?
    ensures Merge(a, Some(p)) == Merge(b, Some(p))
  {
  }

  /** One `handleChange(field)` event with the input's new value. */
  datatype Edit =
    | SetTitle(title: string)
    | SetDescription(description: string)
    | SetPriority(priority: string)
    | SetStatus(status: string)
    | SetDueDate(due: Option<Day>)

  /** `{ ...prev, [field]: value }`. */
  function Apply(form: FormData, e: Edit): (r: FormData)
    ensures e.SetTitle? ==> r == form.(title := e.title)
    ensures e.SetDescription? ==> r == form.(description := e.description)
    ensures e.SetPriority? ==> r == form.(priority := e.priority)
    ensures e.SetStatus? ==> r == form.(status := e.status)
    ensures e.SetDueDate? ==> r == form.(due := e.due)
  {
    match e
    case SetTitle(v) => form.(title := v)
    case SetDescription(v) => form.(description := v)
    case SetPriority(v) => form.(priority := v)
    case SetStatus(v) => form.(status := v)
    case SetDueDate(v) => form.(due := v)
  }

  /** The field an edit writes and the patch that writes the same value. */
  function AsPatch(e: Edit): FormPatch {
    match e
    case SetTitle(v) => FormPatch(Some(v), None, None, None, None)
    case SetDescription(v) => FormPatch(None, Some(v), None, None, None)
    case SetPriority(v) => FormPatch(None, None, Some(v), None, None)
    case SetStatus(v) => FormPatch(None, None, None, Some(v), None)
    case SetDueDate(v) => FormPatch(None, None, None, None, Some(v))
  }

  /** An edit is the one-key partial merge of its field, and a second edit of
      the same field overwrites the first. */
  lemma EditIsPatch(form: FormData, e: Edit, e2: Edit)
    ensures Apply(form, e) == Merge(form, Some(AsPatch(e)))
    ensures (e.SetTitle? && e2.SetTitle?) || (e.SetDescription? && e2.SetDescription?)
            || (e.SetPriority? && e2.SetPriority?) || (e.SetStatus? && e2.SetStatus?)
            || (e.SetDueDate? && e2.SetDueDate?)
            ==> Apply(Apply(form, e), e2) == Apply(form, e2)
  {
  }

  /** The form's state. */
  class TaskFormModal {
    var form: FormData

    /** The initial state: the defaults overlaid with `initialData`. */
    constructor (initialData: Option<FormPatch>)
      ensures form == Merge(Defaults, initialData)
    {
      form := Merge(Defaults, initialData);
    }

    /** The effect on `[initialData]`: merge the (new) initial data over the
        current fields; without initial data nothing happens. */
    method ApplyInitialData(initialData: Option<FormPatch>)
      modifies this
      ensures form == Merge(old(form), initialData)
    {
      if initialData.Some? {
        form := Merge(form, initialData);
      }
    }

    method HandleChange(e: Edit)
      modifies this
      ensures form == Apply(old(form), e)
    {
      form := Apply(form, e);
    }

    /** `handleSubmit`: a title that trims to nothing submits nothing and
        keeps the form; otherwise the current fields go to `onSubmit`, as
        they are (untrimmed), and the form is reset to the defaults. */
    method HandleSubmit() returns (submitted: Option<FormData>)
      modifies this
      ensures submitted.None? <==> Text.IsBlank(old(form).title)
      ensures submitted.None? ==> form == old(form)
      ensures submitted.Some? ==> submitted.value == old(form) && form == Defaults
    {
      Text.TrimEmptyIffBlank(form.title);
      if Text.Trim(form.title) == [] {
        return None;
      }
      submitted := Some(form);
      form := Defaults;
    }
  }

  /** Submitting the form into the board: the record created carries the
      fields as the form held them. */
  method SubmitToBoard(modal: TaskFormModal, service: TaskService, id: int, today: Day)
    returns (created: bool)
    modifies modal, service`tasks, service`apiStatus
    ensures created <==> !Text.IsBlank(old(modal.form).title)
    ensures !created ==> (modal.form == old(modal.form)
      && service.tasks == old(service.tasks) && service.apiStatus == old(service.apiStatus))
    ensures created ==> modal.form == Defaults && service.apiStatus == CreatedMessage
    ensures created ==> var f := old(modal.form);
      service.tasks == old(service.tasks)
        + [Task(id, f.title, Some(f.description), f.status, f.priority, f.due, today, None, None, None)]
  {
    var submitted := modal.HandleSubmit();
    created := submitted.Some?;
    if created {
      var _ := service.CreateTask(submitted.value, id, today);
    }
  }
}
