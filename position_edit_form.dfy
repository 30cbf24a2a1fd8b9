/**
 * The drawer form that shows one position, lets the user switch it to editing, submit
 * the edit, or confirm and run its deletion. Its state is the two flags `isEditable` and
 * `isModalOpen`, the form's values, and the trace of callbacks it has made to its parent.
 */
module PositionForm {

  import opened Wrappers
  import opened Mutation

  /** A position as the server returns it. */
  datatype Position = Position(id: int, name: string, level: int)

  /** The form's values: every field of a position except its `id`. */
  datatype PositionFields = PositionFields(name: string, level: int)

  /** `defaultValues`: an empty name and level 0. */
  const DefaultFields: PositionFields := PositionFields("", 0)

  /** The writes this form hands to the data layer. */
  datatype Request = EditPosition(id: int, data: PositionFields) | RemovePosition(id: int)

  const EditLoadingTitle: string := "Loading mengubah jabatan"
  const EditErrorTitle: string := "Error mengubah jabatan"
  const DeleteLoadingTitle: string := "Loading menghapus jabatan"
  const DeleteErrorTitle: string := "Error menghapus jabatan"

  /** `onReset`: the form is reset to its defaults, then `onEdited` is called. */
  const ResetSteps: seq<Event<Request>> := [FormReset, Edited]

  /** The form's values once a position is loaded into it. */
  function FieldsOf(p: Position): PositionFields
  {
    PositionFields(p.name, p.level)
  }

  /**
   * The callbacks of one submit of the edit: nothing at all when validation fails,
   * otherwise `onLoading("edit")`, the edit of `id` with `data`, and then either a reset
   * and one `onEdited`, or one `onError("edit", ...)` with the error's message.
   */
  function EditTrace(id: int, data: PositionFields, valid: bool, outcome: Outcome): (t: seq<Event<Request>>)
    ensures !valid ==> t == []
    ensures valid ==> |t| >= 3 && t[0] == Loading(Edit, EditLoadingTitle) && t[1] == Write(EditPosition(id, data))
    ensures valid ==> SettleCount(t) == 1
    ensures (Edited in t) == (FormReset in t) == (valid && outcome.Succeeded?)
    ensures HasError(t) <==> valid && outcome.Failed?
    ensures valid && outcome.Failed? ==> t[|t| - 1] == Error(Edit, EditErrorTitle, outcome.message)
  {
    if valid then
      LifecycleOrder(Edit, EditLoadingTitle, EditPosition(id, data), ResetSteps, EditErrorTitle, outcome);
      Lifecycle(Edit, EditLoadingTitle, EditPosition(id, data), ResetSteps, EditErrorTitle, outcome)
    else
      []
  }

  /**
   * The callbacks of one deletion of `id`: `onLoading("delete")` before the removal,
   * then `onReset` (reset and `onEdited`) on success or `onError("delete", ...)` on failure.
   */
  function DeleteTrace(id: int, outcome: Outcome): (t: seq<Event<Request>>)
    ensures |t| >= 3 && t[0] == Loading(Delete, DeleteLoadingTitle) && t[1] == Write(RemovePosition(id))
    ensures SettleCount(t) == 1
    ensures (Edited in t) == (FormReset in t) == outcome.Succeeded?
    ensures HasError(t) <==> outcome.Failed?
    ensures outcome.Failed? ==> t[|t| - 1] == Error(Delete, DeleteErrorTitle, outcome.message)
  {
    LifecycleOrder(Delete, DeleteLoadingTitle, RemovePosition(id), ResetSteps, DeleteErrorTitle, outcome);
    Lifecycle(Delete, DeleteLoadingTitle, RemovePosition(id), ResetSteps, DeleteErrorTitle, outcome)
  }

  class PositionEditForm {
    var prevData: Position
    var form: PositionFields
    var isEditable: bool
    var isModalOpen: bool
    /** The calls made to the parent and the writes issued, oldest first. */
    var trace: seq<Event<Request>>

    /** Mounting with `prevData`: both flags start false and the effect loads the position. */
    constructor (prevData: Position)
      ensures this.prevData == prevData && form == FieldsOf(prevData)
      ensures !isEditable && !isModalOpen && trace == []
    {
      this.prevData := prevData;
      form := FieldsOf(prevData);
      isEditable, isModalOpen := false, false;
      trace := [];
    }

    /** The effect on a new `prevData`: a present position is loaded, `null` changes nothing. */
    method OnPrevDataChange(p: Option<Position>)
      modifies this`prevData, this`form
      ensures p.Some? ==> prevData == p.value && form == FieldsOf(p.value)
      ensures p.None? ==> prevData == old(prevData) && form == old(form)
    {
      if p.Some? {
        prevData := p.value;
        form := FieldsOf(p.value);
      }
    }

    /** Typing into the name field: read-only until the form is editable. */
    method OnNameInput(name: string)
      modifies this`form
      ensures form == if isEditable then old(form).(name := name) else old(form)
    {
      if isEditable {
        form := form.(name := name);
      }
    }

    /** Choosing a level: the select is disabled until the form is editable. */
    method OnLevelInput(level: int)
      modifies this`form
      ensures form == if isEditable then old(form).(level := level) else old(form)
    {
      if isEditable {
        form := form.(level := level);
      }
    }

    /** Submitting the form, whose validation result is `valid`; the edit settles with `outcome`. */
    method OnSubmit(valid: bool, outcome: Outcome)
      modifies this`form, this`trace
      ensures trace == old(trace) + EditTrace(prevData.id, old(form), valid, outcome)
      ensures form == if valid && outcome.Succeeded? then DefaultFields else old(form)
    {
      if valid {
        var data := form;
        trace := trace + [Loading(Edit, EditLoadingTitle), Write(EditPosition(prevData.id, data))];
        if outcome.Succeeded? {
          form := DefaultFields;
          trace := trace + [FormReset, Edited];
        } else {
          trace := trace + [Error(Edit, EditErrorTitle, outcome.message)];
        }
      }
    }

    /** Deleting `id`; the removal settles with `outcome`. The modal flag is left as it is. */
    method OnDelete(id: int, outcome: Outcome)
      modifies this`form, this`trace
      ensures trace == old(trace) + DeleteTrace(id, outcome)
      ensures form == if outcome.Succeeded? then DefaultFields else old(form)
    {
      trace := trace + [Loading(Delete, DeleteLoadingTitle), Write(RemovePosition(id))];
      if outcome.Succeeded? {
        form := DefaultFields;
        trace := trace + [FormReset, Edited];
      } else {
        trace := trace + [Error(Delete, DeleteErrorTitle, outcome.message)];
      }
    }

    /** The warning modal's confirm button: deletes the position being shown. */
    method OnModalConfirm(outcome: Outcome)
      modifies this`form, this`trace
      ensures trace == old(trace) + DeleteTrace(prevData.id, outcome)
      ensures form == if outcome.Succeeded? then DefaultFields else old(form)
    {
      OnDelete(prevData.id, outcome);
    }

    method OnSetEditable()
      modifies this`isEditable
      ensures isEditable
    {
      isEditable := true;
    }

    method OnConfirmDelete()
      modifies this`isModalOpen
      ensures isModalOpen
    {
      isModalOpen := true;
    }

    method OnCancelDelete()
      modifies this`isModalOpen
      ensures !isModalOpen
    {
      isModalOpen := false;
    }

    /** The cancel button: reset the form, then `onCancel`; never `onEdited`. */
    method OnClose()
      modifies this`form, this`trace
      ensures form == DefaultFields
      ensures trace == old(trace) + [FormReset, Cancelled]
    {
      form := DefaultFields;
      trace := trace + [FormReset, Cancelled];
    }
  }

  /**
   * A value typed after switching to editing is what the edit request carries; typed
   * while the form is read-only, it is ignored and the loaded value is sent.
   */
  method EditedNameReachesRequest(p: Position, name: string, editable: bool, outcome: Outcome)
    returns (sent: Event<Request>)
    ensures sent == Write(EditPosition(p.id, PositionFields(if editable then name else p.name, p.level)))
  {
    var f := new PositionEditForm(p);
    if editable {
      f.OnSetEditable();
    }
    f.OnNameInput(name);
    f.OnSubmit(true, outcome);
    sent := f.trace[1];
  }
}
