/**
 * The step form of the editor (src/components/EditorPanel.jsx): three text
 * fields and the step being edited, if any. Submitting dispatches to the
 * shell's add or update callback; the list's buttons dispatch a delete or
 * forward a new order.
 */
module StepForm {
  import opened Options
  import opened StepCollection

  /** The callback a handler invokes, with its argument. */
  datatype Dispatch =
    | NoCall
    | AddCall(draft: Draft)
    | UpdateCall(id: int, patch: Patch)
    | ReorderCall(order: seq<Step>)
    | DeleteCall(id: int)

  /** The guard of handleSubmit and of the submit button: all three fields non-empty. */
  predicate Complete(title: string, description: string, image: string) {
    title != "" && description != "" && image != ""
  }

  /** What a submit dispatches, from the fields and the edit mode. */
  function SubmitDispatch(title: string, description: string, image: string, editing: Option<Step>): (d: Dispatch)
    ensures d.NoCall? <==> !Complete(title, description, image)
    ensures Complete(title, description, image) && editing.Some? ==>
              d == UpdateCall(editing.value.id, Patch(None, Some(title), Some(description), Some(image), None))
    ensures Complete(title, description, image) && editing.None? ==>
              d == AddCall(Draft(title, description, Some(image), None, None))
  {
    if title == "" || description == "" || image == "" then NoCall
    else
      var img := if image != "" then Some(image) else None;
      if editing.Some? then UpdateCall(editing.value.id, Patch(None, Some(title), Some(description), img, None))
      else AddCall(Draft(title, description, img, None, None))
  }

  /** handleReorder: the new order is handed on as it came. */
  function ReorderDispatch(newSteps: seq<Step>): (d: Dispatch)
    ensures d.ReorderCall? && d.order == newSteps
  {
    ReorderCall(newSteps)
  }

  /** The delete button of a listed step. */
  function DeleteDispatch(step: Step): (d: Dispatch)
    ensures d.DeleteCall? && d.id == step.id
  {
    DeleteCall(step.id)
  }

  /** Clicking delete on the k-th listed step removes exactly that step from the collection. */
  lemma DeleteClickRemovesThatStep(steps: seq<Step>, k: nat)
    requires DistinctIds(steps) && k < |steps|
    ensures Delete(steps, DeleteDispatch(steps[k]).id) == steps[..k] + steps[k + 1..]
  {
    DeleteAtPosition(steps, k);
  }

  /** An add submit appends a step holding the three fields, with an image and the default highlight. */
  lemma SubmitAddAppends(steps: seq<Step>, title: string, description: string, image: string, freshId: int)
    requires Complete(title, description, image)
    ensures var d := SubmitDispatch(title, description, image, None);
            d.AddCall? &&
            Add(steps, d.draft, freshId)[|steps|] == Step(freshId, title, description, Some(image), Some(DefaultHighlight))
  {
  }

  /** An edit submit keeps ids distinct, and is a no-op once the edited step has been deleted. */
  lemma SubmitUpdateSafe(steps: seq<Step>, title: string, description: string, image: string, edited: Step)
    requires Complete(title, description, image)
    ensures var d := SubmitDispatch(title, description, image, Some(edited));
            d.UpdateCall? && d.id == edited.id &&
            (DistinctIds(steps) ==> DistinctIds(Update(steps, d.id, d.patch))) &&
            (edited.id !in Ids(steps) ==> Update(steps, d.id, d.patch) == steps)
  {
    var d := SubmitDispatch(title, description, image, Some(edited));
    UpdateKeepsIds(steps, d.id, d.patch);
    if edited.id !in Ids(steps) {
      UpdateAbsent(steps, d.id, d.patch);
    }
  }

  /** Editing a step and submitting it unchanged either leaves it as it was, or is rejected when it has no image. */
  lemma EditRoundTrip(s: Step)
    ensures var d := SubmitDispatch(s.title, s.description, s.image.GetOr(""), Some(s));
            (d.NoCall? <==> s.title == "" || s.description == "" || s.image.GetOr("") == "") &&
            (d.UpdateCall? ==> d.id == s.id && Merge(s, d.patch) == s)
  {
  }

  /** The form's fields and edit mode. */
  class Form {
    var title: string
    var image: string
    var description: string
    /** The step being edited (a snapshot of it), or None in add mode. */
    var editing: Option<Step>

    constructor()
      ensures title == "" && image == "" && description == "" && editing == None
    {
      title, image, description, editing := "", "", "", None;
    }

    /** handleSubmit: rejected unless all fields are filled; otherwise dispatch, leave edit mode, clear. */
    method Submit() returns (d: Dispatch)
      modifies this
      ensures d == SubmitDispatch(old(title), old(description), old(image), old(editing))
      ensures d.NoCall? ==>
                title == old(title) && image == old(image) && description == old(description) && editing == old(editing)
      ensures !d.NoCall? ==> title == "" && image == "" && description == "" && editing == None
    {
      if title == "" || description == "" || image == "" {
        return NoCall;
      }
      var img := if image != "" then Some(image) else None;
      if editing.Some? {
        d := UpdateCall(editing.value.id, Patch(None, Some(title), Some(description), img, None));
        editing := None;
      } else {
        d := AddCall(Draft(title, description, img, None, None));
      }
      title := "";
      image := "";
      description := "";
    }

    /** startEditing: enter edit mode with the step's fields; a missing image becomes "". */
    method StartEditing(s: Step)
      modifies this
      ensures editing == Some(s) && title == s.title && description == s.description
      ensures image == s.image.GetOr("")
    {
      editing := Some(s);
      title := s.title;
      image := s.image.GetOr("");
      description := s.description;
    }

    /** cancelEditing: leave edit mode and clear the fields; nothing is dispatched. */
    method CancelEditing()
      modifies this
      ensures editing == None && title == "" && image == "" && description == ""
    {
      editing := None;
      title := "";
      image := "";
      description := "";
    }
  }
}
