/**
 * The dialog state machine every management page shares: `isDialogOpen`, the edit target and
 * `formData`, plus an abstract flag recording that the page's list query was invalidated.
 * Remote create/update/delete calls are not performed here: submitting yields the `Request`
 * the page would send, and the call's outcome comes back through `SettleSave`/`SettleDelete`.
 */
module CrudPage {
  import opened Wrappers

  type Id = string

  /** The mutation a submit fires: `createMutation.mutate(payload)` or `updateMutation.mutate({id, data})`. */
  datatype Request<P> = Create(payload: P) | Update(id: Id, payload: P)

  /**
   * The placeholder row under a filtered table: none while some row is shown, otherwise
   * `noneYet` when the whole list is empty and `noMatch` when only the filters hide rows.
   */
  function EmptyRowMessage(total: nat, shown: nat, noneYet: string, noMatch: string): (msg: Option<string>)
    requires shown <= total
    requires noneYet != noMatch
    ensures msg.Some? <==> shown == 0
    ensures msg == Some(noneYet) <==> total == 0
    ensures msg == Some(noMatch) <==> shown == 0 && total > 0
  {
    if shown == 0 then Some(if total == 0 then noneYet else noMatch) else None
  }

  /** One page's dialog state, over records `R` and form contents `F`. */
  class Page<R, F> {
    var isDialogOpen: bool
    var editing: Option<R>
    var formData: F
    /** Set once a successful mutation has invalidated the page's list query. */
    var invalidated: bool
    /** The form contents `resetForm` restores. */
    const defaults: F
    /** The record's server-assigned `id`. */
    const idOf: R -> Id

    constructor (defaults: F, idOf: R -> Id)
      ensures this.defaults == defaults && this.idOf == idOf
      ensures !isDialogOpen && editing == None && formData == defaults && !invalidated
    {
      this.defaults := defaults;
      this.idOf := idOf;
      isDialogOpen := false;
      editing := None;
      formData := defaults;
      invalidated := false;
    }

    /** `resetForm`: default form contents and no edit target; the dialog flag is left alone. */
    method ResetForm()
      modifies this
      ensures formData == defaults && editing == None
      ensures isDialogOpen == old(isDialogOpen) && invalidated == old(invalidated)
    {
      formData := defaults;
      editing := None;
    }

    /** The "Add" button: `resetForm()`, then the dialog trigger opens the dialog. */
    method OpenCreate()
      modifies this
      ensures isDialogOpen && formData == defaults && editing == None
      ensures invalidated == old(invalidated)
    {
      ResetForm();
      isDialogOpen := true;
    }

    /** `handleEdit(record)`: the record becomes the edit target, its form is shown. */
    method HandleEdit(r: R, form: F)
      modifies this
      ensures editing == Some(r) && formData == form && isDialogOpen
      ensures invalidated == old(invalidated)
    {
      editing := Some(r);
      formData := form;
      isDialogOpen := true;
    }

    /** `onOpenChange`: the dialog opens or closes by itself; the form is not reset. */
    method SetDialogOpen(open: bool)
      modifies this`isDialogOpen
      ensures isDialogOpen == open
    {
      isDialogOpen := open;
    }

    /** An input's `onChange`: the whole form is replaced. */
    method SetForm(form: F)
      modifies this`formData
      ensures formData == form
    {
      formData := form;
    }

    /** The mutation `handleSubmit` fires: update of the edit target's id when there is one, create otherwise. */
    method Submit<P>(payload: P) returns (req: Request<P>)
      ensures req.payload == payload
      ensures req.Update? <==> editing.Some?
      ensures req.Update? ==> req.id == idOf(editing.value)
    {
      if editing.Some? {
        req := Update(idOf(editing.value), payload);
      } else {
        req := Create(payload);
      }
    }

    /**
     * A create or update settles. `onSuccess` invalidates the list, closes the dialog and resets
     * the form; `onError` only notifies, so the submitted values stay for correction.
     */
    method SettleSave(ok: bool)
      modifies this
      ensures ok ==> !isDialogOpen && formData == defaults && editing == None && invalidated
      ensures !ok ==> isDialogOpen == old(isDialogOpen) && formData == old(formData)
      ensures !ok ==> editing == old(editing) && invalidated == old(invalidated)
    {
      if ok {
        invalidated := true;
        isDialogOpen := false;
        ResetForm();
      }
    }

    /** `handleDelete(id)`: the delete is sent only when the confirmation was accepted. */
    method HandleDelete(id: Id, confirmed: bool) returns (req: Option<Id>)
      ensures req.Some? <==> confirmed
      ensures req.Some? ==> req.value == id
    {
      req := if confirmed then Some(id) else None;
    }

    /** A delete settles: success invalidates the list; the dialog and the form never change. */
    method SettleDelete(ok: bool)
      modifies this`invalidated
      ensures invalidated == (old(invalidated) || ok)
    {
      if ok {
        invalidated := true;
      }
    }
  }
}
