// useConfirmDialog: a pending id set by requestConfirm, handed to the
// callback by confirm when it is a non-empty string, and cleared by both
// confirm and cancel.

module ConfirmDialog {
  import opened Common

  /** The argument confirm passes to its callback: the pending id when it is
      truthy, and no call at all otherwise. */
  function CallbackArgument(pending: Option<string>): (r: Option<string>)
    ensures r.Some? <==> pending.Some? && pending.value != ""
    ensures r.Some? ==> r == pending
  {
    if pending.Some? && pending.value != "" then pending else None
  }

  class Dialog {
    var confirmId: Option<string>

    constructor ()
      ensures confirmId == None
    {
      confirmId := None;
    }

    /** requestConfirm. */
    method RequestConfirm(id: string)
      modifies this
      ensures confirmId == Some(id)
    {
      confirmId := Some(id);
    }

    /** confirm: `called` is the id the callback is invoked with, once, or
        None when it is not invoked; the pending id is always cleared. */
    method Confirm() returns (called: Option<string>)
      modifies this
      ensures called == CallbackArgument(old(confirmId))
      ensures confirmId == None
    {
      called := None;
      if confirmId.Some? && confirmId.value != "" {
        called := confirmId;
      }
      confirmId := None;
    }

    /** cancel. */
    method Cancel()
      modifies this
      ensures confirmId == None
    {
      confirmId := None;
    }
  }

  /** requestConfirm then confirm: the callback runs once with the requested
      id unless that id is empty, and the dialog ends with nothing pending. */
  method RequestThenConfirm(d: Dialog, id: string) returns (called: Option<string>)
    modifies d
    ensures called == (if id == "" then None else Some(id))
    ensures d.confirmId == None
  {
    d.RequestConfirm(id);
    called := d.Confirm();
  }

  /** requestConfirm then cancel: the callback never runs and nothing stays
      pending, so a later confirm calls nothing either. */
  method RequestThenCancel(d: Dialog, id: string) returns (called: Option<string>)
    modifies d
    ensures called == None && d.confirmId == None
  {
    d.RequestConfirm(id);
    d.Cancel();
    called := d.Confirm();
  }
}
