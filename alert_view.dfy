/** The alert card (`AlertView`, MVVM/Views/Components/AlertView.swift). */
module AlertView {
  import opened Wrappers

  datatype Layout = Informational | Confirmation

  /** What `init` stores: the message, the layout, the button titles and the actions. */
  datatype AlertView<A> = AlertView(
    message: string,
    layout: Layout,
    confirmTitle: string,
    cancelTitle: Option<string>,
    onConfirm: A,
    onCancel: Option<A>)

  /** A button as drawn: its label and the action it runs, if any. */
  datatype Button<A> = Button(title: string, action: Option<A>)

  /**
   * `init(message:layout:onConfirm:onCancel:)`: message, layout and actions
   * are kept as given; an informational alert is titled "OK" with no cancel
   * title, a confirmation "Add" and "Cancel".
   */
  function Init<A>(message: string, layout: Layout, onConfirm: A, onCancel: Option<A> := None): (v: AlertView<A>)
    ensures v.message == message && v.layout == layout
    ensures v.onConfirm == onConfirm && v.onCancel == onCancel
    ensures layout == Informational ==> v.confirmTitle == "OK" && v.cancelTitle.None?
    ensures layout == Confirmation ==> v.confirmTitle == "Add" && v.cancelTitle == Some("Cancel")
  {
    match layout
    case Informational => AlertView(message, layout, "OK", None, onConfirm, onCancel)
    case Confirmation => AlertView(message, layout, "Add", Some("Cancel"), onConfirm, onCancel)
  }

  /**
   * The buttons the body draws: one confirm button for an informational
   * alert; a cancel button, labelled "Cancel" when no title is set, then the
   * confirm button for a confirmation.
   */
  function Buttons<A>(v: AlertView<A>): seq<Button<A>>
  {
    match v.layout
    case Informational => [Button(v.confirmTitle, Some(v.onConfirm))]
    case Confirmation => [Button(v.cancelTitle.GetOr("Cancel"), v.onCancel), Button(v.confirmTitle, Some(v.onConfirm))]
  }

  /** An informational alert shows a single "OK" button running the confirm action. */
  lemma InformationalButtons<A>(message: string, onConfirm: A, onCancel: Option<A>)
    ensures Buttons(Init(message, Informational, onConfirm, onCancel)) == [Button("OK", Some(onConfirm))]
  {
  }

  /**
   * A confirmation shows "Cancel", running the cancel action when there is
   * one and nothing otherwise, then "Add", running the confirm action.
   */
  lemma ConfirmationButtons<A>(message: string, onConfirm: A, onCancel: Option<A>)
    ensures Buttons(Init(message, Confirmation, onConfirm, onCancel))
            == [Button("Cancel", onCancel), Button("Add", Some(onConfirm))]
  {
  }

  /** The cancel label falls back to "Cancel" on every view, whatever was stored. */
  lemma CancelLabelFallback<A>(v: AlertView<A>)
    requires v.layout == Confirmation
    ensures Buttons(v)[0].title == (if v.cancelTitle.Some? then v.cancelTitle.value else "Cancel")
    ensures v.cancelTitle.None? ==> Buttons(v)[0].title == "Cancel"
  {
  }

  /** Every alert's last button is its confirm button. */
  lemma ConfirmIsLast<A>(v: AlertView<A>)
    ensures var b := Buttons(v); |b| > 0 && b[|b| - 1] == Button(v.confirmTitle, Some(v.onConfirm))
  {
  }
}
