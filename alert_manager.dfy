/**
 * The shared alert state (`AlertManager`, Managers/AlertManager.swift).
 * The closures callers pass are named by a caller-chosen type `C`; the
 * closures the manager stores are described by `Stored`.
 */
module AlertManager {
  import opened Wrappers
  import opened AlertView

  /**
   * A stored action: the initial empty closure, or a caller's callback
   * followed by `isPresented = false`.
   */
  datatype Stored<C> = DoNothing | RunThenHide(callback: C)

  /** The manager's fields as a value. */
  datatype Presentation<C> = Presentation(
    isPresented: bool,
    message: string,
    layout: Layout,
    onConfirm: Stored<C>,
    onCancel: Option<Stored<C>>)

  /** The state a new manager starts in. */
  function Initial<C>(): (p: Presentation<C>)
    ensures !p.isPresented && p.layout == Informational && p.onCancel.None?
  {
    Presentation(false, "", Informational, DoNothing, None)
  }

  /**
   * `showInfoWith(_:onOK:)`: an informational alert with the message is
   * presented; confirming runs `onOK` and hides it; there is no cancel.
   */
  function ShowInfo<C>(p: Presentation<C>, message: string, onOK: C): (q: Presentation<C>)
    ensures q.isPresented && q.message == message && q.layout == Informational
    ensures q.onConfirm == RunThenHide(onOK) && q.onCancel.None?
  {
    Presentation(true, message, Informational, RunThenHide(onOK), None)
  }

  /**
   * `showConfirmWith(_:onConfirm:onCancel:)`: a confirmation with the
   * message is presented; each button runs its callback and hides it.
   */
  function ShowConfirm<C>(p: Presentation<C>, message: string, onConfirm: C, onCancel: C): (q: Presentation<C>)
    ensures q.isPresented && q.message == message && q.layout == Confirmation
    ensures q.onConfirm == RunThenHide(onConfirm) && q.onCancel == Some(RunThenHide(onCancel))
  {
    Presentation(true, message, Confirmation, RunThenHide(onConfirm), Some(RunThenHide(onCancel)))
  }

  /** `hide()`: only `isPresented` changes. */
  function Hidden<C>(p: Presentation<C>): (q: Presentation<C>)
    ensures !q.isPresented && q == p.(isPresented := false)
  {
    p.(isPresented := false)
  }

  /** Each show replaces everything the previous state held. */
  lemma ShowForgetsPrevious<C>(p: Presentation<C>, p': Presentation<C>, message: string, a: C, b: C)
    ensures ShowInfo(p, message, a) == ShowInfo(p', message, a)
    ensures ShowConfirm(p, message, a, b) == ShowConfirm(p', message, a, b)
  {
  }

  /** Showing after hiding presents the new alert. */
  lemma ShowAfterHide<C>(p: Presentation<C>, message: string, onOK: C)
    ensures ShowInfo(Hidden(p), message, onOK).isPresented
    ensures ShowInfo(Hidden(p), message, onOK).message == message
  {
  }

  /** Hiding after showing leaves nothing presented, even though the message was replaced. */
  lemma HideAfterShow<C>(p: Presentation<C>, message: string, onOK: C)
    ensures !Hidden(ShowInfo(p, message, onOK)).isPresented
    ensures Hidden(ShowInfo(p, message, onOK)).message == message
  {
  }

  class AlertManager<C> {
    var isPresented: bool
    var message: string
    var layout: Layout
    var onConfirm: Stored<C>
    var onCancel: Option<Stored<C>>

    function State(): Presentation<C>
      reads this
    {
      Presentation(isPresented, message, layout, onConfirm, onCancel)
    }

    constructor()
      ensures State() == Initial()
    {
      isPresented := false;
      message := "";
      layout := Informational;
      onConfirm := DoNothing;
      onCancel := None;
    }

    method ShowInfoWith(message: string, onOK: C)
      modifies this
      ensures State() == ShowInfo(old(State()), message, onOK)
    {
      this.message := message;
      this.layout := Informational;
      this.onConfirm := RunThenHide(onOK);
      this.onCancel := None;
      this.isPresented := true;
    }

    /** `showError(_:onOK:)` has the same effect as `showInfoWith`. */
    method ShowError(message: string, onOK: C)
      modifies this
      ensures State() == ShowInfo(old(State()), message, onOK)
    {
      this.message := message;
      this.layout := Informational;
      this.onConfirm := RunThenHide(onOK);
      this.onCancel := None;
      this.isPresented := true;
    }

    method ShowConfirmWith(message: string, onConfirm: C, onCancel: C)
      modifies this
      ensures State() == ShowConfirm(old(State()), message, onConfirm, onCancel)
    {
      this.message := message;
      this.layout := Confirmation;
      this.onConfirm := RunThenHide(onConfirm);
      this.onCancel := Some(RunThenHide(onCancel));
      this.isPresented := true;
    }

    method Hide()
      modifies this
      ensures State() == Hidden(old(State()))
    {
      isPresented := false;
    }
  }
}
