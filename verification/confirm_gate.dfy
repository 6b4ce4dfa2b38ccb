/**
 * The confirm gate in front of a destructive or irreversible action: the selected record id and
 * the dialog-open flag, two separate state fields (`selectedTrainingId` and
 * `showDeleteConfirmation`, and the like). The id is stored on request and survives a cancel.
 */
module ConfirmGate {
  import opened Wrappers

  datatype Gate = Gate(selected: Option<nat>, open: bool)
  {
    /** An open dialog always has a record to act on. */
    predicate Valid()
    {
      open ==> selected.Some?
    }

    /** The row's action button: store `id` and open the dialog. */
    function Request(id: nat): (g: Gate)
      ensures g.Valid() && g.open && g.selected == Some(id)
    {
      Gate(Some(id), true)
    }

    /** Cancel, or the dialog's close: the dialog closes and the stored id stays. */
    function Close(): (g: Gate)
      ensures g.Valid() && !g.open && g.selected == selected
    {
      Gate(selected, false)
    }
  }

  /** Before any request: `useState(null)` and `useState(false)`. */
  const Idle := Gate(None, false)

  /** A second request before confirm or cancel replaces the stored id: the last one wins. */
  lemma LaterRequestWins(g: Gate, first: nat, second: nat)
    ensures g.Request(first).Request(second) == g.Request(second)
  {
  }

  /** Cancelling keeps the stored id; only a new request changes it. */
  lemma CancelKeepsTarget(g: Gate, id: nat)
    ensures g.Request(id).Close() == Gate(Some(id), false)
  {
  }
}
