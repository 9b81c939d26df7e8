/**
 * The three event mutations (create, update, delete). Create and update read
 * the primary calendar and then insert or update the event; delete removes it.
 * Their only logic of their own is how a failure is reported.
 */
module Mutations {
  import opened Wrappers
  import opened Errors

  /** The three event mutations, each with its own fallback text. */
  datatype Mutation = Create | Update | Delete

  /** The text reported when a mutation throws something that is not an `Error`. */
  function MutationFallback(op: Mutation): string {
    match op
    case Create => "Failed to create calendar event"
    case Update => "Failed to update calendar event"
    case Delete => "Failed to delete calendar event"
  }

  /** The message a mutation reports: the error's own message, else the operation's fallback. */
  function MutationErrorMessage(op: Mutation, e: Thrown): string {
    match e
    case ErrorObject(m) => m
    case NonError => MutationFallback(op)
  }

  const DeleteAcknowledgement := "Event deleted successfully"

  /**
   * One mutation procedure: the provider's reply on success, otherwise the
   * error's own message or the operation's fallback.
   */
  function RunMutation<T>(op: Mutation, outcome: Result<T, Thrown>): (r: Result<T, string>)
    ensures r.Success? <==> outcome.Success?
    ensures r.Success? ==> r.value == outcome.value
    ensures outcome.Failure? && outcome.error.ErrorObject? ==> r == Failure(outcome.error.message)
    ensures outcome.Failure? && outcome.error.NonError? ==> r == Failure(MutationFallback(op))
  {
    match outcome
    case Success(v) => Success(v)
    case Failure(e) => Failure(MutationErrorMessage(op, e))
  }

  /** `deleteCalendarEvent`: a fixed acknowledgement once the provider deleted the event. */
  function DeleteEvent(outcome: Result<(), Thrown>): (r: Result<string, string>)
    ensures outcome.Success? ==> r == Success(DeleteAcknowledgement)
    ensures outcome.Failure? && outcome.error.ErrorObject? ==> r == Failure(outcome.error.message)
    ensures outcome.Failure? && outcome.error.NonError? ==>
      r == Failure("Failed to delete calendar event")
  {
    match RunMutation(Delete, outcome)
    case Success(_) => Success(DeleteAcknowledgement)
    case Failure(m) => Failure(m)
  }

  // ---------------------------------------------------------------------------
  // Properties of the mutations' error reporting
  // ---------------------------------------------------------------------------

  /** The fallback text of each mutation. */
  lemma FallbackTexts()
    ensures RunMutation<()>(Create, Failure(NonError)) == Failure("Failed to create calendar event")
    ensures RunMutation<()>(Update, Failure(NonError)) == Failure("Failed to update calendar event")
    ensures RunMutation<()>(Delete, Failure(NonError)) == Failure("Failed to delete calendar event")
  {
  }

  /** Unlike the sync, a mutation never relabels an `Error`: its message reaches the user as is. */
  lemma MutationsNeverRelabel(op: Mutation, m: string)
    ensures RunMutation<()>(op, Failure(ErrorObject(m))) == Failure(m)
  {
  }

  /** An `Error` with neither provider marker is reported alike by the sync and the mutations. */
  lemma UnmarkedMessagesPassThrough(m: string, op: Mutation)
    requires !IsExpiredGrant(m) && !IsMissingScope(m)
    ensures SyncErrorMessage(ErrorObject(m)) == m
    ensures MutationErrorMessage(op, ErrorObject(m)) == m
  {
  }

  /** The fallback texts tell the four procedures apart. */
  lemma FallbacksDistinct(op1: Mutation, op2: Mutation)
    ensures MutationErrorMessage(op1, NonError) == MutationErrorMessage(op2, NonError) <==> op1 == op2
    ensures MutationErrorMessage(op1, NonError) != SyncErrorMessage(NonError)
  {
    // The texts part ways at their eleventh letter: "create", "update", "delete" against "fetch".
    assert SyncErrorMessage(NonError)[10] == 'f';
    assert MutationErrorMessage(op1, NonError)[10] != 'f';
  }
}
