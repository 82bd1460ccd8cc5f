/**
 * What the incident-report and customer-complaint handlers report back once
 * they have tried to store a slip and notify about it. Both handlers wrap the
 * insert and the notifier in one `try`, so an exception from either lands in
 * the same "database error" branch.
 */
module Submissions {
  import opened Email

  datatype SubmitOutcome =
    | FormShown
      /** The insert raised, or the notifier raised while rendering. */
    | DatabaseError
    | Created(slipId: string)
      /** The slip is stored but the notifier returned a false result. */
    | CreatedMailFailed(slipId: string)

  /** The outcome once the insert has succeeded, by what the notifier did. */
  function OutcomeAfterInsert(slipId: string, mail: MailResult): (r: SubmitOutcome)
    ensures r == DatabaseError <==> mail.NotBuilt?
    ensures r == Created(slipId) <==> mail.Succeeded()
    ensures r == CreatedMailFailed(slipId) <==> !mail.Succeeded() && !mail.NotBuilt?
    ensures r != FormShown
  {
    match mail
    case NotBuilt => DatabaseError
    case Sent(_) => Created(slipId)
    case _ => CreatedMailFailed(slipId)
  }

  /**
   * A notifier that ran to the end only ever changes the outcome between
   * success and a warning: the slip is reported as created either way.
   */
  lemma NotifierNeverUndoesCreation(slipId: string, mail: MailResult)
    requires !mail.NotBuilt?
    ensures OutcomeAfterInsert(slipId, mail) in {Created(slipId), CreatedMailFailed(slipId)}
  {
  }
}
