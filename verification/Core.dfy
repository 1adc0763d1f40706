/** Results, errors and identifiers shared by every layer. */
module Core {
  import opened Text

  datatype Option<+T> = None | Some(value: T)

  datatype Result<+T> = Success(value: T) | Failure(error: Error)

  /** The refusals callers can tell apart. Everything the database driver
      reports (key collisions, violated references, checks) is StorageError. */
  datatype Error =
    | InvalidInput
    | StorageError
    | BusinessNotFound
    | ScenarioNotFound
    | ScenarioContext
    | ScenarioConflict
    | ScenarioStale
    | ScenarioUnauthorized
    | ScenarioState
    | GoalNotFound
    | ProposalNotFound
    | ProposalState
    | ProposalContext
    | ProposalConflict
    | ProposalUnauthorized
    | ApprovalNotFound
    | ApprovalContext
    | ApprovalState
    | ApprovalStale
    | ApprovalUnauthorized
    | CommitInProgress
    | CommitUnauthorized
    | CommitRejected
    | IdempotencyConflict
    | TransactionAborted

  type Id = string

  const MAX_ID_LENGTH := 200

  predicate ValidId(id: Id) {
    !IsBlank(id) && |id| <= MAX_ID_LENGTH
  }

  /** Up to two hundred bytes, not all of them spaces. */
  lemma ValidIdIff(id: Id)
    ensures ValidId(id) <==> |id| <= 200 && exists i :: 0 <= i < |id| && !IsSpace(id[i])
  {
    BlankIff(id);
  }
}
