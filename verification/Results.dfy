/** The outcome of a service call: a value, or the reason it was refused. */
module Results {

  datatype Option<+T> = None | Some(value: T)

  /** One constructor for each refusal the services can raise. `IntegrityViolation` stands for a
      unique, primary-key or foreign-key constraint refusing the flush. */
  datatype Error =
    // profiles
    | UsernameTaken | RegistrationPaused | BetaFull | ProfileRequired
    // campaigns and contracts
    | CampaignNotFound | NotCampaignOwner | SlugTaken | CampaignLocked | ContractLocked
    | ContractNotFound | NotDraft | NoTasks | NotPublished | NotPaused | NotOpen
    // applications and testing
    | AssignmentNotFound | NotAcceptingTesters | OwnCampaign | AlreadyApplied | CampaignFull
    | NotPendingApplication | NotTheTester | NotWithdrawable | NotAccepted | NotTesting
    | SessionAlreadyRecorded | NotReadyToSubmit | NotStarted | TooEarly | TooFewSessions
    | ForeignTask | MissingEvidence | EmptyEvidence | BadStorageKey
    // reviews and disputes
    | SubmissionNotFound | EscalationActive | AlreadyReviewed | NotAwaitingReview
    | PrivateWorkspace | NotEscalatable | SubmissionRequired | ForeignSubmission | NotPending
    | ReviewWindowOpen | NotRejected | AlreadyDisputed
    | DisputeNotFound | ClaimedByAnother | NotClaimable | NotClaimed | NotAssignedModerator
    | OverdueNeedsDecision | DisputedSubmissionMissing | NoDisputedSubmission | NotAwardable
    // credits and storage
    | ZeroCredit | InsufficientCredits | AttachmentNotFound | IntegrityViolation

  datatype Result<+T> = Ok(value: T) | Err(error: Error) {
    predicate IsFailure() {
      Err?
    }

    function PropagateFailure<U>(): Result<U>
      requires Err?
    {
      Err(error)
    }

    function Extract(): T
      requires Ok?
    {
      value
    }
  }

  /** The refusal used by `:-` when a guard of a service does not hold. */
  function Need(condition: bool, error: Error): Result<()> {
    if condition then Ok(()) else Err(error)
  }

  /** The answer of a service that changes the tables itself. */
  datatype Outcome = Pass | Fail(error: Error) {
    predicate IsFailure() {
      Fail?
    }

    function PropagateFailure(): Outcome
      requires Fail?
    {
      this
    }
  }

  function Check(condition: bool, error: Error): Outcome {
    if condition then Pass else Fail(error)
  }
}
