/** The broker's value types and its job state machine. */
module Models {

  datatype Option<+T> = None | Some(value: T)

  datatype Result<+T, +E> = Success(value: T) | Failure(error: E)

  // ---------- job states ----------

  datatype JobState =
    | Received | Validated | Authorized | AwaitingConfirmation
    | Queued | Running | Verifying | Succeeded
    | Denied | Rejected | Expired | Cancelled | Failed | UnknownOutcome

  /** ALLOWED_TRANSITIONS as a relation. */
  predicate CanMove(current: JobState, target: JobState) {
    match current
    case Received => target.Validated? || target.Rejected?
    case Validated => target.Authorized? || target.Denied? || target.Rejected?
    case Authorized => target.AwaitingConfirmation? || target.Queued?
    case AwaitingConfirmation => target.Queued? || target.Expired? || target.Cancelled?
    case Queued => target.Running? || target.Cancelled? || target.Expired?
    case Running => target.Verifying? || target.Failed? || target.UnknownOutcome? || target.Cancelled?
    case Verifying => target.Succeeded? || target.Failed? || target.UnknownOutcome? || target.Cancelled?
    case UnknownOutcome => target.Verifying? || target.Succeeded? || target.Failed? || target.Cancelled?
    case _ => false
  }

  predicate Terminal(s: JobState) {
    s.Succeeded? || s.Denied? || s.Rejected? || s.Expired? || s.Cancelled? || s.Failed?
  }

  // ---------- adapter results and errors ----------

  datatype RetryDisposition = Never | Safe | ReconcileFirst

  /** `details`, here and below, stands for the remaining fields as canonical JSON. */
  datatype JobError = JobError(code: string, message: string, retry: RetryDisposition,
                               reconciliationRequired: bool, details: string)

  datatype Execution = Execution(reference: Option<string>, details: string)

  datatype Observation = Observation(state: string, details: string)

  datatype Verification = Verification(satisfied: bool, details: string)

  datatype Disposition = CancelDone | CancelNotSupported | CancelAlreadyTerminal | CancelUnknown

  datatype Cancellation = Cancellation(disposition: Disposition, details: string)

  /** The JSON object kept in `result_json`; every field of it is an optional key. */
  datatype ResultDoc = ResultDoc(execution: Option<Execution>, observation: Option<Observation>,
                                 verification: Option<Verification>,
                                 cancellation: Option<Cancellation>)

  const EMPTY_RESULT := ResultDoc(None, None, None, None)

  /** `job.result or {}` */
  function ResultOrEmpty(r: Option<ResultDoc>): ResultDoc {
    if r.Some? then r.value else EMPTY_RESULT
  }

  datatype JobView = JobView(id: string, state: JobState,
                             result: Option<ResultDoc>, error: Option<JobError>)

  // ---------- requests ----------

  datatype Subject = Subject(name: string, device: string, channel: string)

  datatype Target = Target(kind: string, id: string)

  datatype RequestContext = RequestContext(profile: Option<string>, frontmostApp: Option<string>,
                                           client: string, control: Option<string>)

  datatype ActionRequest = ActionRequest(
    actionId: string, actionVersion: nat, target: Target, parameters: string,
    context: RequestContext, idempotencyKey: string, dryRun: bool,
    confirmationToken: Option<string>, confirmationResponse: Option<string>)

  datatype ConfirmationMode = NoConfirmation | Confirm | Hold | Typed | DualControl | PolicyMode

  datatype ActionDefinition = ActionDefinition(mutation: bool, confirmation: ConfirmationMode,
                                               timeoutSeconds: nat)

  // ---------- the two projections of a request that are hashed ----------

  /** Everything but the proof of approval: what makes two submissions the same request. */
  datatype RequestIdentity = RequestIdentity(
    actionId: string, actionVersion: nat, target: Target, parameters: string,
    context: RequestContext, idempotencyKey: string, dryRun: bool)

  /** The authority-bearing fields a confirmation approves. */
  datatype Authority = Authority(actionId: string, actionVersion: nat, target: Target,
                                 parameters: string)

  function IdentityOf(r: ActionRequest): RequestIdentity {
    RequestIdentity(r.actionId, r.actionVersion, r.target, r.parameters, r.context,
                    r.idempotencyKey, r.dryRun)
  }

  function AuthorityOf(r: ActionRequest): Authority {
    Authority(r.actionId, r.actionVersion, r.target, r.parameters)
  }

  // ---------- what a deployment fixes ----------

  /**
   The catalog check, the three hashes and the settings the engine reads. The hashes
   are SHA-256 over canonical text in the broker and stay uninterpreted here.
   */
  datatype Config = Config(
    validate: ActionRequest -> Option<ActionDefinition>,
    requestDigest: RequestIdentity -> string,
    confirmationDigest: Authority -> string,
    tokenHash: string -> string,
    maxAttempts: nat,
    mutationsEnabled: bool)

  // ---------- development policy ----------

  datatype Phase = PlanPhase | ExecutePhase

  datatype DenialReason = NotDenied | MutationsDisabled | ConfirmationRequired

  datatype PolicyDecision = PolicyDecision(allow: bool, reason: DenialReason, required: ConfirmationMode)

  function Decide(action: ActionDefinition, mutationsEnabled: bool, phase: Phase, confirmed: bool): PolicyDecision {
    if action.mutation && !mutationsEnabled then
      PolicyDecision(false, MutationsDisabled, NoConfirmation)
    else
      var required := if action.mutation then action.confirmation else NoConfirmation;
      if phase == ExecutePhase && required != NoConfirmation && !confirmed then
        PolicyDecision(false, ConfirmationRequired, required)
      else
        PolicyDecision(true, NotDenied, required)
  }

  /** A mutation whose catalog entry asks for a confirmation. */
  predicate NeedsConfirmation(cfg: Config, r: ActionRequest) {
    var action := cfg.validate(r);
    action.Some? && action.value.mutation && action.value.confirmation != NoConfirmation
  }
}
