/** The Demo Lab run record, the Runner snapshot, and the pure decisions taken on them. */
module DemoRuns {
  import opened Text

  datatype Scenario = HappyPath | ApprovalPath | FailurePath

  datatype Status =
    | Queued | Starting | Running | WaitingApproval
    | Succeeded | Failed | Cancelled | Interrupted | Expired

  datatype Outcome =
    | NoOutcome | Normal | Approved | Denied | Degraded | OutcomeCancelled | OutcomeFailed

  /** Status words a Runner may report, after trimming. */
  datatype RunnerStatus =
    | ReportsQueued | ReportsStarting | ReportsRunning
    | ReportsSucceeded | ReportsFailed | ReportsCancelled
    | ReportsOther(word: string)

  datatype Approval = Approval(ticketId: string, sessionId: string, status: string)

  /** What identifies a run to the Runner; written once, when the run is created. */
  datatype Identity = Identity(
    runId: string, scenario: Scenario, delayMs: int,
    taskId: string, sessionId: string, requestId: string)

  datatype DemoRun = DemoRun(
    identity: Identity,
    status: Status,
    outcome: Outcome,
    reason: string,
    requestedAt: int,
    startedAt: Option<int>,
    completedAt: Option<int>,
    heartbeatAt: Option<int>,
    version: int,
    traceId: string,
    rootSpanId: string,
    approval: Option<Approval>,
    currentStep: string,
    completedSteps: int,
    totalSteps: int,
    errorCode: string)

  datatype Snapshot = Snapshot(
    identity: Identity,
    status: RunnerStatus,
    outcome: Outcome,
    traceId: string,
    rootSpanId: string,
    currentStep: string,
    completedSteps: int,
    totalSteps: int,
    startedAt: Option<int>,
    completedAt: Option<int>,
    heartbeatAt: int,
    errorCode: string)

  /** Go's zero time. */
  const ZERO_TIME := 0

  const CONTRACT_MISMATCH := "runner_contract_mismatch"
  const CANCEL_REQUESTED := "cancel_requested"
  const RUN_LOST := "runner_run_lost"
  const RUN_TIMEOUT := "run_timeout"

  function TotalSteps(scenario: Scenario): int {
    if scenario == ApprovalPath then 10 else 9
  }

  predicate Terminal(status: Status) {
    status in {Succeeded, Failed, Cancelled, Interrupted, Expired}
  }

  predicate ValidTransition(from: Status, to: Status) {
    from == to ||
    match from
    case Queued => to in {Starting, Cancelled, Interrupted, Failed}
    case Starting => to in {Running, WaitingApproval, Succeeded, Failed, Cancelled, Interrupted}
    case Running => to in {WaitingApproval, Succeeded, Failed, Cancelled, Interrupted}
    case WaitingApproval => to in {Running, Succeeded, Failed, Cancelled, Interrupted, Expired}
    case _ => false
  }

  function MappedStatus(status: RunnerStatus): Option<Status> {
    match status
    case ReportsQueued => Some(Starting)
    case ReportsStarting => Some(Starting)
    case ReportsRunning => Some(Running)
    case ReportsSucceeded => Some(Succeeded)
    case ReportsFailed => Some(Failed)
    case ReportsCancelled => Some(Cancelled)
    case ReportsOther(_) => None
  }

  predicate ValidRunnerOutcome(scenario: Scenario, status: RunnerStatus, outcome: Outcome) {
    match status
    case ReportsQueued => outcome == NoOutcome
    case ReportsStarting => outcome == NoOutcome
    case ReportsRunning => outcome == NoOutcome
    case ReportsFailed => outcome == OutcomeFailed
    case ReportsCancelled => outcome == OutcomeCancelled
    case ReportsSucceeded =>
      (match scenario
       case HappyPath => outcome == Normal
       case ApprovalPath => outcome == Approved || outcome == Denied
       case FailurePath => outcome == Degraded)
    case ReportsOther(_) => false
  }

  /** The part of the contract that concerns the snapshot and the run's fixed fields only. */
  predicate WellFormedSnapshot(identity: Identity, totalSteps: int, s: Snapshot) {
    && s.identity == identity
    && s.totalSteps == totalSteps
    && 0 <= s.completedSteps <= s.totalSteps
    && s.heartbeatAt != ZERO_TIME
    && MappedStatus(s.status).Some?
    && ValidRunnerOutcome(identity.scenario, s.status, s.outcome)
    && (s.traceId != "" ==> ValidHexId(s.traceId, 16))
    && (s.rootSpanId != "" ==> ValidHexId(s.rootSpanId, 8))
    && ((s.traceId == "") == (s.rootSpanId == ""))
  }

  /** validateRunnerSnapshot accepts `s` for `run`. */
  predicate ValidSnapshot(run: DemoRun, s: Snapshot) {
    && WellFormedSnapshot(run.identity, run.totalSteps, s)
    && run.completedSteps <= s.completedSteps
    && ValidTransition(run.status, MappedStatus(s.status).value)
    && (run.heartbeatAt.Some? ==> run.heartbeatAt.value <= s.heartbeatAt)
    && (run.startedAt.Some? ==> s.startedAt == run.startedAt)
    && (run.traceId != "" ==> s.traceId == run.traceId && s.rootSpanId == run.rootSpanId)
  }

  function BoundedErrorCode(code: string): string {
    var value := Trim(code);
    if value == "" then ""
    else if |value| > 64 then "runner_execution_failed"
    else if forall i :: 0 <= i < |value| ==> 'a' <= value[i] <= 'z' || '0' <= value[i] <= '9' || value[i] == '_'
    then value
    else "runner_execution_failed"
  }

  predicate SameApproval(a: Option<Approval>, b: Option<Approval>) {
    if a.None? || b.None? then a == b
    else a.value.ticketId == b.value.ticketId && a.value.status == b.value.status
  }

  /** demoRunChanged; the error summary is a function of the error code. */
  predicate RunChanged(a: DemoRun, b: DemoRun) {
    || a.status != b.status || a.outcome != b.outcome || a.reason != b.reason
    || a.startedAt != b.startedAt || a.completedAt != b.completedAt || a.heartbeatAt != b.heartbeatAt
    || a.traceId != b.traceId || a.rootSpanId != b.rootSpanId || a.currentStep != b.currentStep
    || a.completedSteps != b.completedSteps || a.totalSteps != b.totalSteps
    || a.errorCode != b.errorCode || !SameApproval(a.approval, b.approval)
  }

  function SnapshotStatus(run: DemoRun, s: Snapshot, pending: Option<Approval>): Status
    requires MappedStatus(s.status).Some?
  {
    var mapped := MappedStatus(s.status).value;
    if run.status == WaitingApproval && mapped == Running && pending.None?
       && s.currentStep == run.currentStep && s.completedSteps == run.completedSteps
    then WaitingApproval
    else if pending.Some? && mapped == Running then WaitingApproval
    else mapped
  }

  function SnapshotApproval(run: DemoRun, s: Snapshot, pending: Option<Approval>): Option<Approval>
    requires MappedStatus(s.status).Some?
  {
    if pending.Some? then pending
    else if run.approval.Some? && Terminal(MappedStatus(s.status).value) then
      match s.outcome
      case Approved => Some(run.approval.value.(status := "approved"))
      case Denied => Some(run.approval.value.(status := "denied"))
      case _ => run.approval
    else run.approval
  }

  function Projected(run: DemoRun, s: Snapshot, pending: Option<Approval>, now: int): DemoRun
    requires MappedStatus(s.status).Some?
  {
    var status := SnapshotStatus(run, s, pending);
    var completedAt := if s.completedAt.Some? then s.completedAt else run.completedAt;
    run.(
      heartbeatAt := Some(s.heartbeatAt),
      startedAt := if s.startedAt.Some? then s.startedAt else run.startedAt,
      completedAt := if Terminal(status) && completedAt.None? then Some(now) else completedAt,
      traceId := s.traceId,
      rootSpanId := s.rootSpanId,
      currentStep := s.currentStep,
      completedSteps := s.completedSteps,
      totalSteps := s.totalSteps,
      outcome := s.outcome,
      errorCode := BoundedErrorCode(s.errorCode),
      status := status,
      approval := SnapshotApproval(run, s, pending))
  }

  datatype Applied = Mismatch | Unchanged | Changed(candidate: DemoRun)

  /** applyRunnerSnapshotWithApproval up to the persist call. Without a pending approval the candidate
      shares the run's approval object, so an approval edit alone is never seen as a change. */
  function ApplySnapshot(run: DemoRun, s: Snapshot, pending: Option<Approval>, now: int): Applied {
    if !ValidSnapshot(run, s) then Mismatch
    else
      var candidate := Projected(run, s, pending, now);
      var compared := if pending.Some? then run else run.(approval := candidate.approval);
      if RunChanged(compared, candidate) then Changed(candidate) else Unchanged
  }

  /** The shape every forced ending shares. */
  function Ended(run: DemoRun, status: Status, outcome: Outcome, reason: string, now: int): DemoRun {
    run.(status := status, outcome := outcome, reason := reason, completedAt := Some(now))
  }

  function InterruptedForContract(run: DemoRun, now: int): DemoRun {
    Ended(run, Interrupted, OutcomeFailed, CONTRACT_MISMATCH, now)
  }

  function TimedOut(run: DemoRun, now: int): DemoRun {
    Ended(run, if run.status == WaitingApproval then Expired else Interrupted, OutcomeFailed, RUN_TIMEOUT, now)
  }

  /** loadCancellationState: the candidate built from the stored run, or a state-changed refusal. */
  function CancellationCandidate(stored: DemoRun, ticket: string, session: string): Option<DemoRun> {
    if Terminal(stored.status) then None
    else if ticket == "" then Some(stored)
    else
      match stored.approval
      case None => None
      case Some(a) =>
        if a.ticketId != ticket || a.sessionId != session
           || (!EqualFold(a.status, "pending") && !EqualFold(a.status, "denied"))
        then None
        else Some(stored.(approval := Some(a.(status := "denied"))))
  }

  datatype Mark = MarkRequested | MarkLost | MarkContract | MarkDenied

  /** What each of the four persist*Cancellation loops writes over its candidate. */
  function Marked(kind: Mark, candidate: DemoRun, now: int): DemoRun {
    match kind
    case MarkRequested => candidate.(reason := CANCEL_REQUESTED)
    case MarkLost => Ended(candidate, Interrupted, OutcomeCancelled, RUN_LOST, now)
    case MarkContract => Ended(candidate, Interrupted, OutcomeFailed, CONTRACT_MISMATCH, now)
    case MarkDenied => candidate
  }

  /** UpdateDemoRun behind persist: refused on an illegal transition or a version mismatch. */
  function Persisted(stored: DemoRun, previous: DemoRun, candidate: DemoRun): Option<DemoRun> {
    if ValidTransition(previous.status, candidate.status) && stored.version == previous.version
    then Some(candidate.(version := previous.version + 1))
    else None
  }

  function NewRun(identity: Identity, now: int): DemoRun {
    DemoRun(identity, Queued, NoOutcome, "", now, None, None, None, 0, "", "", None, "", 0,
            TotalSteps(identity.scenario), "")
  }
}
