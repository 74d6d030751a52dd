/** Every interleaving of Create, MonitorOnce and Cancel over one versioned run.
    One action is one atomic step: a store read, an external call with its local consequences, or a
    compare-and-swap commit. MonitorOnce and Cancel exclude each other through controlMu; Create does not
    take it. External replies are inputs, so nothing is assumed of the Runner here. */
module DemoHistory {
  import opened Text
  import opened DemoRuns

  datatype Config = Config(runTimeout: int, lostAfter: int)

  datatype RunnerError = RunnerUnavailable | RunnerContract | RunnerNotFound | RunnerBusy | RunnerConflict

  type RunnerReply = Result<Snapshot, RunnerError>

  /** How denyTimedOutApproval ends. */
  datatype TimeoutDenial = DenialRefused | DeniedOwnTicket | NoTicketLeft | DeniedOther(ticket: Approval)

  /** What a Cancel in progress carries between its steps. */
  datatype Goal = Goal(ticket: string, session: string)

  datatype AfterWrite =
    | Finish
    | RetryApply(goal: Goal, snapshot: Snapshot, tries: nat)
    | RetryMark(kind: Mark, goal: Goal, tries: nat)

  datatype Creator =
    | NotCalled
    | Promoting(queued: DemoRun)
    | Launching(starting: DemoRun)
    | CreatorWrites(previous: DemoRun, candidate: DemoRun)
    | CreateReturned

  datatype Control =
    | Idle
    | Monitoring(run: DemoRun)
    | Cancelling(run: DemoRun)
    | Applying(goal: Goal, snapshot: Snapshot, tries: nat)
    | Marking(kind: Mark, goal: Goal, tries: nat)
    | Writing(previous: DemoRun, candidate: DemoRun, after: AfterWrite)

  /** `history` holds every committed version of the run, oldest first. */
  datatype System = System(history: seq<DemoRun>, creator: Creator, control: Control)

  datatype Action =
    | CreateInsert(identity: Identity, now: int)
    | CreatePromote(storeFails: bool)
    | CreateStart(reply: RunnerReply, now: int)
    | CreateCommit(storeFails: bool)
    | MonitorRead
    | MonitorTimeout(denial: TimeoutDenial, reply: RunnerReply, now: int)
    | MonitorGet(reply: RunnerReply, pending: Option<Approval>, now: int)
    | CancelRead
    | CancelAsk(denied: bool, reply: RunnerReply, now: int)
    | CancelLoad(now: int)
    | ControlCommit(storeFails: bool)

  const INITIAL := System([], NotCalled, Idle)

  const MAX_TRIES: nat := 3

  function Last(history: seq<DemoRun>): DemoRun
    requires history != []
  {
    history[|history| - 1]
  }

  /** persist against the store's current row; None stands for ErrStateChanged or a store error. */
  function Commit(history: seq<DemoRun>, previous: DemoRun, candidate: DemoRun, storeFails: bool): Option<seq<DemoRun>> {
    if storeFails || history == [] then None
    else
      match Persisted(Last(history), previous, candidate)
      case None => None
      case Some(row) => Some(history + [row])
  }

  function StartFailureReason(error: RunnerError): string {
    match error
    case RunnerBusy => "runner_busy"
    case RunnerConflict => "runner_state_conflict"
    case RunnerContract => CONTRACT_MISMATCH
    case _ => "runner_unavailable"
  }

  /** denyTimedOutApproval: the run as Monitor goes on with it, or a refusal. */
  function AfterTimeoutDenial(run: DemoRun, denial: TimeoutDenial): Option<DemoRun> {
    match run.approval
    case None => None
    case Some(a) =>
      if a.sessionId != run.identity.sessionId || !EqualFold(a.status, "pending") then None
      else
        match denial
        case DenialRefused => None
        case DeniedOwnTicket => Some(run.(approval := Some(a.(status := "denied"))))
        case NoTicketLeft => Some(run)
        case DeniedOther(ticket) =>
          if ticket.sessionId != run.identity.sessionId then None
          else Some(run.(approval := Some(ticket.(status := "denied"))))
  }

  function AfterStart(starting: DemoRun, reply: RunnerReply, now: int): Creator {
    match reply
    case Err(error) =>
      CreatorWrites(starting, Ended(starting, Interrupted, OutcomeFailed, StartFailureReason(error), now))
    case Ok(snapshot) =>
      match ApplySnapshot(starting, snapshot, None, now)
      case Mismatch => CreatorWrites(starting, InterruptedForContract(starting, now))
      case Unchanged => CreateReturned
      case Changed(candidate) => CreatorWrites(starting, candidate)
  }

  function AfterTimeout(cfg: Config, run: DemoRun, denial: TimeoutDenial, reply: RunnerReply, now: int): Control {
    if now - run.requestedAt < cfg.runTimeout then Monitoring(run)
    else
      var denied := if run.status == WaitingApproval then AfterTimeoutDenial(run, denial) else Some(run);
      if denied.None? || (reply.Err? && reply.error != RunnerNotFound) then Idle
      else Writing(denied.value, TimedOut(denied.value, now), Finish)
  }

  function LastSeen(run: DemoRun): int {
    if run.heartbeatAt.Some? then run.heartbeatAt.value else run.requestedAt
  }

  function AfterGet(cfg: Config, run: DemoRun, reply: RunnerReply, pending: Option<Approval>, now: int): Control {
    if now - run.requestedAt >= cfg.runTimeout then Monitoring(run)
    else
      match reply
      case Err(error) =>
        if error == RunnerContract then Writing(run, InterruptedForContract(run, now), Finish)
        else if now - LastSeen(run) < cfg.lostAfter then Idle
        else Writing(run, Ended(run, Interrupted, OutcomeFailed, RUN_LOST, now), Finish)
      case Ok(snapshot) =>
        match ApplySnapshot(run, snapshot, pending, now)
        case Mismatch => Writing(run, InterruptedForContract(run, now), Finish)
        case Unchanged => Idle
        case Changed(candidate) => Writing(run, candidate, Finish)
  }

  predicate AwaitsTicket(run: DemoRun) {
    run.status == WaitingApproval && run.approval.Some? && EqualFold(run.approval.value.status, "pending")
  }

  function AfterCancelAsk(run: DemoRun, denied: bool, reply: RunnerReply): Control {
    if AwaitsTicket(run) && (run.approval.value.sessionId != run.identity.sessionId || !denied) then Idle
    else
      var goal := Goal(if AwaitsTicket(run) then run.approval.value.ticketId else "", run.identity.sessionId);
      match reply
      case Ok(snapshot) => Applying(goal, snapshot, MAX_TRIES)
      case Err(RunnerNotFound) => Marking(MarkLost, goal, MAX_TRIES)
      case Err(_) => if goal.ticket != "" then Marking(MarkDenied, goal, MAX_TRIES) else Idle
  }

  /** One iteration of persistRunnerCancellation up to its write. */
  function LoadToApply(stored: DemoRun, goal: Goal, snapshot: Snapshot, tries: nat, now: int): Control {
    if tries == 0 then Idle
    else
      match CancellationCandidate(stored, goal.ticket, goal.session)
      case None => Idle
      case Some(candidate) =>
        match ApplySnapshot(candidate, snapshot, None, now)
        case Mismatch => Marking(MarkContract, goal, MAX_TRIES)
        case Unchanged => Marking(MarkRequested, goal, MAX_TRIES)
        case Changed(updated) => Writing(candidate, updated, RetryApply(goal, snapshot, tries - 1))
  }

  /** One iteration of any of the four marking loops up to its write. */
  function LoadToMark(stored: DemoRun, kind: Mark, goal: Goal, tries: nat, now: int): Control {
    if tries == 0 then Idle
    else
      match CancellationCandidate(stored, goal.ticket, goal.session)
      case None => Idle
      case Some(candidate) =>
        Writing(stored, Marked(kind, candidate, now), RetryMark(kind, goal, tries - 1))
  }

  /** Where control goes after a write: a lost compare-and-swap is retried, a store error ends the call. */
  function AfterCommit(candidate: DemoRun, after: AfterWrite, committed: bool, storeFails: bool): Control {
    if storeFails then Idle
    else
      match after
      case Finish => Idle
      case RetryApply(goal, snapshot, tries) =>
        if !committed then Applying(goal, snapshot, tries)
        else if Terminal(candidate.status) then Idle
        else Marking(MarkRequested, goal, MAX_TRIES)
      case RetryMark(kind, goal, tries) =>
        if !committed then Marking(kind, goal, tries) else Idle
  }

  /** An action whose turn it is not changes nothing. */
  function Step(cfg: Config, s: System, a: Action): System {
    match a
    case CreateInsert(identity, now) =>
      if s.creator != NotCalled || s.history != [] then s
      else s.(history := [NewRun(identity, now)], creator := Promoting(NewRun(identity, now)))
    case CreatePromote(storeFails) =>
      if !s.creator.Promoting? then s
      else
        var queued := s.creator.queued;
        (match Commit(s.history, queued, queued.(status := Starting), storeFails)
         case None => s.(creator := CreateReturned)
         case Some(history) => s.(history := history, creator := Launching(Last(history))))
    case CreateStart(reply, now) =>
      if !s.creator.Launching? then s else s.(creator := AfterStart(s.creator.starting, reply, now))
    case CreateCommit(storeFails) =>
      if !s.creator.CreatorWrites? then s
      else
        (match Commit(s.history, s.creator.previous, s.creator.candidate, storeFails)
         case None => s.(creator := CreateReturned)
         case Some(history) => s.(history := history, creator := CreateReturned))
    case MonitorRead =>
      if s.control != Idle || s.history == [] || Terminal(Last(s.history).status) then s
      else s.(control := Monitoring(Last(s.history)))
    case MonitorTimeout(denial, reply, now) =>
      if !s.control.Monitoring? then s
      else s.(control := AfterTimeout(cfg, s.control.run, denial, reply, now))
    case MonitorGet(reply, pending, now) =>
      if !s.control.Monitoring? then s
      else s.(control := AfterGet(cfg, s.control.run, reply, pending, now))
    case CancelRead =>
      if s.control != Idle || s.history == [] || Terminal(Last(s.history).status) then s
      else s.(control := Cancelling(Last(s.history)))
    case CancelAsk(denied, reply, now) =>
      if !s.control.Cancelling? then s
      else s.(control := AfterCancelAsk(s.control.run, denied, reply))
    case CancelLoad(now) =>
      if s.history == [] then s
      else if s.control.Applying? then
        s.(control := LoadToApply(Last(s.history), s.control.goal, s.control.snapshot, s.control.tries, now))
      else if s.control.Marking? then
        s.(control := LoadToMark(Last(s.history), s.control.kind, s.control.goal, s.control.tries, now))
      else s
    case ControlCommit(storeFails) =>
      if !s.control.Writing? then s
      else
        var w := s.control;
        (match Commit(s.history, w.previous, w.candidate, storeFails)
         case None => s.(control := AfterCommit(w.candidate, w.after, false, storeFails))
         case Some(history) => s.(history := history, control := AfterCommit(w.candidate, w.after, true, false)))
  }

  function Run(cfg: Config, actions: seq<Action>): System {
    if actions == [] then INITIAL
    else Step(cfg, Run(cfg, actions[..|actions| - 1]), actions[|actions| - 1])
  }

  // ---- What is promised of the committed history ----

  predicate OutcomeAllowed(scenario: Scenario, status: Status, outcome: Outcome) {
    match status
    case Succeeded => ValidRunnerOutcome(scenario, ReportsSucceeded, outcome)
    case Failed => outcome == OutcomeFailed
    case Cancelled => outcome == OutcomeCancelled
    case Interrupted => outcome == OutcomeFailed || outcome == OutcomeCancelled
    case Expired => outcome == OutcomeFailed
    case _ => outcome == NoOutcome
  }

  predicate GoodRun(r: DemoRun) {
    && OutcomeAllowed(r.identity.scenario, r.status, r.outcome)
    && (Terminal(r.status) ==> r.completedAt.Some?)
    && 0 <= r.completedSteps <= r.totalSteps == TotalSteps(r.identity.scenario)
    && ((r.traceId == "") == (r.rootSpanId == ""))
  }

  /** `b` may be a later version of the same run as `a`. */
  predicate Evolves(a: DemoRun, b: DemoRun) {
    && b.identity == a.identity && b.requestedAt == a.requestedAt && b.totalSteps == a.totalSteps
    && ValidTransition(a.status, b.status)
    && a.completedSteps <= b.completedSteps
    && (a.heartbeatAt.Some? ==> b.heartbeatAt.Some? && a.heartbeatAt.value <= b.heartbeatAt.value)
    && (a.startedAt.Some? ==> b.startedAt == a.startedAt)
    && (a.traceId != "" ==> b.traceId == a.traceId && b.rootSpanId == a.rootSpanId)
  }

  predicate GoodHistory(h: seq<DemoRun>) {
    && (forall i :: 0 <= i < |h| ==> h[i].version == i && GoodRun(h[i]))
    && (forall i :: 0 <= i < |h| - 1 ==> !Terminal(h[i].status) && Evolves(h[i], h[i + 1]))
  }

  /** `r` is the committed version it carries, up to a locally edited approval. */
  predicate ReadFrom(h: seq<DemoRun>, r: DemoRun) {
    && 0 <= r.version < |h|
    && !Terminal(r.status)
    && r.(approval := h[r.version].approval) == h[r.version]
  }

  predicate GoodWrite(h: seq<DemoRun>, previous: DemoRun, candidate: DemoRun) {
    ReadFrom(h, previous) && Evolves(previous, candidate) && GoodRun(candidate)
  }

  predicate GoodCreator(h: seq<DemoRun>, c: Creator) {
    match c
    case Promoting(run) => ReadFrom(h, run) && run.status == Queued
    case Launching(run) => ReadFrom(h, run) && run.status == Starting
    case CreatorWrites(previous, candidate) => GoodWrite(h, previous, candidate)
    case _ => true
  }

  predicate GoodControl(h: seq<DemoRun>, c: Control) {
    match c
    case Monitoring(run) => ReadFrom(h, run)
    case Cancelling(run) => ReadFrom(h, run)
    case Writing(previous, candidate, _) => GoodWrite(h, previous, candidate)
    case _ => true
  }

  predicate Inv(s: System) {
    && GoodHistory(s.history)
    && (s.history == [] ==> s.creator == NotCalled && s.control == Idle)
    && GoodCreator(s.history, s.creator)
    && GoodControl(s.history, s.control)
  }

  // ---- Local decisions are sound ----

  /** The transition check never refuses a validated snapshot, and the result is a legal next version. */
  lemma ProjectedIsLegal(run: DemoRun, s: Snapshot, pending: Option<Approval>, now: int)
    requires GoodRun(run) && ValidSnapshot(run, s)
    ensures var next := Projected(run, s, pending, now); Evolves(run, next) && GoodRun(next)
  {
  }

  lemma EndedIsLegal(run: DemoRun, status: Status, outcome: Outcome, reason: string, now: int)
    requires GoodRun(run) && !Terminal(run.status) && Terminal(status)
    requires ValidTransition(run.status, status) && OutcomeAllowed(run.identity.scenario, status, outcome)
    ensures Evolves(run, Ended(run, status, outcome, reason, now))
    ensures GoodRun(Ended(run, status, outcome, reason, now))
  {
  }

  lemma ReadIsGood(h: seq<DemoRun>, r: DemoRun)
    requires GoodHistory(h) && ReadFrom(h, r)
    ensures GoodRun(r)
  {
    assert GoodRun(h[r.version]);
  }

  lemma ApplyIsLegal(h: seq<DemoRun>, run: DemoRun, s: Snapshot, pending: Option<Approval>, now: int)
    requires GoodHistory(h) && ReadFrom(h, run)
    ensures var applied := ApplySnapshot(run, s, pending, now);
            applied.Changed? ==> GoodWrite(h, run, applied.candidate)
  {
    ReadIsGood(h, run);
    if ValidSnapshot(run, s) { ProjectedIsLegal(run, s, pending, now); }
  }

  lemma EndIsLegal(h: seq<DemoRun>, run: DemoRun, outcome: Outcome, reason: string, now: int)
    requires GoodHistory(h) && ReadFrom(h, run) && outcome in {OutcomeFailed, OutcomeCancelled}
    ensures GoodWrite(h, run, Ended(run, Interrupted, outcome, reason, now))
  {
    ReadIsGood(h, run);
    EndedIsLegal(run, Interrupted, outcome, reason, now);
  }

  lemma CommitKeepsHistory(h: seq<DemoRun>, previous: DemoRun, candidate: DemoRun, storeFails: bool)
    requires GoodHistory(h) && GoodWrite(h, previous, candidate)
    ensures var c := Commit(h, previous, candidate, storeFails);
            c.Some? ==> GoodHistory(c.value) && h < c.value && |c.value| == |h| + 1
  {
    var c := Commit(h, previous, candidate, storeFails);
    if c.Some? {
      assert previous.(approval := Last(h).approval) == Last(h);
      assert GoodRun(Last(c.value));
    }
  }

  lemma GrowthKeepsReads(h: seq<DemoRun>, h': seq<DemoRun>, creator: Creator, control: Control)
    requires h <= h'
    ensures GoodCreator(h, creator) ==> GoodCreator(h', creator)
    ensures GoodControl(h, control) ==> GoodControl(h', control)
  {
  }

  lemma LastIsRead(h: seq<DemoRun>)
    requires GoodHistory(h) && h != [] && !Terminal(Last(h).status)
    ensures ReadFrom(h, Last(h))
  {
  }

  // ---- Each step keeps the invariant ----

  lemma CreateStepKeeps(cfg: Config, s: System, a: Action)
    requires Inv(s)
    requires a.CreateInsert? || a.CreatePromote? || a.CreateStart? || a.CreateCommit?
    ensures Inv(Step(cfg, s, a)) && s.history <= Step(cfg, s, a).history
  {
    match a
    case CreateInsert(_, _) =>
    case CreatePromote(storeFails) =>
      if s.creator.Promoting? {
        var queued := s.creator.queued;
        ReadIsGood(s.history, queued);
        CommitKeepsHistory(s.history, queued, queued.(status := Starting), storeFails);
        GrowthKeepsReads(s.history, Step(cfg, s, a).history, s.creator, s.control);
      }
    case CreateStart(reply, now) =>
      if s.creator.Launching? {
        var run := s.creator.starting;
        EndIsLegal(s.history, run, OutcomeFailed, CONTRACT_MISMATCH, now);
        if reply.Err? {
          EndIsLegal(s.history, run, OutcomeFailed, StartFailureReason(reply.error), now);
        } else {
          ApplyIsLegal(s.history, run, reply.value, None, now);
        }
      }
    case CreateCommit(storeFails) =>
      if s.creator.CreatorWrites? {
        CommitKeepsHistory(s.history, s.creator.previous, s.creator.candidate, storeFails);
        GrowthKeepsReads(s.history, Step(cfg, s, a).history, s.creator, s.control);
      }
  }

  lemma TimeoutIsLegal(cfg: Config, h: seq<DemoRun>, run: DemoRun, denial: TimeoutDenial, reply: RunnerReply, now: int)
    requires GoodHistory(h) && ReadFrom(h, run)
    ensures GoodControl(h, AfterTimeout(cfg, run, denial, reply, now))
  {
    ReadIsGood(h, run);
  }

  lemma GetIsLegal(cfg: Config, h: seq<DemoRun>, run: DemoRun, reply: RunnerReply, pending: Option<Approval>, now: int)
    requires GoodHistory(h) && ReadFrom(h, run)
    ensures GoodControl(h, AfterGet(cfg, run, reply, pending, now))
  {
    EndIsLegal(h, run, OutcomeFailed, CONTRACT_MISMATCH, now);
    EndIsLegal(h, run, OutcomeFailed, RUN_LOST, now);
    if reply.Ok? { ApplyIsLegal(h, run, reply.value, pending, now); }
  }

  lemma CandidateIsRead(h: seq<DemoRun>, goal: Goal)
    requires GoodHistory(h) && h != []
    ensures var c := CancellationCandidate(Last(h), goal.ticket, goal.session);
            c.Some? ==> ReadFrom(h, Last(h)) && ReadFrom(h, c.value) && Evolves(Last(h), c.value)
  {
  }

  lemma LoadIsLegal(h: seq<DemoRun>, control: Control, now: int)
    requires GoodHistory(h) && h != []
    ensures control.Applying? ==>
              GoodControl(h, LoadToApply(Last(h), control.goal, control.snapshot, control.tries, now))
    ensures control.Marking? ==>
              GoodControl(h, LoadToMark(Last(h), control.kind, control.goal, control.tries, now))
  {
    if control.Applying? || control.Marking? {
      CandidateIsRead(h, control.goal);
      var c := CancellationCandidate(Last(h), control.goal.ticket, control.goal.session);
      if c.Some? {
        ReadIsGood(h, c.value);
        if control.Applying? {
          ApplyIsLegal(h, c.value, control.snapshot, None, now);
        } else {
          EndIsLegal(h, c.value, OutcomeCancelled, RUN_LOST, now);
          EndIsLegal(h, c.value, OutcomeFailed, CONTRACT_MISMATCH, now);
        }
      }
    }
  }

  lemma ControlStepKeeps(cfg: Config, s: System, a: Action)
    requires Inv(s)
    requires !(a.CreateInsert? || a.CreatePromote? || a.CreateStart? || a.CreateCommit?)
    ensures Inv(Step(cfg, s, a)) && s.history <= Step(cfg, s, a).history
  {
    match a
    case MonitorTimeout(denial, reply, now) =>
      if s.control.Monitoring? { TimeoutIsLegal(cfg, s.history, s.control.run, denial, reply, now); }
    case MonitorGet(reply, pending, now) =>
      if s.control.Monitoring? { GetIsLegal(cfg, s.history, s.control.run, reply, pending, now); }
    case CancelLoad(now) =>
      if s.history != [] { LoadIsLegal(s.history, s.control, now); }
    case ControlCommit(storeFails) =>
      if s.control.Writing? {
        CommitKeepsHistory(s.history, s.control.previous, s.control.candidate, storeFails);
        GrowthKeepsReads(s.history, Step(cfg, s, a).history, s.creator, s.control);
      }
    case MonitorRead =>
      if s.history != [] && !Terminal(Last(s.history).status) { LastIsRead(s.history); }
    case CancelRead =>
      if s.history != [] && !Terminal(Last(s.history).status) { LastIsRead(s.history); }
    case _ =>
  }

  lemma StepKeeps(cfg: Config, s: System, a: Action)
    requires Inv(s)
    ensures Inv(Step(cfg, s, a)) && s.history <= Step(cfg, s, a).history
  {
    if a.CreateInsert? || a.CreatePromote? || a.CreateStart? || a.CreateCommit? {
      CreateStepKeeps(cfg, s, a);
    } else {
      ControlStepKeeps(cfg, s, a);
    }
  }

  /** Safety over every interleaving, whatever the Runner, the approval service and the clock answer. */
  lemma {:induction false} EveryRunIsSafe(cfg: Config, actions: seq<Action>)
    ensures Inv(Run(cfg, actions))
  {
    if actions != [] {
      EveryRunIsSafe(cfg, actions[..|actions| - 1]);
      StepKeeps(cfg, Run(cfg, actions[..|actions| - 1]), actions[|actions| - 1]);
    }
  }

  lemma {:induction false} EvolvesAcross(h: seq<DemoRun>, i: nat, j: nat)
    requires GoodHistory(h) && i < j < |h|
    ensures h[i].identity == h[j].identity
    ensures h[i].completedSteps <= h[j].completedSteps
    ensures h[i].heartbeatAt.Some? ==> h[j].heartbeatAt.Some? && h[i].heartbeatAt.value <= h[j].heartbeatAt.value
    ensures h[i].startedAt.Some? ==> h[j].startedAt == h[i].startedAt
    ensures h[i].traceId != "" ==> h[j].traceId == h[i].traceId && h[j].rootSpanId == h[i].rootSpanId
    decreases j - i
  {
    if i + 1 < j { EvolvesAcross(h, i + 1, j); }
    assert Evolves(h[i], h[i + 1]);
  }

  /** The committed versions read together: between any two of them nothing goes back, what is written once
      stays, and a terminal version is the last one there will ever be. */
  lemma CommittedVersionsOnlyAdvance(cfg: Config, actions: seq<Action>, i: nat, j: nat)
    requires i < j < |Run(cfg, actions).history|
    ensures var h := Run(cfg, actions).history;
            && h[i].version == i && h[j].version == j
            && !Terminal(h[i].status) && h[i].outcome == NoOutcome
            && ValidTransition(h[j - 1].status, h[j].status)
            && h[i].completedSteps <= h[j].completedSteps <= TotalSteps(h[j].identity.scenario)
            && (h[i].heartbeatAt.Some? ==> h[j].heartbeatAt.Some? && h[i].heartbeatAt.value <= h[j].heartbeatAt.value)
            && (h[i].startedAt.Some? ==> h[j].startedAt == h[i].startedAt)
            && (h[i].traceId != "" ==> h[j].traceId == h[i].traceId && h[j].rootSpanId == h[i].rootSpanId)
            && (Terminal(h[j].status) ==>
                  && j == |h| - 1 && h[j].completedAt.Some?
                  && OutcomeAllowed(h[j].identity.scenario, h[j].status, h[j].outcome))
  {
    EveryRunIsSafe(cfg, actions);
    var h := Run(cfg, actions).history;
    EvolvesAcross(h, i, j);
    assert GoodRun(h[i]) && GoodRun(h[j]);
    assert Evolves(h[j - 1], h[j]);
  }

  lemma TerminalStops(cfg: Config, s: System, a: Action)
    requires Inv(s) && s.history != [] && Terminal(Last(s.history).status)
    ensures Step(cfg, s, a).history == s.history
  {
    StepKeeps(cfg, s, a);
    var next := Step(cfg, s, a).history;
    assert forall i :: 0 <= i < |next| - 1 ==> !Terminal(next[i].status);
  }

  /** A row that has become terminal is never written again, by anyone, in any continuation. */
  lemma {:induction false} TerminalRowIsFrozen(cfg: Config, actions: seq<Action>, more: seq<Action>)
    requires Run(cfg, actions).history != [] && Terminal(Last(Run(cfg, actions).history).status)
    ensures Run(cfg, actions + more).history == Run(cfg, actions).history
  {
    if more == [] {
      assert actions + more == actions;
    } else {
      var init, last := more[..|more| - 1], more[|more| - 1];
      TerminalRowIsFrozen(cfg, actions, init);
      assert (actions + more)[..|actions + more| - 1] == actions + init;
      EveryRunIsSafe(cfg, actions + init);
      TerminalStops(cfg, Run(cfg, actions + init), last);
    }
  }

  /** With a validated snapshot only a version conflict or the store can refuse the write. */
  lemma ValidatedWriteIsRefusedOnlyByVersion(h: seq<DemoRun>, run: DemoRun, s: Snapshot,
                                             pending: Option<Approval>, now: int, storeFails: bool)
    requires GoodHistory(h) && h != [] && ReadFrom(h, run) && ValidSnapshot(run, s)
    ensures Commit(h, run, Projected(run, s, pending, now), storeFails).None?
       <==> storeFails || run.version != Last(h).version
  {
    ReadIsGood(h, run);
    ProjectedIsLegal(run, s, pending, now);
  }
}
