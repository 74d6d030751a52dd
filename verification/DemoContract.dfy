/** With a Runner whose own history is legal and only moves forward, no interleaving of Create, MonitorOnce
    and Cancel ever commits the run as `runner_contract_mismatch`. A monitor may still decide such an
    interrupt from a stale read; the version check then refuses it. */
module DemoContract {
  import opened Text
  import opened DemoRuns
  import opened DemoHistory

  function Rank(status: RunnerStatus): nat {
    match status
    case ReportsQueued => 0
    case ReportsStarting => 0
    case ReportsRunning => 1
    case _ => 2
  }

  /** The Runner's record may later look like `b` once it has looked like `a`. */
  predicate Follows(a: Snapshot, b: Snapshot) {
    && b.identity == a.identity && b.totalSteps == a.totalSteps
    && Rank(a.status) <= Rank(b.status) && (Rank(a.status) == 2 ==> b.status == a.status)
    && a.completedSteps <= b.completedSteps
    && a.heartbeatAt <= b.heartbeatAt
    && (a.startedAt.Some? ==> b.startedAt == a.startedAt)
    && (a.traceId != "" ==> b.traceId == a.traceId && b.rootSpanId == a.rootSpanId)
  }

  predicate Legal(s: Snapshot) {
    WellFormedSnapshot(s.identity, TotalSteps(s.identity.scenario), s)
  }

  /** The Runner's one record of this run, once it has accepted the start request. */
  type Record = Option<Snapshot>

  predicate Progress(before: Record, after: Record) {
    match before
    case None => after.None?
    case Some(a) => after.Some? && Legal(after.value) && Follows(a, after.value)
  }

  /** A reply read off the Runner's record as it stands after the call. The Runner may lose the run or be
      unreachable at any time; it never answers with a malformed document. */
  predicate HonestReply(reply: RunnerReply, after: Record) {
    match reply
    case Ok(s) => after == Some(s)
    case Err(e) => e != RunnerContract
  }

  /** One step of the system together with the Runner's own progress around it. */
  predicate HonestAction(s: System, before: Record, a: Action, after: Record) {
    match a
    case CreateStart(reply, _) =>
      if s.creator.Launching? then
        && before.None?
        && HonestReply(reply, after)
        && (after.Some? ==> Legal(after.value) && after.value.identity == s.creator.starting.identity)
      else Progress(before, after)
    case MonitorGet(reply, _, _) => Progress(before, after) && HonestReply(reply, after)
    case MonitorTimeout(_, reply, _) => Progress(before, after) && HonestReply(reply, after)
    case CancelAsk(_, reply, _) => Progress(before, after) && HonestReply(reply, after)
    case _ => Progress(before, after)
  }

  datatype Event = Event(action: Action, after: Record)

  function Actions(events: seq<Event>): (actions: seq<Action>)
    ensures |actions| == |events|
    ensures forall i :: 0 <= i < |events| ==> actions[i] == events[i].action
  {
    seq(|events|, i requires 0 <= i < |events| => events[i].action)
  }

  function RecordAfter(events: seq<Event>): Record {
    if events == [] then None else events[|events| - 1].after
  }

  predicate Honest(cfg: Config, events: seq<Event>) {
    events == [] ||
    var earlier, last := events[..|events| - 1], events[|events| - 1];
    && Honest(cfg, earlier)
    && HonestAction(Run(cfg, Actions(earlier)), RecordAfter(earlier), last.action, last.after)
  }

  // ---- Validation is monotone in the Runner's history ----

  lemma LaterSnapshotStaysValid(run: DemoRun, a: Snapshot, b: Snapshot)
    requires run.status != Queued && ValidSnapshot(run, a) && Follows(a, b) && Legal(b)
    requires run.totalSteps == TotalSteps(run.identity.scenario)
    ensures ValidSnapshot(run, b)
  {
  }

  lemma AppliedSnapshotStaysValid(run: DemoRun, s: Snapshot, pending: Option<Approval>, now: int)
    requires run.status != Queued && ValidSnapshot(run, s)
    ensures var next := Projected(run, s, pending, now); next.status != Queued && ValidSnapshot(next, s)
  {
  }

  // ---- The invariant ----

  /** `s` is acceptable to the committed row: nothing is asked once the row is terminal. */
  predicate Accepts(row: DemoRun, s: Snapshot) {
    Terminal(row.status) || (row.status != Queued && ValidSnapshot(row, s))
  }

  predicate Fresh(run: DemoRun) {
    && run.status in {Queued, Starting}
    && run.completedSteps == 0 && run.heartbeatAt.None? && run.startedAt.None? && run.traceId == ""
    && run.totalSteps == TotalSteps(run.identity.scenario)
  }

  predicate NoMismatch(h: seq<DemoRun>) {
    forall i :: 0 <= i < |h| ==> h[i].reason != CONTRACT_MISMATCH
  }

  /** A write whose candidate carries the mismatch reason must already be stale. */
  predicate HarmlessWrite(h: seq<DemoRun>, previous: DemoRun, candidate: DemoRun) {
    candidate.reason == CONTRACT_MISMATCH ==> previous.version < |h| - 1
  }

  /** Until the Runner has a record, a row that has not ended is untouched. */
  predicate BeforeStart(s: System) {
    && (s.history == [] || Terminal(Last(s.history).status) || Fresh(Last(s.history)))
    && (match s.creator
        case CreatorWrites(_, candidate) => Terminal(candidate.status)
        case _ => true)
    && (match s.control
        case Monitoring(run) => Fresh(run)
        case Cancelling(run) => Fresh(run)
        case Applying(_, _, _) => false
        case Marking(kind, _, _) => kind == MarkLost
        case Writing(_, candidate, after) =>
          Terminal(candidate.status) && !after.RetryApply? && (after.RetryMark? ==> after.kind == MarkLost)
        case Idle => true)
  }

  predicate CreatorInv(h: seq<DemoRun>, c: Creator, record: Record) {
    match c
    case NotCalled => record.None?
    case Promoting(run) => record.None? && Fresh(run) && run.reason == ""
    case Launching(run) => record.None? && Fresh(run) && run.reason == "" && h != [] && Last(h).status != Queued
    case CreatorWrites(_, candidate) =>
      candidate.reason != CONTRACT_MISMATCH && (record.Some? ==> Accepts(candidate, record.value))
    case CreateReturned => true
  }

  /** The snapshot a Cancel holds is acceptable now and after whatever Create may still commit. */
  predicate HeldSnapshot(s: System, held: Snapshot, record: Record) {
    && record.Some? && Legal(held) && Follows(held, record.value)
    && s.history != [] && Accepts(Last(s.history), held)
    && (s.creator.CreatorWrites? ==> Accepts(s.creator.candidate, held))
  }

  predicate AfterWriteInv(s: System, candidate: DemoRun, after: AfterWrite, record: Record) {
    match after
    case Finish => true
    case RetryApply(_, held, _) => candidate.reason != CONTRACT_MISMATCH && HeldSnapshot(s, held, record)
    case RetryMark(kind, _, _) => candidate.reason != CONTRACT_MISMATCH && kind != MarkContract
  }

  predicate ControlInv(s: System, record: Record) {
    match s.control
    case Idle => true
    case Monitoring(run) => run.reason != CONTRACT_MISMATCH
    case Cancelling(run) => run.reason != CONTRACT_MISMATCH
    case Applying(_, held, _) => HeldSnapshot(s, held, record)
    case Marking(kind, _, _) => kind != MarkContract
    case Writing(previous, candidate, after) =>
      && HarmlessWrite(s.history, previous, candidate)
      && (record.Some? && previous.version == |s.history| - 1 ==> Accepts(candidate, record.value))
      && AfterWriteInv(s, candidate, after, record)
  }

  predicate RecordInv(h: seq<DemoRun>, record: Record) {
    record.Some? ==> Legal(record.value) && h != [] && Accepts(Last(h), record.value)
  }

  predicate ContractInv(s: System, record: Record) {
    && Inv(s)
    && NoMismatch(s.history)
    && RecordInv(s.history, record)
    && (record.None? ==> BeforeStart(s))
    && CreatorInv(s.history, s.creator, record)
    && ControlInv(s, record)
  }

  // ---- The Runner moves on its own ----

  lemma FollowsIsTransitive(a: Snapshot, b: Snapshot, c: Snapshot)
    requires Follows(a, b) && Follows(b, c)
    ensures Follows(a, c)
  {
  }

  lemma LaterSnapshotIsAccepted(row: DemoRun, a: Snapshot, b: Snapshot)
    requires GoodRun(row) && Accepts(row, a) && Follows(a, b) && Legal(b)
    ensures Accepts(row, b)
  {
    if !Terminal(row.status) { LaterSnapshotStaysValid(row, a, b); }
  }

  lemma RunnerProgressKeeps(s: System, before: Record, after: Record)
    requires ContractInv(s, before) && Progress(before, after)
    ensures ContractInv(s, after)
  {
    if before.Some? {
      var a, b := before.value, after.value;
      assert GoodRun(Last(s.history));
      LaterSnapshotIsAccepted(Last(s.history), a, b);
      if s.creator.CreatorWrites? { LaterSnapshotIsAccepted(s.creator.candidate, a, b); }
      if s.control.Writing? && s.control.previous.version == |s.history| - 1 {
        LaterSnapshotIsAccepted(s.control.candidate, a, b);
      }
      if s.control.Applying? { FollowsIsTransitive(s.control.snapshot, a, b); }
      if s.control.Writing? && s.control.after.RetryApply? {
        FollowsIsTransitive(s.control.after.snapshot, a, b);
      }
    }
  }

  // ---- Each step keeps the invariant ----

  lemma CommitGrows(h: seq<DemoRun>, previous: DemoRun, candidate: DemoRun, storeFails: bool)
    requires GoodHistory(h) && GoodWrite(h, previous, candidate)
    ensures var c := Commit(h, previous, candidate, storeFails);
            c.Some? ==>
              && c.value == h + [candidate.(version := |h|)]
              && previous.version == |h| - 1 && previous.status == Last(h).status
  {
    assert previous.(approval := h[previous.version].approval) == h[previous.version];
  }

  lemma CommittedIsAccepted(candidate: DemoRun, version: int, s: Snapshot)
    ensures Accepts(candidate.(version := version), s) == Accepts(candidate, s)
  {
  }

  lemma PromoteKeeps(cfg: Config, s: System, record: Record, a: Action)
    requires ContractInv(s, record) && a.CreatePromote?
    ensures ContractInv(Step(cfg, s, a), record)
  {
    StepKeeps(cfg, s, a);
    if s.creator.Promoting? {
      var queued := s.creator.queued;
      ReadIsGood(s.history, queued);
      CommitGrows(s.history, queued, queued.(status := Starting), a.storeFails);
    }
  }

  lemma CreateCommitKeeps(cfg: Config, s: System, record: Record, a: Action)
    requires ContractInv(s, record) && a.CreateCommit?
    ensures ContractInv(Step(cfg, s, a), record)
  {
    StepKeeps(cfg, s, a);
    if s.creator.CreatorWrites? {
      var candidate := s.creator.candidate;
      CommitGrows(s.history, s.creator.previous, candidate, a.storeFails);
      if record.Some? { CommittedIsAccepted(candidate, |s.history|, record.value); }
      if s.control.Applying? { CommittedIsAccepted(candidate, |s.history|, s.control.snapshot); }
      if s.control.Writing? && s.control.after.RetryApply? {
        CommittedIsAccepted(candidate, |s.history|, s.control.after.snapshot);
      }
    }
  }

  lemma IdentityIsFixed(h: seq<DemoRun>, run: DemoRun)
    requires GoodHistory(h) && ReadFrom(h, run)
    ensures run.identity == Last(h).identity
  {
    assert run.identity == h[run.version].identity;
    if run.version < |h| - 1 { EvolvesAcross(h, run.version, |h| - 1); }
  }

  lemma FreshAcceptsAnyLegalSnapshot(run: DemoRun, s: Snapshot)
    requires Fresh(run) && run.status == Starting && Legal(s) && s.identity == run.identity
    ensures Accepts(run, s)
  {
  }

  lemma StartKeeps(cfg: Config, s: System, after: Record, reply: RunnerReply, now: int)
    requires ContractInv(s, None) && s.creator.Launching?
    requires HonestAction(s, None, CreateStart(reply, now), after)
    ensures ContractInv(Step(cfg, s, CreateStart(reply, now)), after)
  {
    StepKeeps(cfg, s, CreateStart(reply, now));
    var run := s.creator.starting;
    IdentityIsFixed(s.history, run);
    if after.Some? && Fresh(Last(s.history)) {
      FreshAcceptsAnyLegalSnapshot(Last(s.history), after.value);
    }
    if reply.Ok? {
      FreshAcceptsAnyLegalSnapshot(run, reply.value);
      AppliedSnapshotStaysValid(run, reply.value, None, now);
    }
  }

  lemma ReadKeeps(cfg: Config, s: System, record: Record, a: Action)
    requires ContractInv(s, record) && (a.CreateInsert? || a.MonitorRead? || a.CancelRead?)
    ensures ContractInv(Step(cfg, s, a), record)
  {
    StepKeeps(cfg, s, a);
    assert s.history != [] ==> Last(s.history).reason != CONTRACT_MISMATCH;
  }

  lemma TimeoutKeeps(cfg: Config, s: System, record: Record, a: Action)
    requires ContractInv(s, record) && a.MonitorTimeout?
    ensures ContractInv(Step(cfg, s, a), record)
  {
    StepKeeps(cfg, s, a);
  }

  /** A run read at the current version accepts what the Runner answers now. */
  lemma CurrentReadAccepts(s: System, run: DemoRun, answer: Snapshot)
    requires ContractInv(s, Some(answer)) && ReadFrom(s.history, run) && run.version == |s.history| - 1
    ensures run.status != Queued && ValidSnapshot(run, answer)
  {
    assert run.(approval := Last(s.history).approval) == Last(s.history);
    assert ValidSnapshot(Last(s.history), answer);
  }

  lemma GetKeeps(cfg: Config, s: System, record: Record, a: Action)
    requires ContractInv(s, record) && a.MonitorGet? && HonestReply(a.reply, record)
    ensures ContractInv(Step(cfg, s, a), record)
  {
    StepKeeps(cfg, s, a);
    if s.control.Monitoring? && a.reply.Ok? {
      var run, answer := s.control.run, a.reply.value;
      if run.version == |s.history| - 1 {
        CurrentReadAccepts(s, run, answer);
        AppliedSnapshotStaysValid(run, answer, a.pending, a.now);
      }
    }
  }

  lemma AskKeeps(cfg: Config, s: System, record: Record, a: Action)
    requires ContractInv(s, record) && a.CancelAsk? && HonestReply(a.reply, record)
    ensures ContractInv(Step(cfg, s, a), record)
  {
    StepKeeps(cfg, s, a);
    if s.control.Cancelling? && record.None? {
      assert !AwaitsTicket(s.control.run);
    }
  }

  lemma LoadToApplyKeeps(s: System, record: Record, now: int)
    requires ContractInv(s, record) && s.control.Applying?
    ensures ControlInv(s.(control := LoadToApply(Last(s.history), s.control.goal, s.control.snapshot, s.control.tries, now)), record)
  {
    var held := s.control.snapshot;
    var loaded := CancellationCandidate(Last(s.history), s.control.goal.ticket, s.control.goal.session);
    if loaded.Some? {
      var run := loaded.value;
      assert Accepts(Last(s.history), held) && ValidSnapshot(run, held) && run.status != Queued;
      AppliedSnapshotStaysValid(run, held, None, now);
      var next := Projected(run, held, None, now);
      assert GoodRun(Last(s.history)) && GoodRun(run);
      ProjectedIsLegal(run, held, None, now);
      LaterSnapshotIsAccepted(next, held, record.value);
      assert Last(s.history).reason != CONTRACT_MISMATCH;
    }
  }

  lemma LoadToMarkKeeps(s: System, record: Record, now: int)
    requires ContractInv(s, record) && s.control.Marking? && s.history != []
    ensures ControlInv(s.(control := LoadToMark(Last(s.history), s.control.kind, s.control.goal, s.control.tries, now)), record)
  {
    assert Last(s.history).reason != CONTRACT_MISMATCH;
  }

  lemma LoadKeeps(cfg: Config, s: System, record: Record, a: Action)
    requires ContractInv(s, record) && a.CancelLoad?
    ensures ContractInv(Step(cfg, s, a), record)
  {
    StepKeeps(cfg, s, a);
    if s.control.Applying? {
      LoadToApplyKeeps(s, record, a.now);
    } else if s.control.Marking? && s.history != [] {
      LoadToMarkKeeps(s, record, a.now);
    }
  }

  lemma ControlCommitKeeps(cfg: Config, s: System, record: Record, a: Action)
    requires ContractInv(s, record) && a.ControlCommit?
    ensures ContractInv(Step(cfg, s, a), record)
  {
    StepKeeps(cfg, s, a);
    if s.control.Writing? {
      var candidate := s.control.candidate;
      CommitGrows(s.history, s.control.previous, candidate, a.storeFails);
      if record.Some? { CommittedIsAccepted(candidate, |s.history|, record.value); }
    }
  }

  lemma HonestStepKeeps(cfg: Config, s: System, before: Record, a: Action, after: Record)
    requires ContractInv(s, before) && HonestAction(s, before, a, after)
    ensures ContractInv(Step(cfg, s, a), after)
  {
    if a.CreateStart? && s.creator.Launching? {
      StartKeeps(cfg, s, after, a.reply, a.now);
    } else {
      RunnerProgressKeeps(s, before, after);
      match a
      case CreatePromote(_) => PromoteKeeps(cfg, s, after, a);
      case CreateStart(_, _) =>
      case CreateCommit(_) => CreateCommitKeeps(cfg, s, after, a);
      case MonitorTimeout(_, _, _) => TimeoutKeeps(cfg, s, after, a);
      case MonitorGet(_, _, _) => GetKeeps(cfg, s, after, a);
      case CancelAsk(_, _, _) => AskKeeps(cfg, s, after, a);
      case CancelLoad(_) => LoadKeeps(cfg, s, after, a);
      case ControlCommit(_) => ControlCommitKeeps(cfg, s, after, a);
      case _ => ReadKeeps(cfg, s, after, a);
    }
  }

  lemma {:induction false} HonestRunKeeps(cfg: Config, events: seq<Event>)
    requires Honest(cfg, events)
    ensures ContractInv(Run(cfg, Actions(events)), RecordAfter(events))
  {
    if events != [] {
      var earlier, last := events[..|events| - 1], events[|events| - 1];
      HonestRunKeeps(cfg, earlier);
      var actions := Actions(events);
      assert actions[..|actions| - 1] == Actions(earlier);
      HonestStepKeeps(cfg, Run(cfg, Actions(earlier)), RecordAfter(earlier), last.action, last.after);
    }
  }

  /** The theorem: under an honest Runner no committed version, in any interleaving, is a contract mismatch. */
  lemma HonestRunnerIsNeverBlamed(cfg: Config, events: seq<Event>)
    requires Honest(cfg, events)
    ensures forall i :: 0 <= i < |Run(cfg, Actions(events)).history| ==>
              Run(cfg, Actions(events)).history[i].reason != CONTRACT_MISMATCH
  {
    HonestRunKeeps(cfg, events);
  }

  // ---- The theorem is not about runs that never come close ----

  /** Some honest run ends in `s` with the Runner's record `record`. */
  ghost predicate Reachable(cfg: Config, s: System, record: Record) {
    exists events :: Honest(cfg, events) && Run(cfg, Actions(events)) == s && RecordAfter(events) == record
  }

  lemma ReachInitial(cfg: Config)
    ensures Reachable(cfg, INITIAL, None)
  {
    var none: seq<Event> := [];
    assert Honest(cfg, none) && Run(cfg, Actions(none)) == INITIAL && RecordAfter(none) == None;
  }

  lemma ReachStep(cfg: Config, s: System, before: Record, a: Action, after: Record)
    requires Reachable(cfg, s, before) && HonestAction(s, before, a, after)
    ensures Reachable(cfg, Step(cfg, s, a), after)
  {
    var events :| Honest(cfg, events) && Run(cfg, Actions(events)) == s && RecordAfter(events) == before;
    var longer := events + [Event(a, after)];
    assert longer[..|longer| - 1] == events;
    assert Actions(longer)[..|longer| - 1] == Actions(events);
    assert Honest(cfg, longer) && Run(cfg, Actions(longer)) == Step(cfg, s, a);
  }

  const SAMPLE_ID := Identity("run", HappyPath, 0, "task", "session", "request")
  const SAMPLE_ANSWER := Snapshot(SAMPLE_ID, ReportsRunning, NoOutcome, "", "", "bootstrap", 0, 9, Some(2), None, 2, "")
  const SAMPLE_QUEUED := NewRun(SAMPLE_ID, 1)
  const SAMPLE_STARTING := SAMPLE_QUEUED.(status := Starting, version := 1)

  lemma ReachStaleRead(cfg: Config)
    ensures Reachable(cfg, System([SAMPLE_QUEUED, SAMPLE_STARTING], Launching(SAMPLE_STARTING), Monitoring(SAMPLE_QUEUED)), None)
  {
    ReachInitial(cfg);
    ReachStep(cfg, INITIAL, None, CreateInsert(SAMPLE_ID, 1), None);
    var created := System([SAMPLE_QUEUED], Promoting(SAMPLE_QUEUED), Idle);
    assert Step(cfg, INITIAL, CreateInsert(SAMPLE_ID, 1)) == created;
    ReachStep(cfg, created, None, MonitorRead, None);
    var read := created.(control := Monitoring(SAMPLE_QUEUED));
    assert Step(cfg, created, MonitorRead) == read;
    ReachStep(cfg, read, None, CreatePromote(false), None);
  }

  lemma StaleReadMismatches(cfg: Config, s: System)
    requires cfg.runTimeout > 9 && s.control == Monitoring(SAMPLE_QUEUED)
    ensures Step(cfg, s, MonitorGet(Ok(SAMPLE_ANSWER), None, 3)) ==
            s.(control := Writing(SAMPLE_QUEUED, InterruptedForContract(SAMPLE_QUEUED, 3), Finish))
  {
    assert !ValidSnapshot(SAMPLE_QUEUED, SAMPLE_ANSWER);
  }

  lemma SampleStartIsHonest(s: System)
    requires s.creator == Launching(SAMPLE_STARTING)
    ensures HonestAction(s, None, CreateStart(Ok(SAMPLE_ANSWER), 2), Some(SAMPLE_ANSWER))
  {
  }

  lemma StaleWriteIsRefused(cfg: Config, s: System)
    requires s.history == [SAMPLE_QUEUED, SAMPLE_STARTING]
    requires s.control == Writing(SAMPLE_QUEUED, InterruptedForContract(SAMPLE_QUEUED, 3), Finish)
    ensures s.control.candidate.reason == CONTRACT_MISMATCH
    ensures Step(cfg, s, ControlCommit(false)).history == s.history
  {
  }

  /** An honest run in which Monitor, holding a read from before Create's promotion, decides to interrupt for a
      contract mismatch, and the version check is all that stops it. */
  lemma StaleInterruptIsDecidedThenRefused(cfg: Config) returns (s: System)
    requires cfg.runTimeout > 9
    ensures Reachable(cfg, s, Some(SAMPLE_ANSWER))
    ensures s.control.Writing? && s.control.candidate.reason == CONTRACT_MISMATCH
    ensures Step(cfg, s, ControlCommit(false)).history == s.history
  {
    s := System([SAMPLE_QUEUED, SAMPLE_STARTING], Launching(SAMPLE_STARTING), Monitoring(SAMPLE_QUEUED));
    var start, get := CreateStart(Ok(SAMPLE_ANSWER), 2), MonitorGet(Ok(SAMPLE_ANSWER), None, 3);
    ReachStaleRead(cfg);
    SampleStartIsHonest(s);
    ReachStep(cfg, s, None, start, Some(SAMPLE_ANSWER));
    s := Step(cfg, s, start);
    ReachStep(cfg, s, Some(SAMPLE_ANSWER), get, Some(SAMPLE_ANSWER));
    StaleReadMismatches(cfg, s);
    s := Step(cfg, s, get);
    StaleWriteIsRefused(cfg, s);
  }
}
