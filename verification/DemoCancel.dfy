/** Cancel as the service runs it: one store shared with writers that may commit anything before each of
    its accesses, the approval service, the Runner, and the bounded retry loops. */
module DemoCancel {
  import opened Text
  import opened DemoRuns
  import opened DemoHistory

  /** What happens to the store right before one access: other writers' rows, then perhaps an outage. */
  datatype Turn = Turn(writes: seq<DemoRun>, fails: bool)

  datatype Call =
    | DenyTicket(ticket: string, accepted: bool)
    | AskRunner(runId: string)
    | WriteAttempt

  datatype CancelError =
    | Disabled | InvalidRequest | StateChanged | StoreFailed | RunnerFailed(error: RunnerError)

  datatype Update = Written(run: DemoRun) | Conflict | StoreError

  const MAX_NOTE_BYTES := 500

  /** Other writers go through the same store, so each of their rows raises the version. */
  function AfterOthers(stored: DemoRun, writes: seq<DemoRun>): DemoRun
    decreases |writes|
  {
    if writes == [] then stored
    else AfterOthers(writes[0].(version := stored.version + 1), writes[1..])
  }

  /** The row the next read sees. */
  function NextRow(stored: DemoRun, turns: seq<Turn>): DemoRun {
    if turns == [] then stored else AfterOthers(stored, turns[0].writes)
  }

  predicate NextFails(turns: seq<Turn>) {
    turns != [] && turns[0].fails
  }

  predicate OnlyWrites(calls: seq<Call>) {
    forall i :: 0 <= i < |calls| ==> calls[i].WriteAttempt?
  }

  predicate ShowsDenied(run: DemoRun, ticket: string, session: string) {
    ticket != "" ==>
      run.approval == Some(Approval(ticket, session, "denied"))
  }

  /** What a successful marking loop leaves in the store. */
  predicate MarkedBy(kind: Mark, run: DemoRun) {
    match kind
    case MarkRequested => !Terminal(run.status) && run.reason == CANCEL_REQUESTED
    case MarkLost => run.status == Interrupted && run.outcome == OutcomeCancelled && run.reason == RUN_LOST
    case MarkContract => run.status == Interrupted && run.outcome == OutcomeFailed && run.reason == CONTRACT_MISMATCH
    case MarkDenied => !Terminal(run.status)
  }

  predicate CancelSettled(run: DemoRun) {
    || (run.status == Cancelled && run.outcome == OutcomeCancelled)
    || MarkedBy(MarkLost, run)
    || MarkedBy(MarkRequested, run)
  }

  /** The calls Cancel makes outside the store, given the run it loaded. */
  function OutsideCalls(loaded: DemoRun, denialAccepted: bool): seq<Call> {
    if Terminal(loaded.status) then []
    else if !AwaitsTicket(loaded) then [AskRunner(loaded.identity.runId)]
    else if loaded.approval.value.sessionId != loaded.identity.sessionId then []
    else
      [DenyTicket(loaded.approval.value.ticketId, denialAccepted)]
      + if denialAccepted then [AskRunner(loaded.identity.runId)] else []
  }

  function DeniedTicket(loaded: DemoRun): string {
    if AwaitsTicket(loaded) then loaded.approval.value.ticketId else ""
  }

  lemma MarkIsSettled(kind: Mark, stored: DemoRun, ticket: string, session: string, now: int)
    ensures var c := CancellationCandidate(stored, ticket, session);
            c.Some? ==>
              var run := Marked(kind, c.value, now);
              ShowsDenied(run, ticket, session) && MarkedBy(kind, run) && ValidTransition(stored.status, run.status)
  {
  }

  /** Whatever the Runner's snapshot says, the denial the candidate carries survives it unless the Runner
      claims the run succeeded. */
  lemma AppliedKeepsDenial(candidate: DemoRun, s: Snapshot, ticket: string, session: string, now: int)
    requires ShowsDenied(candidate, ticket, session)
    ensures var applied := ApplySnapshot(candidate, s, None, now);
            applied.Changed? ==>
              applied.candidate.outcome != Approved ==> ShowsDenied(applied.candidate, ticket, session)
  {
  }

  class Service {
    var stored: DemoRun
    var turns: seq<Turn>
    var calls: seq<Call>

    constructor (stored: DemoRun, turns: seq<Turn>)
      ensures this.stored == stored && this.turns == turns && calls == []
    {
      this.stored, this.turns, this.calls := stored, turns, [];
    }

    method Read() returns (run: Option<DemoRun>)
      modifies this`stored, this`turns
      ensures stored == NextRow(old(stored), old(turns))
      ensures run == if NextFails(old(turns)) then None else Some(stored)
    {
      var fails := false;
      if turns != [] {
        fails := turns[0].fails;
        stored, turns := AfterOthers(stored, turns[0].writes), turns[1..];
      }
      run := if fails then None else Some(stored);
    }

    /** persist: the transition check, then the store's compare-and-swap. */
    method Persist(previous: DemoRun, candidate: DemoRun) returns (result: Update)
      modifies this
      ensures result.Written? ==> stored == result.run == candidate.(version := previous.version + 1)
      ensures result.Written? ==> ValidTransition(previous.status, candidate.status)
      ensures result.Written? <==>
                ValidTransition(previous.status, candidate.status) && !NextFails(old(turns))
                && NextRow(old(stored), old(turns)).version == previous.version
      ensures old(calls) <= calls <= old(calls) + [WriteAttempt]
    {
      if !ValidTransition(previous.status, candidate.status) {
        return Conflict;
      }
      calls := calls + [WriteAttempt];
      var current := Read();
      if current.None? {
        return StoreError;
      }
      match Persisted(current.value, previous, candidate)
      case None => result := Conflict;
      case Some(row) =>
        stored := row;
        result := Written(row);
    }

    /** persistCancelRequested, persistRunnerLostCancellation, persistRunnerContractCancellation and
        persistDeniedCancellationApproval. */
    method PersistMarked(kind: Mark, ticket: string, session: string, now: int)
      returns (result: Result<DemoRun, CancelError>)
      modifies this
      ensures result.Ok? ==> stored == result.value
      ensures result.Ok? ==> ShowsDenied(stored, ticket, session) && MarkedBy(kind, stored)
      ensures old(calls) <= calls && |calls| <= |old(calls)| + MAX_TRIES && OnlyWrites(calls[|old(calls)|..])
    {
      for attempt := 0 to MAX_TRIES
        invariant old(calls) <= calls && |calls| <= |old(calls)| + attempt
        invariant OnlyWrites(calls[|old(calls)|..])
      {
        var previous := Read();
        if previous.None? {
          return Err(StoreFailed);
        }
        var candidate := CancellationCandidate(previous.value, ticket, session);
        if candidate.None? {
          return Err(StateChanged);
        }
        MarkIsSettled(kind, previous.value, ticket, session, now);
        var updated := Persist(previous.value, Marked(kind, candidate.value, now));
        if updated.StoreError? {
          return Err(StoreFailed);
        }
        if updated.Written? {
          return Ok(updated.run);
        }
      }
      result := Err(StateChanged);
    }

    method PersistRunnerCancellation(ticket: string, session: string, snapshot: Snapshot, now: int)
      returns (result: Result<DemoRun, CancelError>)
      modifies this
      ensures result.Ok? ==> stored == result.value
      ensures result.Ok? ==> ShowsDenied(stored, ticket, session) && CancelSettled(stored)
      ensures old(calls) <= calls && |calls| <= |old(calls)| + 2 * MAX_TRIES && OnlyWrites(calls[|old(calls)|..])
    {
      for attempt := 0 to MAX_TRIES
        invariant old(calls) <= calls && |calls| <= |old(calls)| + attempt
        invariant OnlyWrites(calls[|old(calls)|..])
      {
        var previous := Read();
        if previous.None? {
          return Err(StoreFailed);
        }
        var loaded := CancellationCandidate(previous.value, ticket, session);
        if loaded.None? {
          return Err(StateChanged);
        }
        var candidate := loaded.value;
        MarkIsSettled(MarkDenied, previous.value, ticket, session, now);
        match ApplySnapshot(candidate, snapshot, None, now)
        case Mismatch =>
          return Err(RunnerFailed(RunnerContract));
        case Unchanged =>
          result := PersistMarked(MarkRequested, ticket, session, now);
          return;
        case Changed(next) =>
          AppliedKeepsDenial(candidate, snapshot, ticket, session, now);
          var updated := Persist(candidate, next);
          if updated.StoreError? {
            return Err(StoreFailed);
          }
          if updated.Written? {
            if !Terminal(updated.run.status) {
              result := PersistMarked(MarkRequested, ticket, session, now);
              return;
            }
            if updated.run.status != Cancelled || updated.run.outcome != OutcomeCancelled {
              return Err(StateChanged);
            }
            return Ok(updated.run);
          }
      }
      result := Err(StateChanged);
    }

    /** Cancel. The Runner is told to cancel a waiting run only after exactly its own pending ticket was
        denied; success means the row now in the store shows that denial and the cancellation. */
    method Cancel(enabled: bool, confirmed: bool, note: string,
                  denialAccepted: bool, reply: RunnerReply, now: int)
      returns (result: Result<DemoRun, CancelError>)
      modifies this
      ensures var admitted := enabled && confirmed && Trim(note) != "" && |Trim(note)| <= MAX_NOTE_BYTES;
              var loaded := NextRow(old(stored), old(turns));
              && (!admitted ==> result.Err? && calls == old(calls) && stored == old(stored))
              && (admitted && NextFails(old(turns)) ==> result.Err? && calls == old(calls))
              && (admitted && !NextFails(old(turns)) ==>
                    && old(calls) + OutsideCalls(loaded, denialAccepted) <= calls
                    && OnlyWrites(calls[|old(calls) + OutsideCalls(loaded, denialAccepted)|..])
                    && |calls| <= |old(calls) + OutsideCalls(loaded, denialAccepted)| + 3 * MAX_TRIES
                    && (result.Ok? ==> stored == result.value)
                    && (result.Ok? && Terminal(loaded.status) ==> stored == loaded)
                    && (result.Ok? && !Terminal(loaded.status) ==>
                          && ShowsDenied(stored, DeniedTicket(loaded), loaded.identity.sessionId)
                          && CancelSettled(stored)))
    {
      if !enabled {
        return Err(Disabled);
      }
      if !confirmed || Trim(note) == "" || |Trim(note)| > MAX_NOTE_BYTES {
        return Err(InvalidRequest);
      }
      var read := Read();
      if read.None? {
        return Err(StoreFailed);
      }
      var run := read.value;
      if Terminal(run.status) {
        return Ok(run);
      }
      var ticket := "";
      if AwaitsTicket(run) {
        if run.approval.value.sessionId != run.identity.sessionId {
          return Err(StateChanged);
        }
        calls := calls + [DenyTicket(run.approval.value.ticketId, denialAccepted)];
        if !denialAccepted {
          return Err(StateChanged);
        }
        ticket := run.approval.value.ticketId;
      }
      calls := calls + [AskRunner(run.identity.runId)];
      ghost var outside := old(calls) + OutsideCalls(run, denialAccepted);
      assert calls == outside;
      match reply
      case Err(RunnerNotFound) =>
        result := PersistMarked(MarkLost, ticket, run.identity.sessionId, now);
      case Err(error) =>
        if ticket != "" {
          var marked := PersistMarked(MarkDenied, ticket, run.identity.sessionId, now);
          if marked.Err? {
            return marked;
          }
        }
        result := Err(RunnerFailed(error));
      case Ok(snapshot) =>
        result := PersistRunnerCancellation(ticket, run.identity.sessionId, snapshot, now);
        if result == Err(RunnerFailed(RunnerContract)) {
          var marked := PersistMarked(MarkContract, ticket, run.identity.sessionId, now);
          if marked.Err? {
            return marked;
          }
        }
    }
  }
}
