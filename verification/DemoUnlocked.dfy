/** What `controlMu` is for. Two control calls, a MonitorOnce and a Cancel, beside Create, with nothing that keeps
    them apart: runs in which they do exclude each other are the runs of the locked machine, and one in which they
    overlap commits a contract mismatch against an honest Runner. */
module DemoUnlocked {
  import opened Text
  import opened DemoRuns
  import opened DemoHistory
  import opened DemoContract

  datatype Both = Both(history: seq<DemoRun>, creator: Creator, monitor: Control, cancel: Control)

  /** One step of either control call, or of Create, with the Runner's record after it. */
  datatype Turn = Turn(cancelling: bool, action: Action, after: Record)

  function Seen(s: Both, cancelling: bool): System {
    System(s.history, s.creator, if cancelling then s.cancel else s.monitor)
  }

  function Other(s: Both, cancelling: bool): Control {
    if cancelling then s.monitor else s.cancel
  }

  function Move(cfg: Config, s: Both, t: Turn): Both {
    var next := Step(cfg, Seen(s, t.cancelling), t.action);
    if t.cancelling then Both(next.history, next.creator, s.monitor, next.control)
    else Both(next.history, next.creator, next.control, s.cancel)
  }

  function RunBoth(cfg: Config, turns: seq<Turn>): Both {
    if turns == [] then Both([], NotCalled, Idle, Idle)
    else Move(cfg, RunBoth(cfg, turns[..|turns| - 1]), turns[|turns| - 1])
  }

  function RecordOf(turns: seq<Turn>): Record {
    if turns == [] then None else turns[|turns| - 1].after
  }

  predicate HonestTurns(cfg: Config, turns: seq<Turn>) {
    turns == [] ||
    var earlier, last := turns[..|turns| - 1], turns[|turns| - 1];
    && HonestTurns(cfg, earlier)
    && HonestAction(Seen(RunBoth(cfg, earlier), last.cancelling), RecordOf(earlier), last.action, last.after)
  }

  predicate OfCreate(a: Action) {
    a.CreateInsert? || a.CreatePromote? || a.CreateStart? || a.CreateCommit?
  }

  /** Neither control call takes a step while the other is in progress. */
  predicate Excluding(cfg: Config, turns: seq<Turn>) {
    turns == [] ||
    var earlier, last := turns[..|turns| - 1], turns[|turns| - 1];
    && Excluding(cfg, earlier)
    && (OfCreate(last.action) || Other(RunBoth(cfg, earlier), last.cancelling) == Idle)
  }

  function Events(turns: seq<Turn>): (events: seq<Event>)
    ensures |events| == |turns|
  {
    if turns == [] then [] else Events(turns[..|turns| - 1]) + [Event(turns[|turns| - 1].action, RecordOf(turns))]
  }

  function Joined(s: Both): System {
    System(s.history, s.creator, if s.cancel == Idle then s.monitor else s.cancel)
  }

  predicate OneIdle(s: Both) {
    s.monitor == Idle || s.cancel == Idle
  }

  lemma CreateIgnoresControl(cfg: Config, s: System, control: Control, a: Action)
    requires OfCreate(a)
    ensures Step(cfg, s.(control := control), a) == Step(cfg, s, a).(control := control)
    ensures Step(cfg, s, a).control == s.control
  {
  }

  lemma MoveIsAStep(cfg: Config, s: Both, t: Turn)
    requires OneIdle(s) && (OfCreate(t.action) || Other(s, t.cancelling) == Idle)
    ensures OneIdle(Move(cfg, s, t)) && Joined(Move(cfg, s, t)) == Step(cfg, Joined(s), t.action)
  {
    if OfCreate(t.action) {
      CreateIgnoresControl(cfg, Seen(s, t.cancelling), Joined(s).control, t.action);
      assert Joined(s) == Seen(s, t.cancelling).(control := Joined(s).control);
    } else {
      assert Seen(s, t.cancelling) == Joined(s);
    }
  }

  lemma HonestyIsShared(s: Both, before: Record, t: Turn)
    ensures HonestAction(Seen(s, t.cancelling), before, t.action, t.after)
       <==> HonestAction(Joined(s), before, t.action, t.after)
  {
  }

  /** With the lock the two calls are the one control of the locked machine. */
  lemma {:induction false} ExcludingRunIsLocked(cfg: Config, turns: seq<Turn>)
    requires HonestTurns(cfg, turns) && Excluding(cfg, turns)
    ensures var s := RunBoth(cfg, turns);
            && OneIdle(s)
            && Run(cfg, Actions(Events(turns))) == Joined(s)
            && Honest(cfg, Events(turns)) && RecordAfter(Events(turns)) == RecordOf(turns)
  {
    if turns != [] {
      var earlier, last := turns[..|turns| - 1], turns[|turns| - 1];
      ExcludingRunIsLocked(cfg, earlier);
      var events := Events(turns);
      assert events[..|events| - 1] == Events(earlier);
      assert Actions(events)[..|events| - 1] == Actions(Events(earlier));
      MoveIsAStep(cfg, RunBoth(cfg, earlier), last);
      HonestyIsShared(RunBoth(cfg, earlier), RecordOf(earlier), last);
    }
  }

  lemma LockedRunIsNeverBlamed(cfg: Config, turns: seq<Turn>)
    requires HonestTurns(cfg, turns) && Excluding(cfg, turns)
    ensures NoMismatch(RunBoth(cfg, turns).history)
  {
    ExcludingRunIsLocked(cfg, turns);
    HonestRunnerIsNeverBlamed(cfg, Events(turns));
  }

  // ---- Without it ----

  lemma Extend(cfg: Config, turns: seq<Turn>, t: Turn)
    requires HonestTurns(cfg, turns)
    requires HonestAction(Seen(RunBoth(cfg, turns), t.cancelling), RecordOf(turns), t.action, t.after)
    ensures HonestTurns(cfg, turns + [t]) && RecordOf(turns + [t]) == t.after
    ensures RunBoth(cfg, turns + [t]) == Move(cfg, RunBoth(cfg, turns), t)
  {
    assert (turns + [t])[..|turns + [t]| - 1] == turns;
  }

  const EARLY := SAMPLE_ANSWER
  const LATE := SAMPLE_ANSWER.(heartbeatAt := 5)
  const RUNNING := Projected(SAMPLE_STARTING, EARLY, None, 2).(version := 2)
  const SEEN_LATE := Projected(RUNNING, LATE, None, 5).(version := 3)
  const GOAL := Goal("", "session")

  /** Create starts the run, and Cancel asks the Runner, which answers with its heartbeat of time 2. */
  lemma AskedEarly(cfg: Config) returns (turns: seq<Turn>)
    ensures HonestTurns(cfg, turns) && RecordOf(turns) == Some(EARLY)
    ensures RunBoth(cfg, turns) ==
            Both([SAMPLE_QUEUED, SAMPLE_STARTING, RUNNING], CreateReturned, Idle, Applying(GOAL, EARLY, MAX_TRIES))
  {
    turns := [];
    var t := Turn(true, CreateInsert(SAMPLE_ID, 1), None);
    Extend(cfg, turns, t);
    turns, t := turns + [t], Turn(true, CreatePromote(false), None);
    Extend(cfg, turns, t);
    turns, t := turns + [t], Turn(true, CreateStart(Ok(EARLY), 2), Some(EARLY));
    assert RunBoth(cfg, turns) == Both([SAMPLE_QUEUED, SAMPLE_STARTING], Launching(SAMPLE_STARTING), Idle, Idle);
    Extend(cfg, turns, t);
    turns, t := turns + [t], Turn(true, CreateCommit(false), Some(EARLY));
    Extend(cfg, turns, t);
    turns, t := turns + [t], Turn(true, CancelRead, Some(EARLY));
    assert RunBoth(cfg, turns) == Both([SAMPLE_QUEUED, SAMPLE_STARTING, RUNNING], CreateReturned, Idle, Idle);
    Extend(cfg, turns, t);
    turns, t := turns + [t], Turn(true, CancelAsk(false, Ok(EARLY), 3), Some(EARLY));
    Extend(cfg, turns, t);
    turns := turns + [t];
  }

  lemma LateSnapshotApplies(cfg: Config)
    requires cfg.runTimeout > 9
    ensures AfterGet(cfg, RUNNING, Ok(LATE), None, 5) == Writing(RUNNING, Projected(RUNNING, LATE, None, 5), Finish)
  {
  }

  const READ := Turn(false, MonitorRead, Some(LATE))
  const GET := Turn(false, MonitorGet(Ok(LATE), None, 5), Some(LATE))
  const COMMIT := Turn(false, ControlCommit(false), Some(LATE))

  lemma MonitorMoves(cfg: Config, s: Both) returns (read: Both, got: Both)
    requires cfg.runTimeout > 9 && |s.history| == 3 && Last(s.history) == RUNNING && s.monitor == Idle
    ensures read == Move(cfg, s, READ) && got == Move(cfg, read, GET)
    ensures Move(cfg, got, COMMIT) == s.(history := s.history + [SEEN_LATE])
  {
    LateSnapshotApplies(cfg);
    read, got := s.(monitor := Monitoring(RUNNING)),
                 s.(monitor := Writing(RUNNING, Projected(RUNNING, LATE, None, 5), Finish));
  }

  lemma LateFollowsEarly()
    ensures Progress(Some(EARLY), Some(LATE)) && Progress(Some(LATE), Some(LATE))
  {
  }

  /** Before Cancel applies that answer, MonitorOnce commits the Runner's heartbeat of time 5. */
  lemma MonitoredLate(cfg: Config) returns (turns: seq<Turn>)
    requires cfg.runTimeout > 9
    ensures HonestTurns(cfg, turns) && RecordOf(turns) == Some(LATE)
    ensures RunBoth(cfg, turns) ==
            Both([SAMPLE_QUEUED, SAMPLE_STARTING, RUNNING, SEEN_LATE], CreateReturned, Idle,
                 Applying(GOAL, EARLY, MAX_TRIES))
  {
    turns := AskedEarly(cfg);
    LateFollowsEarly();
    var read, got := MonitorMoves(cfg, RunBoth(cfg, turns));
    Extend(cfg, turns, READ);
    turns := turns + [READ];
    Extend(cfg, turns, GET);
    turns := turns + [GET];
    Extend(cfg, turns, COMMIT);
    turns := turns + [COMMIT];
  }

  lemma LateApplyMismatches(cfg: Config, s: Both)
    requires s.history != [] && Last(s.history) == SEEN_LATE && s.cancel == Applying(GOAL, EARLY, MAX_TRIES)
    ensures Move(cfg, s, Turn(true, CancelLoad(6), Some(LATE))) == s.(cancel := Marking(MarkContract, GOAL, MAX_TRIES))
  {
    assert !ValidSnapshot(SEEN_LATE, EARLY);
  }

  lemma MismatchIsWritten(cfg: Config, s: Both) returns (writing: Both)
    requires |s.history| == 4 && Last(s.history) == SEEN_LATE
    requires s.cancel == Marking(MarkContract, GOAL, MAX_TRIES)
    ensures writing == Move(cfg, s, Turn(true, CancelLoad(7), Some(LATE)))
    ensures var h := Move(cfg, writing, Turn(true, ControlCommit(false), Some(LATE))).history;
            |h| == 5 && Last(h).reason == CONTRACT_MISMATCH && Last(h).status == Interrupted
  {
    writing := Move(cfg, s, Turn(true, CancelLoad(7), Some(LATE)));
    assert writing.cancel ==
           Writing(SEEN_LATE, Marked(MarkContract, SEEN_LATE, 7), RetryMark(MarkContract, GOAL, MAX_TRIES - 1));
  }

  /** Cancel reloads the run, so the version matches, and its answer is by then older than the row: the run ends as
      a contract mismatch although the Runner never misbehaved. */
  lemma UnlockedCancelBlamesAnHonestRunner(cfg: Config) returns (turns: seq<Turn>)
    requires cfg.runTimeout > 9
    ensures HonestTurns(cfg, turns) && !Excluding(cfg, turns)
    ensures var h := RunBoth(cfg, turns).history;
            |h| == 5 && Last(h).reason == CONTRACT_MISMATCH && Last(h).status == Interrupted
  {
    turns := MonitoredLate(cfg);
    var load, mark, commit :=
      Turn(true, CancelLoad(6), Some(LATE)), Turn(true, CancelLoad(7), Some(LATE)),
      Turn(true, ControlCommit(false), Some(LATE));
    Extend(cfg, turns, load);
    LateApplyMismatches(cfg, RunBoth(cfg, turns));
    turns := turns + [load];
    Extend(cfg, turns, mark);
    var writing := MismatchIsWritten(cfg, RunBoth(cfg, turns));
    turns := turns + [mark];
    Extend(cfg, turns, commit);
    turns := turns + [commit];
    if Excluding(cfg, turns) { LockedRunIsNeverBlamed(cfg, turns); }
  }
}
