/** One connected reader of a stream against concurrent committers and retention. A committer commits and then
    notifies; the hub's capacity-one channel keeps at most one wake-up token. */
module EventStream {
  import opened Text
  import opened EventOutbox

  datatype Reader =
    | NotSubscribed
    | Subscribed                 // the first read is still to come
    | Waiting(last: int)         // blocked in select
    | Draining(last: int)        // a read is due
    | Disconnected

  /** `notified` is the highest sequence whose commit has been followed by a Notify. `resume` is where delivery
      starts: the cursor, the announced reset point or the snapshot's sequence. `backlog` keeps what lay beyond the
      first batch when a run's stream went to wait, until a drain ends. */
  datatype System = System(
    outbox: Outbox, notified: int, token: bool, reader: Reader,
    resume: int, sent: seq<int>, announced: Option<int>, backlog: seq<int>)

  datatype Action =
    | Commit(sequence: int)
    | Notify
    | Prune(count: nat)
    | Subscribe
    | FirstRead
    | TakeToken
    | Tick
    | DrainRead
    | Disconnect

  const INITIAL := System(Outbox([], 0), 0, false, NotSubscribed, 0, [], None, [])

  /** The first reply to a client: what is sent, where the reader stands, whether it goes on reading, and what it
      leaves for later when it does not. */
  datatype Opening = Opening(
    announced: Option<int>, resume: int, sent: seq<int>, last: int, goOn: bool, backlog: seq<int>)

  function Drop(s: seq<int>, count: nat): seq<int> {
    if |s| <= count then [] else s[count..]
  }

  /** The retained messages above `from` that do not fit the first batch. */
  function Beyond(o: Outbox, from: int): seq<int> {
    Drop(Above(Retained(o), from), BATCH_SIZE)
  }

  function Open(stream: Stream, cursor: Option<int>, o: Outbox): Opening
  {
    if stream == RunStream && cursor.None? then
      var latest := LastOrZero(Retained(o));
      Opening(None, latest, [], latest, false, [])
    else
      var from := if cursor.Some? then cursor.value else 0;
      var batch := Replay(stream, o, from, BATCH_SIZE);
      if cursor.Some? && Reset(stream, from, batch).Some? then
        Opening(Some(batch.latest), batch.latest, [], batch.latest, false, [])
      else
        var last := if batch.messages == [] then from else LastOrZero(batch.messages);
        var full := |batch.messages| == BATCH_SIZE;
        Opening(None, from, batch.messages, last, full && stream == GlobalStream,
                if stream == RunStream then Beyond(o, from) else [])
  }

  function Step(stream: Stream, cursor: Option<int>, s: System, a: Action): System {
    match a
    case Commit(sequence) =>
      if sequence <= LastOrZero(s.outbox.committed) || sequence <= 0 then s
      else s.(outbox := s.outbox.(committed := s.outbox.committed + [sequence]))
    case Notify =>
      s.(notified := LastOrZero(s.outbox.committed),
         token := s.reader != NotSubscribed && s.reader != Disconnected)
    case Prune(count) =>
      if s.outbox.pruned + count > |s.outbox.committed| then s
      else s.(outbox := s.outbox.(pruned := s.outbox.pruned + count))
    case Subscribe =>
      if s.reader != NotSubscribed then s else s.(reader := Subscribed)
    case FirstRead =>
      if s.reader != Subscribed then s
      else
        var o := Open(stream, cursor, s.outbox);
        s.(reader := if o.goOn then Draining(o.last) else Waiting(o.last),
           resume := o.resume, sent := o.sent, announced := o.announced, backlog := o.backlog)
    case TakeToken =>
      if !s.reader.Waiting? || !s.token then s else s.(token := false, reader := Draining(s.reader.last))
    case Tick =>
      if !s.reader.Waiting? then s else s.(reader := Draining(s.reader.last))
    case DrainRead =>
      if !s.reader.Draining? then s
      else
        var batch := Replay(stream, s.outbox, s.reader.last, BATCH_SIZE);
        var last := if batch.messages == [] then s.reader.last else LastOrZero(batch.messages);
        if |batch.messages| < BATCH_SIZE
        then s.(reader := Waiting(last), sent := s.sent + batch.messages, backlog := [])
        else s.(reader := Draining(last), sent := s.sent + batch.messages)
    case Disconnect =>
      s.(reader := Disconnected, token := false)
  }

  function Run(stream: Stream, cursor: Option<int>, actions: seq<Action>): System {
    if actions == [] then INITIAL
    else Step(stream, cursor, Run(stream, cursor, actions[..|actions| - 1]), actions[|actions| - 1])
  }

  function Position(r: Reader): int
    requires Connected(r)
  {
    if r.Waiting? then r.last else r.last
  }

  predicate Connected(r: Reader) {
    r.Waiting? || r.Draining?
  }

  /** How far delivery has come; for a client that left, the last message it was sent. */
  function Reach(s: System): int {
    if Connected(s.reader) then Position(s.reader) else if s.sent == [] then s.resume else LastOrZero(s.sent)
  }

  /** Sent in order, each once, only what was committed, nothing below the resume point, nothing retained skipped
      so far. */
  ghost predicate Delivered(o: Outbox, resume: int, sent: seq<int>, last: int)
  {
    && Ascending(sent)
    && resume <= last
    && (forall m :: m in sent ==> m in o.committed && resume < m <= last)
    && (forall m :: m in Retained(o) && resume < m <= last ==> m in sent)
  }

  /** Every notified and retained message beyond the reader is in the backlog, and all of that is beyond it. */
  ghost predicate CaughtUp(o: Outbox, notified: int, last: int, backlog: seq<int>)
  {
    && (forall m :: m in Retained(o) && m <= notified && last < m ==> m in backlog)
    && (forall m :: m in backlog ==> last < m)
  }

  ghost predicate Inv(s: System) {
    && Valid(s.outbox)
    && 0 <= s.notified <= LastOrZero(s.outbox.committed)
    && (s.reader.NotSubscribed? || s.reader.Subscribed? ==> s.sent == [] && s.announced.None? && s.backlog == [])
    && Delivered(s.outbox, s.resume, s.sent, Reach(s)) && Reach(s) <= LastOrZero(s.outbox.committed)
    && (s.announced.Some? ==> s.resume == s.announced.value)
    && (s.reader.Waiting? ==> forall m :: m in s.backlog ==> s.reader.last < m)
    && (s.reader.Waiting? && !s.token ==> CaughtUp(s.outbox, s.notified, s.reader.last, s.backlog))
  }

  lemma AscendingAppends(a: seq<int>, b: seq<int>, bound: int)
    requires Ascending(a) && Ascending(b)
    requires (forall m :: m in a ==> m <= bound) && (forall m :: m in b ==> bound < m)
    ensures Ascending(a + b)
  {
    var c := a + b;
    forall i, j | 0 <= i < j < |c| ensures c[i] < c[j] {
      if i < |a| <= j { assert a[i] in a && b[j - |a|] in b; }
    }
  }

  /** Appending the next batch keeps the delivery record right; a short batch catches up. */
  lemma DrainExtends(stream: Stream, o: Outbox, resume: int, sent: seq<int>, last: int)
    requires Valid(o) && Delivered(o, resume, sent, last) && last <= LastOrZero(o.committed)
    ensures var batch := Replay(stream, o, last, BATCH_SIZE).messages;
            var next := if batch == [] then last else LastOrZero(batch);
            && Delivered(o, resume, sent + batch, next)
            && last <= next <= LastOrZero(o.committed)
            && (|batch| < BATCH_SIZE ==> forall m :: m in Retained(o) ==> m <= next)
  {
    BatchMeaning(stream, o, last, BATCH_SIZE);
    RetainedIsAscending(o);
    var batch := Replay(stream, o, last, BATCH_SIZE).messages;
    var next := if batch == [] then last else LastOrZero(batch);
    assert batch != [] ==> next in batch;
    assert forall m :: m in batch ==> m <= next;
    AscendingAppends(sent, batch, last);
    forall m | m in Retained(o) && resume < m <= next
      ensures m in sent + batch
    {
    }
    forall m | m in Retained(o) && |batch| < BATCH_SIZE
      ensures m <= next
    {
      if m > last { assert m in batch; }
    }
  }

  lemma LatestBounds(stream: Stream, o: Outbox, from: int)
    requires Valid(o)
    ensures var b := Replay(stream, o, from, BATCH_SIZE);
            && 0 <= b.latest <= LastOrZero(o.committed)
            && (forall m :: m in Retained(o) ==> m <= b.latest)
  {
    RetainedIsAscending(o);
  }

  ghost predicate GoodOpening(o: Outbox, notified: int, opening: Opening) {
    && Delivered(o, opening.resume, opening.sent, opening.last)
    && opening.last <= LastOrZero(o.committed)
    && (opening.announced.Some? ==> opening.resume == opening.announced.value && opening.sent == [])
    && (!opening.goOn ==> CaughtUp(o, notified, opening.last, opening.backlog))
  }

  lemma ReplayOpens(stream: Stream, o: Outbox, from: int, notified: int)
    requires Valid(o) && from <= LastOrZero(o.committed) && notified <= LastOrZero(o.committed)
    ensures var batch := Replay(stream, o, from, BATCH_SIZE).messages;
            var last := if batch == [] then from else LastOrZero(batch);
            && Delivered(o, from, batch, last) && last <= LastOrZero(o.committed)
            && (|batch| < BATCH_SIZE ==> CaughtUp(o, notified, last, []))
            && CaughtUp(o, notified, last, Beyond(o, from))
  {
    var batch := Replay(stream, o, from, BATCH_SIZE).messages;
    assert [] + batch == batch;
    DrainExtends(stream, o, from, [], from);
    BatchIsEmptyTogether(o, from);
    BeyondIsTheRest(o, from);
  }

  lemma BatchIsEmptyTogether(o: Outbox, from: int)
    ensures Take(Above(Retained(o), from), BATCH_SIZE) == [] <==> Above(Retained(o), from) == []
  {
  }

  lemma SuffixIsAbove(rows: seq<int>, k: nat)
    requires Ascending(rows) && 0 < k <= |rows|
    ensures forall m :: m in rows[k..] <==> m in rows && rows[k - 1] < m
  {
    forall i | k <= i < |rows| ensures rows[i] in rows[k..] { assert rows[k..][i - k] == rows[i]; }
    forall m | m in rows[k..] ensures m in rows && rows[k - 1] < m {
      var i :| 0 <= i < |rows[k..]| && rows[k..][i] == m;
      assert rows[k + i] == m;
    }
  }

  /** In a stretch that ends the rows, what follows the first `n` messages is what lies above the last of those. */
  lemma RestIsAbove(rows: seq<int>, a: seq<int>, from: int, n: nat)
    requires Ascending(rows) && n > 0 && |a| <= |rows| && a == rows[|rows| - |a|..]
    requires forall i :: 0 <= i < |rows| - |a| ==> rows[i] <= from
    ensures var last := if a == [] then from else LastOrZero(Take(a, n));
            forall m :: m in Drop(a, n) <==> m in rows && last < m
  {
    var start := |rows| - |a|;
    if |a| > n {
      assert a[n..] == rows[start + n..] && a[..n][n - 1] == rows[start + n - 1];
      SuffixIsAbove(rows, start + n);
    } else if a != [] {
      assert a[|a| - 1] == rows[|rows| - 1];
    }
  }

  /** What the first batch leaves is exactly what lies above its last message. */
  lemma BeyondIsTheRest(o: Outbox, from: int)
    requires Valid(o)
    ensures var a := Above(Retained(o), from);
            var last := if a == [] then from else LastOrZero(Take(a, BATCH_SIZE));
            forall m :: m in Beyond(o, from) <==> m in Retained(o) && last < m
  {
    RetainedIsAscending(o);
    AboveIsSuffix(Retained(o), from);
    RestIsAbove(Retained(o), Above(Retained(o), from), from, BATCH_SIZE);
  }

  lemma JumpOpens(o: Outbox, latest: int, notified: int)
    requires Valid(o) && 0 <= latest <= LastOrZero(o.committed)
    requires forall m :: m in Retained(o) ==> m <= latest
    ensures Delivered(o, latest, [], latest) && CaughtUp(o, notified, latest, [])
  {
  }

  lemma OpeningIsRight(stream: Stream, cursor: Option<int>, o: Outbox, notified: int)
    requires Valid(o) && (cursor.Some? ==> cursor.value >= 0) && notified <= LastOrZero(o.committed)
    ensures GoodOpening(o, notified, Open(stream, cursor, o))
  {
    var from := if cursor.Some? then cursor.value else 0;
    var batch := Replay(stream, o, from, BATCH_SIZE);
    LatestBounds(stream, o, from);
    if stream == RunStream && cursor.None? {
      RetainedIsAscending(o);
      JumpOpens(o, LastOrZero(Retained(o)), notified);
    } else if cursor.Some? && Reset(stream, from, batch).Some? {
      JumpOpens(o, batch.latest, notified);
    } else {
      BatchMeaning(stream, o, from, BATCH_SIZE);
      ReplayOpens(stream, o, from, notified);
    }
  }

  lemma PruneKeeps(
    o: Outbox, count: nat, resume: int, sent: seq<int>, last: int, notified: int, backlog: seq<int>)
    requires Valid(o) && o.pruned + count <= |o.committed|
    ensures var p := o.(pruned := o.pruned + count);
            && Valid(p)
            && (Delivered(o, resume, sent, last) ==> Delivered(p, resume, sent, last))
            && (CaughtUp(o, notified, last, backlog) ==> CaughtUp(p, notified, last, backlog))
  {
    var p := o.(pruned := o.pruned + count);
    forall m | m in Retained(p) ensures m in Retained(o) {
      var i :| 0 <= i < |Retained(p)| && Retained(p)[i] == m;
      assert Retained(o)[i + count] == m;
    }
  }

  lemma CommitKeeps(
    o: Outbox, sequence: int, resume: int, sent: seq<int>, last: int, notified: int, backlog: seq<int>)
    requires Valid(o) && sequence > LastOrZero(o.committed) && sequence > 0
    ensures var p := o.(committed := o.committed + [sequence]);
            && Valid(p) && Retained(p) == Retained(o) + [sequence] && LastOrZero(p.committed) == sequence
            && (Delivered(o, resume, sent, last) && last <= LastOrZero(o.committed) ==> Delivered(p, resume, sent, last))
            && (CaughtUp(o, notified, last, backlog) && notified <= LastOrZero(o.committed) ==>
                  CaughtUp(p, notified, last, backlog))
  {
    RetainedIsAscending(o);
  }

  lemma CommitStepKeeps(stream: Stream, cursor: Option<int>, s: System, sequence: int)
    requires Inv(s)
    ensures Inv(Step(stream, cursor, s, Commit(sequence)))
  {
    if sequence > LastOrZero(s.outbox.committed) && sequence > 0 {
      CommitKeeps(s.outbox, sequence, s.resume, s.sent, Reach(s), s.notified, s.backlog);
      var p := s.outbox.(committed := s.outbox.committed + [sequence]);
      assert Step(stream, cursor, s, Commit(sequence)) == s.(outbox := p);
    }
  }

  lemma PruneStepKeeps(stream: Stream, cursor: Option<int>, s: System, count: nat)
    requires Inv(s)
    ensures Inv(Step(stream, cursor, s, Prune(count)))
  {
    if s.outbox.pruned + count <= |s.outbox.committed| {
      PruneKeeps(s.outbox, count, s.resume, s.sent, Reach(s), s.notified, s.backlog);
    }
  }

  /** For a client that leaves, delivery has come as far as its last message. */
  lemma LeavingKeeps(o: Outbox, resume: int, sent: seq<int>, last: int)
    requires Delivered(o, resume, sent, last)
    ensures var reach := if sent == [] then resume else LastOrZero(sent);
            Delivered(o, resume, sent, reach) && reach <= last
  {
    assert sent != [] ==> LastOrZero(sent) in sent;
  }

  lemma SignalStepKeeps(stream: Stream, cursor: Option<int>, s: System, a: Action)
    requires Inv(s) && (a.Notify? || a.Subscribe? || a.Disconnect? || a.TakeToken? || a.Tick?)
    ensures Inv(Step(stream, cursor, s, a))
  {
    assert 0 <= LastOrZero(s.outbox.committed);
    LeavingKeeps(s.outbox, s.resume, s.sent, Reach(s));
  }

  lemma ReaderKeeps(stream: Stream, cursor: Option<int>, s: System, a: Action)
    requires Inv(s) && (cursor.Some? ==> cursor.value >= 0)
    requires a.FirstRead? || a.DrainRead?
    ensures Inv(Step(stream, cursor, s, a))
  {
    if a.FirstRead? && s.reader.Subscribed? {
      OpeningIsRight(stream, cursor, s.outbox, s.notified);
    }
    if a.DrainRead? && s.reader.Draining? {
      DrainExtends(stream, s.outbox, s.resume, s.sent, s.reader.last);
    }
  }

  lemma {:induction false} EveryRunDelivers(stream: Stream, cursor: Option<int>, actions: seq<Action>)
    requires cursor.Some? ==> cursor.value >= 0
    ensures Inv(Run(stream, cursor, actions))
  {
    if actions != [] {
      var earlier, a := actions[..|actions| - 1], actions[|actions| - 1];
      EveryRunDelivers(stream, cursor, earlier);
      var s := Run(stream, cursor, earlier);
      match a
      case Commit(sequence) => CommitStepKeeps(stream, cursor, s, sequence);
      case Prune(count) => PruneStepKeeps(stream, cursor, s, count);
      case FirstRead => ReaderKeeps(stream, cursor, s, a);
      case DrainRead => ReaderKeeps(stream, cursor, s, a);
      case _ => SignalStepKeeps(stream, cursor, s, a);
    }
  }

  /** What a client relies on, in every interleaving, connected still or gone: strictly increasing sequences, all of
      them committed and above the resume point (the announced one, when a reset was sent), and nothing still
      retained skipped on the way. */
  lemma DeliveryIsExactlyOnceInOrder(stream: Stream, cursor: Option<int>, actions: seq<Action>)
    requires cursor.Some? ==> cursor.value >= 0
    ensures var s := Run(stream, cursor, actions);
            && Ascending(s.sent)
            && (forall m :: m in s.sent ==> m in s.outbox.committed && s.resume < m <= Reach(s))
            && (s.announced.Some? ==> s.resume == s.announced.value)
            && (forall m :: m in Retained(s.outbox) && s.resume < m <= Reach(s) ==> m in s.sent)
  {
    EveryRunDelivers(stream, cursor, actions);
  }

  /** After a drain ends, everything committed before its last read, above the start point and not pruned,
      has been sent. */
  lemma DrainLeavesNothingBehind(stream: Stream, cursor: Option<int>, actions: seq<Action>)
    requires cursor.Some? ==> cursor.value >= 0
    requires Run(stream, cursor, actions).reader.Draining?
    requires Step(stream, cursor, Run(stream, cursor, actions), DrainRead).reader.Waiting?
    ensures var s := Step(stream, cursor, Run(stream, cursor, actions), DrainRead);
            forall m :: m in Retained(s.outbox) && s.resume < m ==> m in s.sent
  {
    EveryRunDelivers(stream, cursor, actions);
    var s := Run(stream, cursor, actions);
    DrainExtends(stream, s.outbox, s.resume, s.sent, s.reader.last);
  }

  /** A message that is committed, notified, retained and not yet sent to a connected reader. */
  ghost predicate Undelivered(s: System, m: int) {
    && Connected(s.reader)
    && m in Retained(s.outbox) && m <= s.notified && s.resume < m && m !in s.sent
  }

  lemma {:induction false} BacklogOnlyOnRunStream(stream: Stream, cursor: Option<int>, actions: seq<Action>)
    ensures Run(stream, cursor, actions).backlog != [] ==> stream == RunStream && cursor.Some?
  {
    if actions != [] { BacklogOnlyOnRunStream(stream, cursor, actions[..|actions| - 1]); }
  }

  /** No wake-up is lost on the global stream, nor on a run's stream opened with a snapshot: an undelivered message
      means a pending token or a drain still to read it. */
  lemma NoLostWakeup(stream: Stream, cursor: Option<int>, actions: seq<Action>, m: int)
    requires cursor.Some? ==> cursor.value >= 0
    requires stream == GlobalStream || cursor.None?
    requires Undelivered(Run(stream, cursor, actions), m)
    ensures Run(stream, cursor, actions).reader.Draining? || Run(stream, cursor, actions).token
  {
    EveryRunDelivers(stream, cursor, actions);
    BacklogOnlyOnRunStream(stream, cursor, actions);
  }

  // ---- The gap on a run's stream, exactly ----

  /** Undelivered, with neither a token nor a drain to come. */
  ghost predicate Stranded(s: System, m: int) {
    Undelivered(s, m) && !s.reader.Draining? && !s.token
  }

  lemma StrandedIsInBacklog(s: System, m: int)
    requires Inv(s)
    ensures Stranded(s, m) <==>
            s.reader.Waiting? && !s.token && m in s.backlog && m in Retained(s.outbox) && m <= s.notified
  {
  }

  /** Over every interleaving of either stream: a message is stranded exactly when the reader waits without a token
      and the message, retained and notified, lay beyond the first batch of a run's stream that no drain has
      followed yet. */
  lemma StrandedExactlyFromBacklog(stream: Stream, cursor: Option<int>, actions: seq<Action>, m: int)
    requires cursor.Some? ==> cursor.value >= 0
    ensures var s := Run(stream, cursor, actions);
            Stranded(s, m) <==>
            s.reader.Waiting? && !s.token && m in s.backlog && m in Retained(s.outbox) && m <= s.notified
  {
    EveryRunDelivers(stream, cursor, actions);
    StrandedIsInBacklog(Run(stream, cursor, actions), m);
  }

  /** The step at `k` ends a drain. */
  predicate EndsDrain(stream: Stream, cursor: Option<int>, actions: seq<Action>, k: nat)
    requires k < |actions|
  {
    Run(stream, cursor, actions[..k]).reader.Draining? && Run(stream, cursor, actions[..k + 1]).reader.Waiting?
  }

  /** A backlog is what one first read of a run's stream, without a reset, left beyond its batch, and no drain has
      ended since. */
  ghost predicate LeftAt(cursor: int, actions: seq<Action>, k: nat, backlog: seq<int>)
    requires k < |actions|
  {
    var before := Run(RunStream, Some(cursor), actions[..k]);
    && actions[k].FirstRead? && before.reader.Subscribed?
    && Reset(RunStream, cursor, Replay(RunStream, before.outbox, cursor, BATCH_SIZE)).None?
    && backlog == Beyond(before.outbox, cursor)
    && forall j :: k < j < |actions| ==> !EndsDrain(RunStream, Some(cursor), actions, j)
  }

  lemma LeftAtExtends(cursor: int, actions: seq<Action>, k: nat, backlog: seq<int>)
    requires actions != [] && k < |actions| - 1 && LeftAt(cursor, actions[..|actions| - 1], k, backlog)
    requires !EndsDrain(RunStream, Some(cursor), actions, |actions| - 1)
    ensures LeftAt(cursor, actions, k, backlog)
  {
    var earlier := actions[..|actions| - 1];
    assert earlier[..k] == actions[..k];
    forall j | k < j < |actions| ensures !EndsDrain(RunStream, Some(cursor), actions, j) {
      if j < |earlier| {
        assert earlier[..j] == actions[..j] && earlier[..j + 1] == actions[..j + 1];
        assert !EndsDrain(RunStream, Some(cursor), earlier, j);
      }
    }
  }

  /** Only a first read makes a backlog, and the end of a drain clears it. */
  lemma BacklogStep(cursor: int, s: System, a: Action)
    requires Step(RunStream, Some(cursor), s, a).backlog != []
    ensures a.FirstRead? && s.reader.Subscribed? ==>
              && Reset(RunStream, cursor, Replay(RunStream, s.outbox, cursor, BATCH_SIZE)).None?
              && Step(RunStream, Some(cursor), s, a).backlog == Beyond(s.outbox, cursor)
    ensures !(a.FirstRead? && s.reader.Subscribed?) ==>
              && Step(RunStream, Some(cursor), s, a).backlog == s.backlog
              && !(s.reader.Draining? && Step(RunStream, Some(cursor), s, a).reader.Waiting?)
  {
  }

  lemma {:induction false} BacklogIsLeftByTheFirstRead(cursor: int, actions: seq<Action>) returns (k: nat)
    requires Run(RunStream, Some(cursor), actions).backlog != []
    ensures k < |actions| && LeftAt(cursor, actions, k, Run(RunStream, Some(cursor), actions).backlog)
  {
    var n := |actions| - 1;
    var s := Run(RunStream, Some(cursor), actions[..n]);
    assert actions[..n + 1] == actions;
    BacklogStep(cursor, s, actions[n]);
    if actions[n].FirstRead? && s.reader.Subscribed? {
      k := n;
    } else {
      k := BacklogIsLeftByTheFirstRead(cursor, actions[..n]);
      assert !EndsDrain(RunStream, Some(cursor), actions, n);
      LeftAtExtends(cursor, actions, k, s.backlog);
    }
  }

  lemma FirstReadIs(s: System, cursor: int)
    requires s.reader.Subscribed?
    requires Reset(RunStream, cursor, Replay(RunStream, s.outbox, cursor, BATCH_SIZE)).None?
    ensures var next := Step(RunStream, Some(cursor), s, FirstRead);
            && next.reader.Waiting? && next.backlog == Beyond(s.outbox, cursor)
            && next.token == s.token && next.notified == s.notified && next.outbox == s.outbox
  {
  }

  /** The first read of a run's stream strands a message exactly when no token is pending, more than one batch lies
      above the cursor, and the first message past that batch has been notified. */
  lemma RunStreamStallsExactlyPastOneBatch(s: System, cursor: int)
    requires Inv(s) && s.reader.Subscribed? && cursor >= 0
    requires Reset(RunStream, cursor, Replay(RunStream, s.outbox, cursor, BATCH_SIZE)).None?
    ensures var a := Above(Retained(s.outbox), cursor);
            (exists m :: Stranded(Step(RunStream, Some(cursor), s, FirstRead), m)) <==>
            !s.token && |a| > BATCH_SIZE && a[BATCH_SIZE] <= s.notified
  {
    var a, next := Above(Retained(s.outbox), cursor), Step(RunStream, Some(cursor), s, FirstRead);
    FirstReadIs(s, cursor);
    ReaderKeeps(RunStream, Some(cursor), s, FirstRead);
    BeyondIsTheRest(s.outbox, cursor);
    forall m ensures Stranded(next, m) <==> !s.token && m in Beyond(s.outbox, cursor) && m <= s.notified {
      StrandedIsInBacklog(next, m);
    }
    if |a| > BATCH_SIZE { FirstBeyondIsLeast(s.outbox, cursor); }
  }

  lemma FirstBeyondIsLeast(o: Outbox, cursor: int)
    requires Valid(o) && |Above(Retained(o), cursor)| > BATCH_SIZE
    ensures var first := Above(Retained(o), cursor)[BATCH_SIZE];
            first in Beyond(o, cursor) && forall m :: m in Beyond(o, cursor) ==> first <= m
  {
    RetainedIsAscending(o);
    AboveIsSuffix(Retained(o), cursor);
    FirstIsLeast(Above(Retained(o), cursor), BATCH_SIZE);
  }

  lemma FirstIsLeast(a: seq<int>, n: nat)
    requires Ascending(a) && |a| > n
    ensures a[n] in Drop(a, n) && forall m :: m in Drop(a, n) ==> a[n] <= m
  {
    assert Drop(a, n)[0] == a[n];
    assert forall i :: 0 <= i < |Drop(a, n)| ==> Drop(a, n)[i] == a[n + i];
  }

  function Numbered(n: nat): seq<int> {
    seq(n, i => i + 1)
  }

  function CommitAll(n: nat): seq<Action> {
    seq(n, i => Commit(i + 1))
  }

  lemma {:induction false} CommitsFill(stream: Stream, cursor: Option<int>, n: nat)
    ensures Run(stream, cursor, CommitAll(n)) == INITIAL.(outbox := Outbox(Numbered(n), 0))
  {
    if n > 0 {
      CommitsFill(stream, cursor, n - 1);
      var actions := CommitAll(n);
      assert actions[..|actions| - 1] == CommitAll(n - 1);
      assert Numbered(n) == Numbered(n - 1) + [n];
    } else {
      assert Numbered(n) == [];
    }
  }

  lemma RunAppends(stream: Stream, cursor: Option<int>, actions: seq<Action>, a: Action)
    ensures Run(stream, cursor, actions + [a]) == Step(stream, cursor, Run(stream, cursor, actions), a)
  {
    assert (actions + [a])[..|actions + [a]| - 1] == actions;
  }

  lemma FirstReadStalls() returns (opening: Opening)
    ensures opening == Open(RunStream, Some(1), Outbox(Numbered(1002), 0))
    ensures opening.last == 1001 && !opening.goOn && opening.resume == 1
    ensures 1002 in Numbered(1002) && 1002 !in opening.sent
  {
    var o: Outbox := Outbox(Numbered(1002), 0);
    var rows := Retained(o);
    assert rows == Numbered(1002);
    AboveIsSuffix(rows, 1);
    assert rows[0] == 1 && rows[1001] == 1002;
    var a := Above(rows, 1);
    assert |a| == 1001;
    opening := Open(RunStream, Some(1), o);
    assert Replay(RunStream, o, 1, BATCH_SIZE) == Batch(a[..1000], 1, 1002);
    assert a[..1000][999] == rows[1 + 999] == 1001;
    assert forall m :: m in opening.sent ==> m <= 1001;
  }

  /** The stall happens: 1002 messages committed and notified, a client that has seen the first reconnects, and
      after its first read the last message is undelivered with no token and no drain to come. */
  lemma RunStreamLosesAWakeup()
    ensures var s := Run(RunStream, Some(1), CommitAll(1002) + [Notify] + [Subscribe] + [FirstRead]);
            Undelivered(s, 1002) && s.reader.Waiting? && !s.token
  {
    var actions := CommitAll(1002);
    CommitsFill(RunStream, Some(1), 1002);
    RunAppends(RunStream, Some(1), actions, Notify);
    RunAppends(RunStream, Some(1), actions + [Notify], Subscribe);
    RunAppends(RunStream, Some(1), actions + [Notify] + [Subscribe], FirstRead);
    var opening := FirstReadStalls();
    assert Numbered(1002)[1001] == 1002;
  }
}
