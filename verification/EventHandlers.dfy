/** The stream handlers' loops and the hub they subscribe to, over an outbox that keeps changing under them. */
module EventHandlers {
  import opened Text
  import opened Decimal
  import opened EventOutbox
  import ES = EventStream

  const MAX_INT64 := 9223372036854775807

  /** parseLastEventID: exactly the canonical decimal numerals of the non-negative 64-bit integers, with
      surrounding white space ignored. */
  method ParseLastEventID(raw: string) returns (sequence: Option<int>)
    ensures forall v: nat :: sequence == Some(v) <==> Trim(raw) == Digits(v) && v <= MAX_INT64
    ensures sequence.Some? ==> sequence.value >= 0
  {
    var text := Trim(raw);
    forall v: nat ensures Canonical(Digits(v)) && ValueOf(Digits(v)) == v { DigitsAreCanonical(v); }
    if text == "" || (|text| > 1 && text[0] == '0') {
      return None;
    }
    for i := 0 to |text|
      invariant forall j :: 0 <= j < i ==> IsDigit(text[j])
    {
      if text[i] < '0' || text[i] > '9' {
        return None;
      }
    }
    CanonicalIsDigits(text);
    sequence := if ValueOf(text) > MAX_INT64 then None else Some(ValueOf(text));
  }

  /** The process-local hub: one capacity-one channel per subscriber, here the presence of its token. */
  class Hub {
    var subscribers: map<nat, bool>
    var next: nat

    ghost predicate Valid() reads this {
      forall id :: id in subscribers ==> id < next
    }

    constructor ()
      ensures Valid() && subscribers == map[]
    {
      subscribers, next := map[], 0;
    }

    method Subscribe() returns (id: nat)
      requires Valid()
      modifies this
      ensures Valid() && id !in old(subscribers)
      ensures subscribers == old(subscribers)[id := false]
    {
      id := next;
      subscribers, next := subscribers[id := false], next + 1;
    }

    method Unsubscribe(id: nat)
      requires Valid()
      modifies this`subscribers
      ensures Valid() && subscribers == old(subscribers) - {id}
    {
      subscribers := subscribers - {id};
    }

    /** Every subscriber ends up with exactly one token, whether or not it already had one. */
    method Notify()
      requires Valid()
      modifies this`subscribers
      ensures Valid() && subscribers == map id | id in old(subscribers) :: true
    {
      var left := subscribers.Keys;
      while left != {}
        invariant left <= subscribers.Keys == old(subscribers).Keys
        invariant forall id :: id in subscribers && id !in left ==> subscribers[id]
        decreases left
      {
        var id :| id in left;
        if !subscribers[id] {
          subscribers := subscribers[id := true];
        }
        left := left - {id};
      }
    }

    /** A non-blocking receive on a subscriber's channel. */
    method Receive(id: nat) returns (received: bool)
      requires Valid() && id in subscribers
      modifies this`subscribers
      ensures Valid() && received == old(subscribers)[id]
      ensures subscribers == old(subscribers)[id := false]
    {
      received := subscribers[id];
      subscribers := subscribers[id := false];
    }
  }

  // ---- The hub is the machine's token ----

  predicate Holds(r: ES.Reader) {
    r != ES.NotSubscribed && r != ES.Disconnected
  }

  /** The reader holds a channel while it is subscribed, and that channel holds a token exactly when the machine's
      token is set. */
  ghost predicate Mirrors(subscribers: map<nat, bool>, id: Option<nat>, s: ES.System) {
    && (id.Some? <==> Holds(s.reader))
    && (id.Some? ==> id.value in subscribers)
    && s.token == (id.Some? && subscribers[id.value])
  }

  /** What happens around a hub: a step of our reader's machine, or another subscriber's. */
  datatype HubEvent =
    | Ours(action: ES.Action)
    | OtherSubscribes
    | OtherLeaves(id: nat)
    | OtherReceives(id: nat)

  function OurActions(events: seq<HubEvent>): seq<ES.Action> {
    if events == [] then []
    else
      var earlier, e := OurActions(events[..|events| - 1]), events[|events| - 1];
      if e.Ours? then earlier + [e.action] else earlier
  }

  /** What a step of our reader does to the hub; a wait is over exactly when the channel had a token. */
  method OurStep(hub: Hub, id: Option<nat>, stream: Stream, cursor: Option<int>, s: ES.System, a: ES.Action)
    returns (held: Option<nat>)
    requires hub.Valid() && Mirrors(hub.subscribers, id, s)
    modifies hub
    ensures hub.Valid() && Mirrors(hub.subscribers, held, ES.Step(stream, cursor, s, a))
    ensures forall j :: j in old(hub.subscribers) && id != Some(j) ==>
              j in hub.subscribers && hub.subscribers[j] == (a.Notify? || old(hub.subscribers)[j])
  {
    held := id;
    if a.Notify? {
      hub.Notify();
    } else if a.Subscribe? && s.reader.NotSubscribed? {
      var channel := hub.Subscribe();
      held := Some(channel);
    } else if a.TakeToken? && s.reader.Waiting? {
      var woken := hub.Receive(id.value);
      assert woken == ES.Step(stream, cursor, s, a).reader.Draining?;
    } else if a.Disconnect? && id.Some? {
      hub.Unsubscribe(id.value);
      held := None;
    }
  }

  /** What any other subscriber does leaves our channel alone. */
  method OtherStep(hub: Hub, ghost id: Option<nat>, e: HubEvent, ghost s: ES.System)
    requires hub.Valid() && Mirrors(hub.subscribers, id, s)
    requires !e.Ours? && (e.OtherLeaves? || e.OtherReceives? ==> id != Some(e.id))
    modifies hub
    ensures hub.Valid() && Mirrors(hub.subscribers, id, s)
  {
    match e {
      case OtherSubscribes => var _ := hub.Subscribe();
      case OtherLeaves(other) => hub.Unsubscribe(other);
      case OtherReceives(other) => if other in hub.subscribers { var _ := hub.Receive(other); }
    }
  }

  /** The hub under any mix of our reader's run with what other subscribers do: its channel for the reader holds a
      token exactly when the machine's token is set. */
  method RunHub(hub: Hub, stream: Stream, cursor: Option<int>, events: seq<HubEvent>) returns (id: Option<nat>)
    requires hub.Valid()
    modifies hub
    ensures hub.Valid() && Mirrors(hub.subscribers, id, ES.Run(stream, cursor, OurActions(events)))
  {
    id := None;
    var s := ES.INITIAL;
    for i := 0 to |events|
      invariant hub.Valid() && s == ES.Run(stream, cursor, OurActions(events[..i]))
      invariant Mirrors(hub.subscribers, id, s)
    {
      assert events[..i + 1][..i] == events[..i];
      var e := events[i];
      if e.Ours? {
        ES.RunAppends(stream, cursor, OurActions(events[..i]), e.action);
        id := OurStep(hub, id, stream, cursor, s, e.action);
        s := ES.Step(stream, cursor, s, e.action);
      } else if e.OtherSubscribes? || id != Some(e.id) {
        OtherStep(hub, id, e, s);
      }
    }
    assert events[..|events|] == events;
  }

  /** What committers and retention do before one read. */
  datatype Turn = Turn(commits: seq<int>, prunes: nat)

  function Commits(o: Outbox, commits: seq<int>): Outbox
    decreases |commits|
  {
    if commits == [] then o
    else
      var grown: Outbox :=
        if commits[0] <= LastOrZero(o.committed) || commits[0] <= 0 then o
        else o.(committed := o.committed + [commits[0]]);
      Commits(grown, commits[1..])
  }

  function Prunes(o: Outbox, count: nat): Outbox {
    if o.pruned + count > |o.committed| then o else o.(pruned := o.pruned + count)
  }

  /** The outbox as the next read finds it. */
  function NextView(o: Outbox, turns: seq<Turn>): Outbox {
    if turns == [] then o else Prunes(Commits(o, turns[0].commits), turns[0].prunes)
  }

  lemma {:induction false} CommitsStayValid(o: Outbox, commits: seq<int>)
    requires Valid(o)
    ensures Valid(Commits(o, commits))
    decreases |commits|
  {
    if commits != [] {
      var grown: Outbox :=
        if commits[0] <= LastOrZero(o.committed) || commits[0] <= 0 then o
        else o.(committed := o.committed + [commits[0]]);
      CommitsStayValid(grown, commits[1..]);
    }
  }

  lemma NextViewIsValid(o: Outbox, turns: seq<Turn>)
    requires Valid(o)
    ensures Valid(NextView(o, turns))
  {
    if turns != [] { CommitsStayValid(o, turns[0].commits); }
  }

  lemma {:induction false} TurnKeeps(o: Outbox, turn: Turn, resume: int, sent: seq<int>, last: int)
    requires Valid(o) && ES.Delivered(o, resume, sent, last) && last <= LastOrZero(o.committed)
    ensures var p := Prunes(Commits(o, turn.commits), turn.prunes);
            Valid(p) && ES.Delivered(p, resume, sent, last) && last <= LastOrZero(p.committed)
    decreases |turn.commits|
  {
    if turn.commits == [] {
      if o.pruned + turn.prunes <= |o.committed| {
        ES.PruneKeeps(o, turn.prunes, resume, sent, last, 0, []);
      }
    } else {
      var sequence := turn.commits[0];
      var grown: Outbox :=
        if sequence <= LastOrZero(o.committed) || sequence <= 0 then o
        else o.(committed := o.committed + [sequence]);
      if grown != o { ES.CommitKeeps(o, sequence, resume, sent, last, 0, []); }
      TurnKeeps(grown, turn.(commits := turn.commits[1..]), resume, sent, last);
    }
  }

  class Store {
    var outbox: Outbox
    var turns: seq<Turn>

    constructor (outbox: Outbox, turns: seq<Turn>)
      ensures this.outbox == outbox && this.turns == turns
    {
      this.outbox, this.turns := outbox, turns;
    }

    method ReplayAfter(stream: Stream, after: int, limit: nat) returns (batch: Batch)
      modifies this
      ensures turns == if old(turns) == [] then [] else old(turns)[1..]
      ensures outbox == NextView(old(outbox), old(turns))
      ensures batch == Replay(stream, outbox, after, limit)
    {
      TakeTurn();
      batch := Replay(stream, outbox, after, limit);
    }

    /** StreamSnapshot, as far as the stream uses it. */
    method LatestSequence() returns (latest: int)
      modifies this
      ensures turns == if old(turns) == [] then [] else old(turns)[1..]
      ensures outbox == NextView(old(outbox), old(turns))
      ensures latest == LastOrZero(Retained(outbox))
    {
      TakeTurn();
      latest := LastOrZero(Retained(outbox));
    }

    method TakeTurn()
      modifies this
      ensures turns == if old(turns) == [] then [] else old(turns)[1..]
      ensures outbox == NextView(old(outbox), old(turns))
    {
      if turns != [] {
        outbox, turns := Prunes(Commits(outbox, turns[0].commits), turns[0].prunes), turns[1..];
      }
    }
  }

  lemma ResetPosition(stream: Stream, o: Outbox, from: int)
    requires Valid(o)
    ensures var latest := Replay(stream, o, from, BATCH_SIZE).latest;
            ES.Delivered(o, latest, [], latest) && latest <= LastOrZero(o.committed)
  {
    ES.LatestBounds(stream, o, from);
    ES.JumpOpens(o, Replay(stream, o, from, BATCH_SIZE).latest, 0);
  }

  lemma CursorPosition(stream: Stream, o: Outbox, from: int)
    requires Valid(o) && from >= 0
    requires from == 0 || Reset(stream, from, Replay(stream, o, from, BATCH_SIZE)).None?
    ensures ES.Delivered(o, from, [], from) && from <= LastOrZero(o.committed)
  {
    ES.LatestBounds(stream, o, from);
  }

  /** A client connection: where it stands and what has been written to it. */
  class Client {
    var last: int
    var sent: seq<int>
    ghost var resume: int

    constructor ()
      ensures last == 0 && sent == []
    {
      last, sent, resume := 0, [], 0;
    }

    ghost predicate InStep(o: Outbox) reads this {
      Valid(o) && ES.Delivered(o, resume, sent, last) && last <= LastOrZero(o.committed)
    }

    /** Writes one batch, skipping what is not above the last delivered sequence. */
    method Write(stream: Stream, ghost o: Outbox, batch: Batch)
      requires InStep(o) && batch == Replay(stream, o, last, BATCH_SIZE)
      modifies this`last, this`sent
      ensures InStep(o) && sent == old(sent) + batch.messages && old(last) <= last
      ensures last == if batch.messages == [] then old(last) else LastOrZero(batch.messages)
      ensures |batch.messages| < BATCH_SIZE ==> forall m :: m in Retained(o) ==> m <= last
      ensures batch.messages != [] ==> last in Retained(o) && old(last) < last
    {
      ghost var start := last;
      BatchMeaning(stream, o, last, BATCH_SIZE);
      ES.DrainExtends(stream, o, resume, sent, last);
      var messages := batch.messages;
      for i := 0 to |messages|
        invariant last == if i == 0 then start else messages[i - 1]
        invariant sent == old(sent) + messages[..i]
      {
        assert messages[i] in messages;
        if messages[i] > last {
          sent := sent + [messages[i]];
          last := messages[i];
        }
      }
      assert messages[..|messages|] == messages;
    }

    /** drain: reads until a short batch, whatever is committed or pruned between two reads. Everything
        retained at its last read and above the resume point has then been sent. */
    method Drain(stream: Stream, store: Store)
      requires InStep(store.outbox)
      modifies this`last, this`sent, store
      ensures InStep(store.outbox) && old(sent) <= sent && resume == old(resume)
      ensures forall m :: m in Retained(store.outbox) && m > resume ==> m in sent
    {
      var more := true;
      while more
        invariant InStep(store.outbox) && old(sent) <= sent
        invariant !more ==> forall m :: m in Retained(store.outbox) ==> m <= last
        decreases |store.turns|, LastOrZero(store.outbox.committed) - last, more
      {
        if store.turns != [] { TurnKeeps(store.outbox, store.turns[0], resume, sent, last); }
        var batch := store.ReplayAfter(stream, last, BATCH_SIZE);
        Write(stream, store.outbox, batch);
        more := |batch.messages| >= BATCH_SIZE;
      }
    }

    /** Delivery taken up at a cursor that needs no reset. */
    method Resume(stream: Stream, from: int, ghost view: Outbox, batch: Batch)
      requires Valid(view) && sent == [] && from >= 0 && batch == Replay(stream, view, from, BATCH_SIZE)
      requires from == 0 || Reset(stream, from, batch).None?
      modifies this
      ensures InStep(view) && resume == from && sent == batch.messages
      ensures last == if batch.messages == [] then from else LastOrZero(batch.messages)
    {
      CursorPosition(stream, view, from);
      last, resume := from, from;
      Write(stream, view, batch);
      assert [] + batch.messages == batch.messages;
    }

    /** The first batch answered: a reset that jumps to the latest sequence, or the messages themselves. */
    method Answer(stream: Stream, cursor: Option<int>, ghost view: Outbox, batch: Batch) returns (announced: Option<int>)
      requires Valid(view) && sent == [] && (cursor.Some? ==> cursor.value >= 0)
      requires cursor.None? ==> stream == GlobalStream
      requires batch == Replay(stream, view, if cursor.Some? then cursor.value else 0, BATCH_SIZE)
      modifies this
      ensures InStep(view)
      ensures var opening := ES.Open(stream, cursor, view);
              announced == opening.announced && resume == opening.resume && sent == opening.sent && last == opening.last
    {
      var from := if cursor.Some? then cursor.value else 0;
      if cursor.Some? && Reset(stream, from, batch).Some? {
        ResetPosition(stream, view, from);
        announced, last, resume := Some(batch.latest), batch.latest, batch.latest;
      } else {
        announced := None;
        Resume(stream, from, view, batch);
      }
    }

    /** The handlers from subscription to the first wait: snapshot, replay or reset, then the global stream's
        drain of a full first batch. */
    method Connect(stream: Stream, cursor: Option<int>, store: Store) returns (announced: Option<int>)
      requires Valid(store.outbox) && sent == [] && (cursor.Some? ==> cursor.value >= 0)
      modifies this, store
      ensures InStep(store.outbox)
      ensures var opening := ES.Open(stream, cursor, NextView(old(store.outbox), old(store.turns)));
              announced == opening.announced && resume == opening.resume && opening.sent <= sent
      ensures stream == GlobalStream ==> forall m :: m in Retained(store.outbox) && m > resume ==> m in sent
    {
      NextViewIsValid(store.outbox, store.turns);
      if stream == RunStream && cursor.None? {
        last := store.LatestSequence();
        resume := last;
        RetainedIsAscending(store.outbox);
        return None;
      }
      var batch := store.ReplayAfter(stream, if cursor.Some? then cursor.value else 0, BATCH_SIZE);
      ghost var view := store.outbox;
      ES.OpeningIsRight(stream, cursor, view, LastOrZero(view.committed));
      announced := Answer(stream, cursor, view, batch);
      if stream == GlobalStream && announced.None? && |batch.messages| == BATCH_SIZE {
        Drain(stream, store);
      } else if stream == GlobalStream {
        EverythingIsSent(view, LastOrZero(view.committed));
      }
    }

    lemma EverythingIsSent(o: Outbox, notified: int)
      requires InStep(o) && notified == LastOrZero(o.committed) && ES.CaughtUp(o, notified, last, [])
      ensures forall m :: m in Retained(o) && m > resume ==> m in sent
    {
      RetainedIsAscending(o);
    }
  }
}
