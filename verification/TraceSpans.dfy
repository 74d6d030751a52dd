/** Trace spans: what the persistence boundary accepts, and how repeated deliveries of one span converge. Times are
    nanoseconds since Go's zero time, so a zero time is 0. */
module TraceSpans {
  import opened Text

  const CAPTURED := "captured"
  const REDACTED := "redacted"
  const TRUNCATED := "truncated"
  const NOT_COLLECTED := "not_collected"
  const EXPIRED := "expired"

  const MICROSECOND := 1000
  const MILLISECOND := 1_000_000

  type Attributes = map<string, string>

  /** Absent attributes stand for a nil map. */
  datatype Event = Event(name: string, time: int, attributes: Option<Attributes>)

  /** `rest` stands for the members that are only carried along. */
  datatype Span = Span(
    traceId: string, spanId: string, parentId: string, name: string, started: int, ended: Option<int>,
    durationMs: Option<int>, status: string, contentState: string, tokens: seq<Option<int>>,
    attributes: Option<Attributes>, resource: Option<Attributes>, events: Option<seq<Event>>, receivedAt: int,
    updatedAt: int, rest: string)

  // ---- Preparing ----

  function LowerAll(s: string): string {
    seq(|s|, i requires 0 <= i < |s| => Lower(s[i]))
  }

  /** Rounded down to a microsecond. */
  function Truncated(time: int): int {
    time - time % MICROSECOND
  }

  function OrEmpty(attributes: Option<Attributes>): Option<Attributes> {
    if attributes.None? then Some(map[]) else attributes
  }

  predicate ValidState(state: string) {
    state in [CAPTURED, REDACTED, TRUNCATED, NOT_COLLECTED, EXPIRED]
  }

  /** What PrepareSpan demands of the trimmed and lowered span. */
  predicate Acceptable(s: Span) {
    && ValidHexId(s.traceId, 16) && ValidHexId(s.spanId, 8) && (s.parentId != "" ==> ValidHexId(s.parentId, 8))
    && s.name != "" && s.started != 0
    && (s.ended.Some? ==> Truncated(s.started) <= Truncated(s.ended.value))
    && (s.contentState == "" || ValidState(s.contentState))
    && NonNegative(s.tokens)
  }

  function Trimmed(s: Span): Span {
    s.(traceId := LowerAll(Trim(s.traceId)), spanId := LowerAll(Trim(s.spanId)),
       parentId := LowerAll(Trim(s.parentId)), name := Trim(s.name))
  }

  function FilledEvents(events: seq<Event>): seq<Event> {
    seq(|events|, i requires 0 <= i < |events| => events[i].(attributes := OrEmpty(events[i].attributes)))
  }

  /** The prepared span; `now` is already rounded. */
  function Filled(s: Span, now: int): Span {
    var started := Truncated(s.started);
    s.(started := started,
       ended := match s.ended case None => None case Some(end) => Some(Truncated(end)),
       durationMs := match s.ended case None => None case Some(end) => Some((Truncated(end) - started) / MILLISECOND),
       status := if s.status == "" then "unset" else s.status,
       contentState := if s.contentState == "" then NOT_COLLECTED else s.contentState,
       attributes := OrEmpty(s.attributes), resource := OrEmpty(s.resource),
       events := Some(FilledEvents(match s.events case None => [] case Some(events) => events)),
       receivedAt := if s.receivedAt == 0 then now else Truncated(s.receivedAt),
       updatedAt := now)
  }

  /** PrepareSpan as a function; a rejected span is None. `now` is not the zero time. */
  function Prepare(s: Span, now: int): Option<Span> {
    if Acceptable(Trimmed(s)) then Some(Filled(Trimmed(s), Truncated(now))) else None
  }

  predicate NonNegative(tokens: seq<Option<int>>) {
    forall i :: 0 <= i < |tokens| && tokens[i].Some? ==> tokens[i].value >= 0
  }

  method TokensAreCounts(tokens: seq<Option<int>>) returns (ok: bool)
    ensures ok == NonNegative(tokens)
  {
    for i := 0 to |tokens|
      invariant NonNegative(tokens[..i])
    {
      if tokens[i].Some? && tokens[i].value < 0 {
        return false;
      }
    }
    assert tokens[..|tokens|] == tokens;
    ok := true;
  }

  /** The nil attribute maps of the events, replaced one by one. */
  method FillEvents(given: seq<Event>) returns (events: seq<Event>)
    ensures events == FilledEvents(given)
  {
    events := given;
    for i := 0 to |events|
      invariant |events| == |given|
      invariant forall k :: 0 <= k < |given| ==>
                  events[k] == if k < i then given[k].(attributes := OrEmpty(given[k].attributes)) else given[k]
    {
      if events[i].attributes.None? {
        events := events[i := events[i].(attributes := Some(map[]))];
      }
    }
  }

  /** PrepareSpan: the copy is corrected member by member, the events in place in their slice. */
  method PrepareSpan(input: Span, now: int) returns (r: Option<Span>)
    requires now != 0
    ensures r == Prepare(input, now)
  {
    var span := Trimmed(input);
    if !ValidHexId(span.traceId, 16) || !ValidHexId(span.spanId, 8) {
      return None;
    }
    if span.parentId != "" && !ValidHexId(span.parentId, 8) {
      return None;
    }
    if span.name == "" || span.started == 0 {
      return None;
    }
    span := span.(started := Truncated(span.started));
    if span.ended.Some? {
      var end := Truncated(span.ended.value);
      if end < span.started {
        return None;
      }
      span := span.(ended := Some(end), durationMs := Some((end - span.started) / MILLISECOND));
    } else {
      span := span.(durationMs := None);
    }
    if span.status == "" {
      span := span.(status := "unset");
    }
    if span.contentState == "" {
      span := span.(contentState := NOT_COLLECTED);
    }
    if !ValidState(span.contentState) {
      return None;
    }
    var counted := TokensAreCounts(span.tokens);
    if !counted {
      return None;
    }
    var events := FillEvents(if span.events.Some? then span.events.value else []);
    var rounded := Truncated(now);
    r := Some(span.(
      attributes := OrEmpty(span.attributes), resource := OrEmpty(span.resource), events := Some(events),
      receivedAt := if span.receivedAt == 0 then rounded else Truncated(span.receivedAt), updatedAt := rounded));
  }

  /** What a stored span is: identified, named, in whole microseconds, ending no earlier than it starts, with the
      duration its times give, and with no member left nil. */
  predicate Prepared(s: Span) {
    && ValidHexId(s.traceId, 16) && ValidHexId(s.spanId, 8) && (s.parentId != "" ==> ValidHexId(s.parentId, 8))
    && s.name != "" && ValidState(s.contentState) && s.status != ""
    && s.started % MICROSECOND == 0
    && (s.ended.Some? <==> s.durationMs.Some?)
    && (s.ended.Some? ==>
          && s.ended.value % MICROSECOND == 0 && s.started <= s.ended.value
          && s.durationMs.value * MILLISECOND <= s.ended.value - s.started < (s.durationMs.value + 1) * MILLISECOND)
    && s.attributes.Some? && s.resource.Some? && s.events.Some?
    && (forall e :: e in s.events.value ==> e.attributes.Some?)
    && NonNegative(s.tokens)
  }

  lemma PreparedIsPrepared(s: Span, now: int)
    requires Prepare(s, now).Some?
    ensures Prepared(Prepare(s, now).value)
  {
  }

  /** Preparing corrects form only: every member given is kept, times move back less than a microsecond, and the
      events stay as many, in order, under their names and times. */
  lemma PreparingKeepsWhatIsGiven(s: Span, now: int)
    requires Prepare(s, now).Some?
    ensures var p := Prepare(s, now).value;
            && p.name == Trim(s.name) && |p.traceId| == |Trim(s.traceId)| && |p.spanId| == |Trim(s.spanId)|
            && p.tokens == s.tokens && p.rest == s.rest
            && 0 <= s.started - p.started < MICROSECOND
            && (p.ended.Some? <==> s.ended.Some?)
            && (s.ended.Some? ==> 0 <= s.ended.value - p.ended.value < MICROSECOND)
            && (s.status != "" ==> p.status == s.status)
            && (s.contentState != "" ==> p.contentState == s.contentState)
            && (s.attributes.Some? ==> p.attributes == s.attributes) && (s.resource.Some? ==> p.resource == s.resource)
            && (s.receivedAt != 0 ==> 0 <= s.receivedAt - p.receivedAt < MICROSECOND)
            && p.events.Some? && |p.events.value| == (if s.events.Some? then |s.events.value| else 0)
            && forall i :: 0 <= i < |p.events.value| ==>
                 && p.events.value[i].name == s.events.value[i].name && p.events.value[i].time == s.events.value[i].time
                 && (s.events.value[i].attributes.Some? ==> p.events.value[i] == s.events.value[i])
  {
  }

  // ---- Preparing twice ----

  lemma {:induction false} TrimRightEnds(s: string)
    ensures TrimRight(s) <= s && (TrimRight(s) != "" ==> !IsSpace(TrimRight(s)[|TrimRight(s)| - 1]))
  {
    if s != "" && IsSpace(s[|s| - 1]) { TrimRightEnds(s[..|s| - 1]); }
  }

  lemma {:induction false} TrimLeftStarts(s: string)
    ensures TrimLeft(s) != "" ==> !IsSpace(TrimLeft(s)[0])
  {
    if s != "" && IsSpace(s[0]) { TrimLeftStarts(s[1..]); }
  }

  lemma TrimTwice(s: string)
    ensures Trim(Trim(s)) == Trim(s)
  {
    TrimLeftStarts(s);
    TrimRightEnds(TrimLeft(s));
  }

  /** A valid ID is its own trimmed, lower-case form once lowered. */
  lemma IdStays(s: string)
    requires forall i :: 0 <= i < |s| ==> IsHexDigit(s[i])
    ensures LowerAll(Trim(LowerAll(s))) == LowerAll(s)
  {
    var low := LowerAll(s);
    assert forall i :: 0 <= i < |low| ==> !IsSpace(low[i]) && Lower(low[i]) == low[i];
    assert TrimLeft(low) == low && TrimRight(low) == low;
  }

  lemma LoweredHex(s: string)
    requires forall i :: 0 <= i < |LowerAll(s)| ==> IsHexDigit(LowerAll(s)[i])
    ensures LowerAll(Trim(LowerAll(s))) == LowerAll(s)
  {
    forall i | 0 <= i < |s| ensures IsHexDigit(s[i]) {
      assert LowerAll(s)[i] == Lower(s[i]);
    }
    IdStays(s);
  }

  lemma TruncatedTwice(time: int)
    ensures Truncated(Truncated(time)) == Truncated(time)
  {
  }

  lemma TrimmedTwice(s: Span)
    requires Acceptable(Trimmed(s))
    ensures Trimmed(Trimmed(s)) == Trimmed(s)
  {
    LoweredHex(Trim(s.traceId));
    LoweredHex(Trim(s.spanId));
    if Trimmed(s).parentId == "" {
      assert Trim(s.parentId) == "";
      assert LowerAll("") == "";
    } else {
      LoweredHex(Trim(s.parentId));
    }
    TrimTwice(s.name);
  }

  lemma FilledTwice(t: Span, now: int, later: int)
    ensures var p := Filled(t, Truncated(now));
            Filled(p, Truncated(later)) ==
            p.(updatedAt := Truncated(later),
               receivedAt := if p.receivedAt == 0 then Truncated(later) else p.receivedAt)
  {
    var p := Filled(t, Truncated(now));
    TruncatedTwice(t.started);
    if t.ended.Some? { TruncatedTwice(t.ended.value); }
    TruncatedTwice(t.receivedAt);
    TruncatedTwice(now);
    assert FilledEvents(p.events.value) == p.events.value;
  }

  lemma AcceptableAgain(t: Span, now: int)
    requires Acceptable(t)
    ensures Acceptable(Filled(t, now)) <==> Filled(t, now).started != 0
  {
    TruncatedTwice(t.started);
    if t.ended.Some? { TruncatedTwice(t.ended.value); }
  }

  /** Preparing a prepared span again is accepted exactly unless its start rounded down to the zero time, and then
      changes only when it was updated, and when it was received if that rounded to zero too. */
  lemma PrepareTwice(s: Span, now: int, later: int)
    requires Prepare(s, now).Some?
    ensures var p := Prepare(s, now).value;
            && (Prepare(p, later).Some? <==> p.started != 0)
            && (p.started != 0 ==>
                  Prepare(p, later).value ==
                  p.(updatedAt := Truncated(later),
                     receivedAt := if p.receivedAt == 0 then Truncated(later) else p.receivedAt))
  {
    var t, p := Trimmed(s), Prepare(s, now).value;
    TrimmedTwice(s);
    assert Trimmed(p) == p;
    AcceptableAgain(t, Truncated(now));
    FilledTwice(t, now, later);
  }

  // ---- Merging ----

  /** Does `a` end before `b`? A span that has not ended is before every one that has. */
  predicate EndsBefore(a: Option<int>, b: Option<int>) {
    b.Some? && (a.None? || a.value < b.value)
  }

  /** MergeSpan. */
  function Merge(existing: Span, incoming: Span): Span {
    if EndsBefore(incoming.ended, existing.ended) then existing
    else
      var state := if existing.contentState == EXPIRED then EXPIRED else incoming.contentState;
      incoming.(contentState := state, receivedAt := existing.receivedAt)
  }

  /** What is stored after a sequence of deliveries. */
  function Stored(deliveries: seq<Span>): Span
    requires deliveries != []
  {
    if |deliveries| == 1 then deliveries[0]
    else Merge(Stored(deliveries[..|deliveries| - 1]), deliveries[|deliveries| - 1])
  }

  /** Delivery `k` replaced what was stored: nothing before it ended later. */
  predicate Accepted(deliveries: seq<Span>, k: nat) {
    k < |deliveries| && forall i :: 0 <= i < k ==> !EndsBefore(deliveries[k].ended, deliveries[i].ended)
  }

  predicate AcceptedExpired(deliveries: seq<Span>, k: nat) {
    Accepted(deliveries, k) && deliveries[k].contentState == EXPIRED
  }

  /** The delivery that is kept: accepted, and every later one ends earlier. */
  predicate Winner(deliveries: seq<Span>, k: nat) {
    && Accepted(deliveries, k)
    && forall i :: k < i < |deliveries| ==> EndsBefore(deliveries[i].ended, deliveries[k].ended)
  }

  lemma AcceptedInPrefix(deliveries: seq<Span>, n: nat, k: nat)
    requires k < n <= |deliveries|
    ensures Accepted(deliveries[..n], k) <==> Accepted(deliveries, k)
    ensures AcceptedExpired(deliveries[..n], k) <==> AcceptedExpired(deliveries, k)
  {
    assert forall i :: 0 <= i < n ==> deliveries[..n][i] == deliveries[i];
  }

  /** The stored record is the last of the deliveries with the latest end, first received when the first one was,
      and expired exactly when some accepted delivery was. */
  lemma {:induction false} StoredIs(deliveries: seq<Span>) returns (k: nat)
    requires deliveries != []
    ensures Winner(deliveries, k)
    ensures var state := if exists i: nat :: AcceptedExpired(deliveries, i) then EXPIRED else deliveries[k].contentState;
            Stored(deliveries) == deliveries[k].(contentState := state, receivedAt := deliveries[0].receivedAt)
  {
    if |deliveries| == 1 {
      k := 0;
      assert AcceptedExpired(deliveries, 0) <==> deliveries[0].contentState == EXPIRED;
    } else {
      var last := |deliveries| - 1;
      var before := deliveries[..last];
      var j := StoredIs(before);
      forall i: nat | i < last
        ensures Accepted(before, i) <==> Accepted(deliveries, i)
        ensures AcceptedExpired(before, i) <==> AcceptedExpired(deliveries, i)
      {
        AcceptedInPrefix(deliveries, last, i);
      }
      k := if EndsBefore(deliveries[last].ended, deliveries[j].ended) then j else last;
      AcceptedLast(deliveries, j);
      assert AcceptedExpired(deliveries, last) ==> k == last;
    }
  }

  /** The last delivery is accepted exactly when it does not end before the winner so far. */
  lemma AcceptedLast(deliveries: seq<Span>, j: nat)
    requires |deliveries| > 1 && Winner(deliveries[..|deliveries| - 1], j)
    ensures var last := |deliveries| - 1;
            Accepted(deliveries, last) <==> !EndsBefore(deliveries[last].ended, deliveries[j].ended)
  {
    var last := |deliveries| - 1;
    var before := deliveries[..last];
    forall i | 0 <= i < last ensures !EndsBefore(deliveries[j].ended, deliveries[i].ended) {
      assert before[i] == deliveries[i] && before[j] == deliveries[j];
    }
  }

  /** The stored end is the latest delivered one, if any was. */
  predicate LatestEnd(deliveries: seq<Span>, ended: Option<int>) {
    && (exists i :: 0 <= i < |deliveries| && deliveries[i].ended == ended)
    && forall i :: 0 <= i < |deliveries| ==> !EndsBefore(ended, deliveries[i].ended)
  }

  lemma StoredEndIsLatest(deliveries: seq<Span>)
    requires deliveries != []
    ensures LatestEnd(deliveries, Stored(deliveries).ended)
  {
    var k := StoredIs(deliveries);
  }

  /** So it does not depend on the order of delivery, nor on repetition. */
  lemma EndIgnoresOrder(a: seq<Span>, b: seq<Span>)
    requires a != [] && b != [] && forall s :: s in a <==> s in b
    ensures Stored(a).ended == Stored(b).ended
  {
    StoredEndIsLatest(a);
    StoredEndIsLatest(b);
    var i :| 0 <= i < |a| && a[i].ended == Stored(a).ended;
    var j :| 0 <= j < |b| && b[j].ended == Stored(b).ended;
    assert a[i] in b && b[j] in a;
  }

  /** Once expired, always expired. */
  lemma {:induction false} ExpiryNeverReverts(deliveries: seq<Span>, more: seq<Span>)
    requires deliveries != [] && Stored(deliveries).contentState == EXPIRED
    ensures Stored(deliveries + more).contentState == EXPIRED
  {
    if more == [] {
      assert deliveries + more == deliveries;
    } else {
      var last := |more| - 1;
      ExpiryNeverReverts(deliveries, more[..last]);
      assert (deliveries + more)[..|deliveries| + last] == deliveries + more[..last];
    }
  }

  lemma MergeTwice(existing: Span, incoming: Span)
    ensures Merge(Merge(existing, incoming), incoming) == Merge(existing, incoming)
    ensures Merge(incoming, incoming) == incoming
  {
  }

  /** Delivering the last span again changes nothing. */
  lemma RepeatingTheLastChangesNothing(deliveries: seq<Span>)
    requires deliveries != []
    ensures Stored(deliveries + [deliveries[|deliveries| - 1]]) == Stored(deliveries)
  {
    var last := deliveries[|deliveries| - 1];
    assert (deliveries + [last])[..|deliveries|] == deliveries;
    if |deliveries| == 1 {
      MergeTwice(last, last);
    } else {
      MergeTwice(Stored(deliveries[..|deliveries| - 1]), last);
    }
  }

  /** Merging prepared spans stores a prepared span. */
  lemma {:induction false} StoredIsPrepared(deliveries: seq<Span>)
    requires deliveries != [] && forall s :: s in deliveries ==> Prepared(s)
    ensures Prepared(Stored(deliveries))
  {
    if |deliveries| > 1 {
      StoredIsPrepared(deliveries[..|deliveries| - 1]);
      assert Prepared(deliveries[|deliveries| - 1]);
    }
  }
}
