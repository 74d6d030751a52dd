/** The durable outbox as its readers see it: ascending sequences, pruned from the front, replayed in bounded
    batches; and the reset decision a stream handler takes on its first batch. */
module EventOutbox {
  import opened Text

  const BATCH_SIZE: nat := 1000

  /** Every sequence ever committed, oldest first, and how many of them retention has removed. */
  datatype OutboxRows = Outbox(committed: seq<int>, pruned: nat)

  type Outbox = o: OutboxRows | o.pruned <= |o.committed| witness Outbox([], 0)

  datatype Batch = Batch(messages: seq<int>, oldest: int, latest: int)

  /** The global stream keeps its latest sequence across pruning; a run's stream only knows the rows left. */
  datatype Stream = GlobalStream | RunStream

  datatype ResetReason = CursorAhead | OutboxRetention

  ghost predicate Ascending(s: seq<int>) {
    forall i, j :: 0 <= i < j < |s| ==> s[i] < s[j]
  }

  ghost predicate Valid(o: Outbox) {
    && Ascending(o.committed)
    && (forall i :: 0 <= i < |o.committed| ==> 0 < o.committed[i])
  }

  function Retained(o: Outbox): seq<int>
  {
    o.committed[o.pruned..]
  }

  function LastOrZero(s: seq<int>): int {
    if s == [] then 0 else s[|s| - 1]
  }

  function Above(s: seq<int>, after: int): seq<int> {
    if s == [] || s[0] > after then s else Above(s[1..], after)
  }

  function Take(s: seq<int>, limit: nat): seq<int> {
    if |s| <= limit then s else s[..limit]
  }

  /** ReplayAfter and ReplayDemoAfter. */
  function Replay(stream: Stream, o: Outbox, after: int, limit: nat): Batch
  {
    var rows := Retained(o);
    Batch(Take(Above(rows, after), limit),
          if rows == [] then 0 else rows[0],
          LastOrZero(if stream == GlobalStream then o.committed else rows))
  }

  function Reset(stream: Stream, cursor: int, b: Batch): Option<ResetReason> {
    if stream == RunStream && b.latest == 0 && cursor > 0 then Some(OutboxRetention)
    else if cursor > b.latest then Some(CursorAhead)
    else if (b.oldest > 0 && cursor < b.oldest) || (b.oldest == 0 && b.latest > cursor) then Some(OutboxRetention)
    else None
  }

  /** Some message above `cursor` has been committed and is no longer retained. */
  ghost predicate Lost(o: Outbox, cursor: int)
  {
    exists i :: 0 <= i < o.pruned && o.committed[i] > cursor
  }

  lemma {:induction false} AboveIsSuffix(s: seq<int>, after: int)
    requires Ascending(s)
    ensures var a := Above(s, after);
            && |a| <= |s| && a == s[|s| - |a|..]
            && (forall i :: 0 <= i < |a| ==> a[i] > after)
            && (forall i :: 0 <= i < |s| - |a| ==> s[i] <= after)
  {
    if s != [] {
      if s[0] > after {
        assert s[0..] == s;
      } else {
        AboveIsSuffix(s[1..], after);
        var a := Above(s[1..], after);
        assert s[1..][|s| - 1 - |a|..] == s[|s| - |a|..];
        assert forall i :: 1 <= i < |s| ==> s[i] == s[1..][i - 1];
      }
    }
  }

  /** `b` is the stretch of `rows` that starts right above `after`, cut at `limit`. */
  ghost predicate Stretch(rows: seq<int>, b: seq<int>, after: int, limit: nat, from: nat) {
    && from + |b| <= |rows| && b == rows[from..from + |b|] && |b| <= limit
    && (forall i :: 0 <= i < from ==> rows[i] <= after)
    && (forall i :: 0 <= i < |b| ==> after < b[i])
    && (|b| == limit || from + |b| == |rows|)
  }

  lemma BatchIsStretch(rows: seq<int>, after: int, limit: nat) returns (from: nat)
    requires Ascending(rows)
    ensures Stretch(rows, Take(Above(rows, after), limit), after, limit, from)
  {
    AboveIsSuffix(rows, after);
    from := |rows| - |Above(rows, after)|;
  }

  lemma StretchIsComplete(rows: seq<int>, b: seq<int>, after: int, limit: nat, from: nat, m: int)
    requires Ascending(rows) && Stretch(rows, b, after, limit, from)
    requires m in rows && after < m && m !in b
    ensures |b| == limit && forall k :: k in b ==> k < m
  {
    var i :| 0 <= i < |rows| && rows[i] == m;
    assert from <= i;
    forall j | from <= j < from + |b| ensures rows[j] in b {
      assert b[j - from] == rows[j];
    }
  }

  /** A short batch is everything retained above `after`; a full one is followed only by later messages. */
  lemma BatchMeaning(stream: Stream, o: Outbox, after: int, limit: nat)
    requires Valid(o)
    ensures var b := Replay(stream, o, after, limit);
            && Ascending(b.messages) && |b.messages| <= limit
            && (forall m :: m in b.messages ==> m in Retained(o) && m > after)
            && (forall m :: m in Retained(o) && after < m && m !in b.messages ==>
                  |b.messages| == limit && forall k :: k in b.messages ==> k < m)
  {
    var rows, b := Retained(o), Replay(stream, o, after, limit).messages;
    var from := BatchIsStretch(rows, after, limit);
    forall m | m in rows && after < m && m !in b
      ensures |b| == limit && forall k :: k in b ==> k < m
    {
      StretchIsComplete(rows, b, after, limit, from, m);
    }
  }

  lemma RetainedIsAscending(o: Outbox)
    requires Valid(o)
    ensures Ascending(Retained(o))
    ensures forall m :: m in Retained(o) ==> 0 < m <= LastOrZero(o.committed) && m <= LastOrZero(Retained(o))
  {
  }

  /** Global stream: without a reset nothing above the cursor had been pruned. The converse fails: a reset although
      nothing was lost happens exactly when the cursor is ahead of the latest sequence, or below the oldest retained
      one but not below any pruned one. */
  lemma GlobalResetIsSound(o: Outbox, cursor: int, limit: nat)
    requires Valid(o) && cursor >= 0
    ensures var reset := Reset(GlobalStream, cursor, Replay(GlobalStream, o, cursor, limit));
            && (reset.None? ==> !Lost(o, cursor))
            && (reset.Some? && !Lost(o, cursor) <==>
                  || cursor > LastOrZero(o.committed)
                  || (Retained(o) != [] && cursor < Retained(o)[0]
                      && (o.pruned > 0 ==> o.committed[o.pruned - 1] <= cursor)))
  {
    var rows := Retained(o);
    if rows != [] {
      assert rows[0] == o.committed[o.pruned];
    } else if o.pruned > 0 {
      assert LastOrZero(o.committed) == o.committed[o.pruned - 1];
    }
    if o.pruned > 0 && o.committed[o.pruned - 1] > cursor {
      assert Lost(o, cursor);
    }
  }

  /** A run's stream: the same guarantee, with one exception that is exactly characterised. When every row of
      the run has been pruned the handler no longer knows there were any, so cursor 0 is told nothing. A reset
      although nothing was lost happens exactly when the cursor is ahead of the rows left, or of all rows when none
      is left, or below the oldest retained one but not below any pruned one. */
  lemma RunResetIsSoundExceptFromZero(o: Outbox, cursor: int, limit: nat)
    requires Valid(o) && cursor >= 0
    ensures var reset := Reset(RunStream, cursor, Replay(RunStream, o, cursor, limit));
            var rows := Retained(o);
            && (reset.None? ==> (Lost(o, cursor) <==> cursor == 0 && rows == [] && o.committed != []))
            && (reset.Some? && !Lost(o, cursor) <==>
                  || (rows == [] && cursor > 0 && cursor >= LastOrZero(o.committed))
                  || (rows != [] && cursor > LastOrZero(rows))
                  || (rows != [] && cursor < rows[0] && (o.pruned > 0 ==> o.committed[o.pruned - 1] <= cursor)))
  {
    var rows := Retained(o);
    LostIsLastPruned(o, cursor);
    if rows != [] {
      assert rows[0] == o.committed[o.pruned] && rows[|rows| - 1] == o.committed[|o.committed| - 1];
    } else if o.committed != [] {
      assert o.committed[0] > 0 && o.pruned == |o.committed|;
    }
  }

  lemma LostIsLastPruned(o: Outbox, cursor: int)
    requires Valid(o)
    ensures Lost(o, cursor) <==> o.pruned > 0 && o.committed[o.pruned - 1] > cursor
  {
  }

  /** A needless reset costs messages: a new client that presents cursor 0 before anything was pruned is sent to the
      latest sequence, past a retained message it has never seen. So is one whose cursor falls in a gap. */
  lemma NeedlessResetSkipsRetained()
    ensures var o: Outbox := Outbox([5], 0);
            && Valid(o) && !Lost(o, 0) && !Lost(o, 3) && 5 in Retained(o)
            && Reset(GlobalStream, 0, Replay(GlobalStream, o, 0, BATCH_SIZE)) == Some(OutboxRetention)
            && Reset(RunStream, 3, Replay(RunStream, o, 3, BATCH_SIZE)) == Some(OutboxRetention)
            && Replay(GlobalStream, o, 0, BATCH_SIZE).latest == 5 && Replay(RunStream, o, 3, BATCH_SIZE).latest == 5
  {
    var o: Outbox := Outbox([5], 0);
    assert Retained(o) == [5] && Retained(o)[0] == 5;
  }

  /** The exception happens. */
  lemma RunResetMissesFullyPrunedRun()
    ensures var o: Outbox := Outbox([7, 9], 2);
            Valid(o) && Lost(o, 0) && Reset(RunStream, 0, Replay(RunStream, o, 0, BATCH_SIZE)) == None
  {
    var o: Outbox := Outbox([7, 9], 2);
    assert o.committed[0] > 0;
  }
}
