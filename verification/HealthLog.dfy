/** The log of source health changes: one entry per change, retried until the recorder takes it. */
module HealthLog {
  import opened Text

  /** `rest` stands for what a health report carries beside its state. */
  datatype Health = Health(source: string, status: string, version: string, rest: string)

  /** sameHealthState. */
  predicate SameState(a: Health, b: Health) {
    a.status == b.status && a.version == b.version
  }

  datatype State = State(persisted: map<string, Health>, pending: map<string, Health>)

  /** The last entry of a source in a log. */
  function Last(log: seq<Health>, source: string): Option<Health> {
    if log == [] then None
    else if log[|log| - 1].source == source then Some(log[|log| - 1])
    else Last(log[..|log| - 1], source)
  }

  /** newHealthPersistenceState: a later report of a source replaces an earlier one. */
  method NewState(initial: seq<Health>) returns (s: State)
    ensures s.pending == map[] && Recorded(s, initial)
  {
    var persisted: map<string, Health> := map[];
    for i := 0 to |initial|
      invariant Recorded(State(persisted, map[]), initial[..i])
    {
      LastAppended(initial[..i], initial[i]);
      assert initial[..i + 1] == initial[..i] + [initial[i]];
      persisted := persisted[initial[i].source := initial[i]];
    }
    assert initial[..|initial|] == initial;
    s := State(persisted, map[]);
  }

  /** What is persisted for each source is the log's last entry for it. */
  ghost predicate Recorded(s: State, log: seq<Health>) {
    && (forall source :: source in s.persisted <==> Last(log, source).Some?)
    && (forall source :: source in s.persisted ==> Last(log, source) == Some(s.persisted[source]))
  }

  lemma LastAppended(log: seq<Health>, h: Health)
    ensures forall source :: Last(log + [h], source) == if source == h.source then Some(h) else Last(log, source)
  {
    assert (log + [h])[..|log|] == log;
  }

  lemma {:induction false} LastIsOfSource(log: seq<Health>, source: string)
    ensures Last(log, source).Some? ==> Last(log, source).value.source == source
  {
    if log != [] { LastIsOfSource(log[..|log| - 1], source); }
  }

  /** From entry `from` on, none repeats the state of the entry before it for the same source. */
  predicate NoRepeats(log: seq<Health>, from: nat) {
    forall i :: from <= i < |log| ==>
      var before := Last(log[..i], log[i].source);
      before.None? || !SameState(before.value, log[i])
  }

  /** A pending report is of its own source and differs from what is persisted. */
  predicate PendingDiffers(s: State) {
    forall source :: source in s.pending ==>
      && s.pending[source].source == source
      && (source in s.persisted ==> !SameState(s.persisted[source], s.pending[source]))
  }

  /** `log` starts with the initially persisted entries, `initial` of them. */
  ghost predicate Inv(s: State, log: seq<Health>, initial: nat) {
    Recorded(s, log) && NoRepeats(log, initial) && PendingDiffers(s)
  }

  lemma EntryKeeps(s: State, log: seq<Health>, initial: nat, h: Health)
    requires Inv(s, log, initial) && (h.source in s.persisted ==> !SameState(s.persisted[h.source], h))
    ensures Inv(State(s.persisted[h.source := h], s.pending - {h.source}), log + [h], initial)
  {
    LastAppended(log, h);
    var after := log + [h];
    forall i | initial <= i < |after|
      ensures var before := Last(after[..i], after[i].source); before.None? || !SameState(before.value, after[i])
    {
      assert after[..i] == log[..i];
      if i == |log| { assert log[..i] == log; }
    }
  }

  // ---- One report ----

  /** What the recorder is asked to take first for a report: what is pending, or the report when it is news. */
  function Candidate(s: State, h: Health): Option<Health> {
    if h.source in s.pending then Some(s.pending[h.source])
    else if h.source in s.persisted && SameState(s.persisted[h.source], h) then None
    else Some(h)
  }

  /** What one report does, given whether the recorder takes the first and the second entry it is offered: the new
      state, the entries taken, and whether recording failed. */
  function Report(s: State, h: Health, takesFirst: bool, takesSecond: bool): (State, seq<Health>, bool) {
    match Candidate(s, h)
    case None => (s, [], false)
    case Some(candidate) =>
      if !takesFirst then (s.(pending := s.pending[h.source := candidate]), [], true)
      else
        var taken := State(s.persisted[h.source := candidate], s.pending - {h.source});
        if SameState(candidate, h) then (taken, [candidate], false)
        else if !takesSecond then (taken.(pending := taken.pending[h.source := h]), [candidate], true)
        else (taken.(persisted := taken.persisted[h.source := h]), [candidate, h], false)
  }

  lemma ReportKeeps(s: State, log: seq<Health>, initial: nat, h: Health, takesFirst: bool, takesSecond: bool)
    requires Inv(s, log, initial)
    ensures var (after, entries, failed) := Report(s, h, takesFirst, takesSecond);
            Inv(after, log + entries, initial)
  {
    var (after, entries, failed) := Report(s, h, takesFirst, takesSecond);
    var candidate := Candidate(s, h);
    if entries == [] {
      assert log + entries == log;
    } else {
      EntryKeeps(s, log, initial, candidate.value);
      if |entries| == 2 {
        var taken := State(s.persisted[h.source := candidate.value], s.pending - {h.source});
        EntryKeeps(taken, log + [candidate.value], initial, h);
        assert taken.pending - {h.source} == taken.pending;
        assert taken.persisted[h.source := h] == after.persisted;
        assert log + entries == log + [candidate.value] + [h];
      }
    }
  }

  /** A report's own source is settled, or still owes an entry: the first unrecorded change stays pending until it
      is taken, and a change of state is taken or left pending. */
  lemma NoChangeIsDropped(s: State, h: Health, takesFirst: bool, takesSecond: bool)
    requires PendingDiffers(s)
    ensures var (after, entries, failed) := Report(s, h, takesFirst, takesSecond);
            && (forall source :: source in s.pending ==>
                  s.pending[source] in entries || (source in after.pending && after.pending[source] == s.pending[source]))
            && (Candidate(s, h).Some? ==>
                  Candidate(s, h).value in entries
                  || (h.source in after.pending && after.pending[h.source] == Candidate(s, h).value))
            && (failed <==> h.source in after.pending)
            && (!failed ==> h.source in after.persisted && SameState(after.persisted[h.source], h))
            && (forall source :: source != h.source ==>
                  && (source in after.pending <==> source in s.pending)
                  && (source in s.pending ==> after.pending[source] == s.pending[source])
                  && (source in after.persisted <==> source in s.persisted)
                  && (source in s.persisted ==> after.persisted[source] == s.persisted[source]))
  {
  }

  // ---- The recorder and the poll ----

  class Recorder {
    /** Whether it takes the n-th entry it is offered. */
    const takes: nat -> bool
    var offered: nat
    var entries: seq<Health>

    constructor (takes: nat -> bool, entries: seq<Health>)
      ensures this.takes == takes && this.entries == entries && offered == 0
    {
      this.takes, this.entries, offered := takes, entries, 0;
    }

    /** An entry counts as appended exactly when no error comes back. */
    method RecordHealth(h: Health) returns (ok: bool)
      modifies this
      ensures ok == takes(old(offered)) && offered == old(offered) + 1
      ensures entries == if ok then old(entries) + [h] else old(entries)
    {
      ok := takes(offered);
      offered := offered + 1;
      if ok {
        entries := entries + [h];
      }
    }
  }

  predicate Settled(s: State, h: Health) {
    h.source in s.persisted && SameState(s.persisted[h.source], h) && h.source !in s.pending
  }

  /** No later report, among the first `n`, is of the same source. */
  predicate LastReportBefore(current: seq<Health>, i: nat, n: nat)
    requires i < n <= |current|
  {
    forall j :: i < j < n ==> current[j].source != current[i].source
  }

  /** Every report among the first `n` that is its source's last, and did not fail, is settled. */
  predicate SettledUpTo(s: State, current: seq<Health>, n: nat, failures: seq<string>)
    requires n <= |current|
  {
    forall k :: 0 <= k < n && LastReportBefore(current, k, n) && current[k].source !in failures ==> Settled(s, current[k])
  }

  /** What was pending at first has been recorded since, or is pending still. */
  predicate Accounted(pending: map<string, Health>, s: State, entries: seq<Health>) {
    forall source :: source in pending ==>
      pending[source] in entries || (source in s.pending && s.pending[source] == pending[source])
  }

  lemma SettledNext(s: State, current: seq<Health>, n: nat, failures: seq<string>, first: bool, second: bool)
    requires n < |current| && PendingDiffers(s) && SettledUpTo(s, current, n, failures)
    ensures var (after, _, failed) := Report(s, current[n], first, second);
            SettledUpTo(after, current, n + 1, if failed then failures + [current[n].source] else failures)
  {
    NoChangeIsDropped(s, current[n], first, second);
    var (after, _, failed) := Report(s, current[n], first, second);
    forall k | 0 <= k < n && LastReportBefore(current, k, n + 1) && current[k].source !in failures
      ensures Settled(after, current[k])
    {
      assert LastReportBefore(current, k, n);
    }
  }

  lemma AccountedNext(pending: map<string, Health>, s: State, entries: seq<Health>, h: Health, first: bool, second: bool)
    requires PendingDiffers(s) && Accounted(pending, s, entries)
    ensures var (after, more, _) := Report(s, h, first, second); Accounted(pending, after, entries + more)
  {
    NoChangeIsDropped(s, h, first, second);
  }

  class Monitor {
    var persisted: map<string, Health>
    var pending: map<string, Health>

    constructor (initial: seq<Health>)
      ensures Inv(Contents(), initial, |initial|)
    {
      var s := NewState(initial);
      persisted, pending := s.persisted, s.pending;
    }

    function Contents(): State
      reads this
    {
      State(persisted, pending)
    }

    /** The body of the loop over the reports. */
    method PersistOne(recorder: Recorder, h: Health) returns (failed: bool, ghost first: bool, ghost second: bool)
      modifies this, recorder
      ensures var (after, entries, refused) := Report(old(Contents()), h, first, second);
              Contents() == after && recorder.entries == old(recorder.entries) + entries && failed == refused
    {
      first, second := true, true;
      var candidate := h;
      if h.source in pending {
        candidate := pending[h.source];
      } else if h.source in persisted && SameState(persisted[h.source], h) {
        assert recorder.entries == recorder.entries + [];
        failed := false;
        return;
      }
      var took := recorder.RecordHealth(candidate);
      if !took {
        first := false;
        pending := pending[h.source := candidate];
        failed := true;
        assert recorder.entries == recorder.entries + [];
        return;
      }
      persisted := persisted[h.source := candidate];
      pending := pending - {h.source};
      if SameState(candidate, h) {
        failed := false;
        return;
      }
      took := recorder.RecordHealth(h);
      if !took {
        second := false;
        pending := pending[h.source := h];
        failed := true;
        return;
      }
      persisted := persisted[h.source := h];
      assert recorder.entries == old(recorder.entries) + [candidate, h];
      failed := false;
    }

    /** persistChanges: whatever the recorder refuses, the log repeats no state, pending reports differ from what is
        persisted, nothing pending is dropped unrecorded, and a poll without a failure leaves every reported source
        persisted in the state it was last reported in. */
    method PersistChanges(recorder: Recorder, current: seq<Health>, ghost initial: nat) returns (failures: seq<string>)
      requires Inv(Contents(), recorder.entries, initial)
      modifies this, recorder
      ensures Inv(Contents(), recorder.entries, initial) && old(recorder.entries) <= recorder.entries
      ensures Accounted(old(pending), Contents(), recorder.entries[|old(recorder.entries)|..])
      ensures SettledUpTo(Contents(), current, |current|, failures)
    {
      failures := [];
      ghost var log := recorder.entries;
      for i := 0 to |current|
        invariant Inv(Contents(), recorder.entries, initial) && log <= recorder.entries
        invariant Accounted(old(pending), Contents(), recorder.entries[|log|..])
        invariant SettledUpTo(Contents(), current, i, failures)
      {
        ghost var s, before := Contents(), recorder.entries;
        var h := current[i];
        var failed, first, second := PersistOne(recorder, h);
        ghost var more := Report(s, h, first, second).1;
        ReportKeeps(s, before, initial, h, first, second);
        SettledNext(s, current, i, failures, first, second);
        AccountedNext(old(pending), s, before[|log|..], h, first, second);
        assert recorder.entries[|log|..] == before[|log|..] + more;
        if failed {
          failures := failures + [h.source];
        }
      }
    }
  }

  /** monitorHealth: any number of polls, against a recorder that may refuse anything. The entries after the
      initially persisted ones never repeat a source's state twice in a row. */
  method MonitorHealth(initial: seq<Health>, polls: seq<seq<Health>>, takes: nat -> bool)
    returns (recorder: Recorder, s: State)
    ensures fresh(recorder) && initial <= recorder.entries
    ensures Inv(s, recorder.entries, |initial|)
  {
    var monitor := new Monitor(initial);
    recorder := new Recorder(takes, initial);
    for i := 0 to |polls|
      invariant fresh(monitor) && fresh(recorder)
      invariant initial <= recorder.entries && Inv(monitor.Contents(), recorder.entries, |initial|)
    {
      var failures := monitor.PersistChanges(recorder, polls[i], |initial|);
    }
    s := monitor.Contents();
  }
}
