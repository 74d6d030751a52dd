/** The bounded store of trust scan jobs: created under a capacity, updated by workers, finished ones pruned in
    place to make room. */
module JobStore {
  import opened Text
  import opened Collections

  datatype Status = Queued | Running | Succeeded | Failed

  /** `details` stands for what the job is about, `outcome` for its results, warnings or error. */
  datatype Job = Job(id: string, status: Status, details: string, updatedAt: int, outcome: string)

  datatype Store = Store(jobs: map<string, Job>, order: seq<string>)

  const MAX_JOBS := 100

  predicate Finished(job: Job) {
    job.status == Succeeded || job.status == Failed
  }

  /** The order lists every job once, and there are never more than the maximum. */
  ghost predicate Valid(s: Store) {
    && NoDuplicates(s.order) && (forall id :: id in s.order <==> id in s.jobs)
    && |s.jobs| <= MAX_JOBS
  }

  // ---- Operations on store values ----

  /** The position of the oldest finished job. */
  function OldestFinished(s: Store, from: nat): (r: Option<nat>)
    requires from <= |s.order| && forall id :: id in s.order ==> id in s.jobs
    ensures r.Some? ==> from <= r.value < |s.order| && Finished(s.jobs[s.order[r.value]])
    ensures r.Some? ==> forall k :: from <= k < r.value ==> !Finished(s.jobs[s.order[k]])
    ensures r.None? ==> forall k :: from <= k < |s.order| ==> !Finished(s.jobs[s.order[k]])
    decreases |s.order| - from
  {
    if from == |s.order| then None
    else if Finished(s.jobs[s.order[from]]) then Some(from)
    else OldestFinished(s, from + 1)
  }

  /** A full store loses its oldest finished job; otherwise nothing goes. */
  function Pruned(s: Store): Store
    requires Valid(s)
  {
    var oldest := OldestFinished(s, 0);
    if |s.jobs| < MAX_JOBS || oldest.None? then s
    else Store(s.jobs - {s.order[oldest.value]}, Without(s.order, oldest.value))
  }

  function Create(s: Store, job: Job): Option<Store>
    requires Valid(s)
  {
    var p := Pruned(s);
    if |p.jobs| >= MAX_JOBS then None else Some(Store(p.jobs[job.id := job], p.order + [job.id]))
  }

  function Update(s: Store, id: string, update: Job -> Job): Store {
    if id in s.jobs then s.(jobs := s.jobs[id := update(s.jobs[id])]) else s
  }

  lemma RemovedOne(jobs: map<string, Job>, id: string)
    requires id in jobs
    ensures |jobs - {id}| == |jobs| - 1
  {
    assert (jobs - {id}).Keys == jobs.Keys - {id};
    assert |jobs.Keys| == |jobs| && |(jobs - {id}).Keys| == |jobs - {id}|;
  }

  lemma AddedOne(jobs: map<string, Job>, job: Job)
    requires job.id !in jobs
    ensures |jobs[job.id := job]| == |jobs| + 1
  {
    assert jobs[job.id := job].Keys == jobs.Keys + {job.id};
    assert |jobs.Keys| == |jobs| && |jobs[job.id := job].Keys| == |jobs[job.id := job]|;
  }

  /** `p` is `s` without the job at position `i`, the first finished one in the order. */
  predicate DropsOldestFinished(s: Store, p: Store, i: nat)
    requires i < |s.order| && forall id :: id in s.order ==> id in s.jobs
  {
    && p.order == Without(s.order, i) && p.jobs == s.jobs - {s.order[i]}
    && Finished(s.jobs[s.order[i]]) && forall k :: 0 <= k < i ==> !Finished(s.jobs[s.order[k]])
  }

  lemma WithoutOne(order: seq<string>, i: nat)
    requires i < |order| && NoDuplicates(order)
    ensures var rest := Without(order, i);
            NoDuplicates(rest) && forall id :: id in rest <==> id in order && id != order[i]
  {
    var rest := Without(order, i);
    assert forall k :: 0 <= k < |rest| ==> rest[k] == order[if k < i then k else k + 1];
    forall k | 0 <= k < |order| && k != i ensures order[k] in rest {
      assert rest[if k < i then k else k - 1] == order[k];
    }
  }

  /** A prune keeps the store valid and in order, drops at most the oldest finished job, and leaves room unless
      every job is unfinished. */
  lemma PruneIsGentle(s: Store)
    requires Valid(s)
    ensures var p := Pruned(s);
            && Valid(p)
            && (forall id :: id in p.jobs ==> id in s.jobs && p.jobs[id] == s.jobs[id])
            && (forall id :: id in s.jobs && id !in p.jobs ==> |s.jobs| == MAX_JOBS && Finished(s.jobs[id]))
            && (p == s || exists i :: 0 <= i < |s.order| && DropsOldestFinished(s, p, i))
            && |s.jobs| - 1 <= |p.jobs| <= |s.jobs|
            && (|p.jobs| == MAX_JOBS <==> |s.jobs| == MAX_JOBS && forall id :: id in s.jobs ==> !Finished(s.jobs[id]))
  {
    var oldest := OldestFinished(s, 0);
    if |s.jobs| == MAX_JOBS && oldest.Some? {
      RemovedOne(s.jobs, s.order[oldest.value]);
      WithoutOne(s.order, oldest.value);
      assert DropsOldestFinished(s, Pruned(s), oldest.value);
    } else if |s.jobs| == MAX_JOBS {
      assert forall id :: id in s.jobs ==> id in s.order;
    }
  }

  /** Creating a job fails exactly when a hundred unfinished ones exist; otherwise the job is added last, and what
      it pushed out was finished. */
  lemma CreateIs(s: Store, job: Job)
    requires Valid(s) && job.id !in s.jobs
    ensures Create(s, job).None? <==> |s.jobs| == MAX_JOBS && forall id :: id in s.jobs ==> !Finished(s.jobs[id])
    ensures Create(s, job).Some? ==>
              var after := Create(s, job).value;
              && Valid(after) && job.id in after.jobs && after.jobs[job.id] == job
              && after.order == Pruned(s).order + [job.id]
              && (forall id :: id in s.jobs && !Finished(s.jobs[id]) ==> id in after.jobs && after.jobs[id] == s.jobs[id])
              && (forall id :: id in after.jobs && id != job.id ==> id in s.jobs && after.jobs[id] == s.jobs[id])
  {
    PruneIsGentle(s);
    var p := Pruned(s);
    if |p.jobs| < MAX_JOBS { AddedOne(p.jobs, job); }
  }

  lemma UpdateKeepsValid(s: Store, id: string, update: Job -> Job)
    requires Valid(s)
    ensures Valid(Update(s, id, update)) && Update(s, id, update).jobs.Keys == s.jobs.Keys
  {
    if id in s.jobs {
      assert s.jobs[id := update(s.jobs[id])].Keys == s.jobs.Keys;
      assert |s.jobs.Keys| == |s.jobs|;
      assert |s.jobs[id := update(s.jobs[id])].Keys| == |s.jobs[id := update(s.jobs[id])]|;
    }
  }

  // ---- Workers ----

  datatype Phase = Starting | Scanning

  /** `used` are the IDs ever given out; a worker runs from the job's creation to its outcome. */
  datatype System = System(store: Store, workers: map<string, Phase>, used: set<string>)

  datatype Action =
    | Submit(id: string, details: string, now: int)
    | Begin(id: string, now: int)
    | Complete(id: string, succeeded: bool, outcome: string, now: int)

  function Started(now: int): Job -> Job {
    (job: Job) => job.(status := Running, updatedAt := now)
  }

  function Completed(succeeded: bool, outcome: string, now: int): Job -> Job {
    (job: Job) => job.(status := if succeeded then Succeeded else Failed, outcome := outcome, updatedAt := now)
  }

  /** runJob is two updates; IDs are fresh. */
  function Step(y: System, a: Action): System
    requires Valid(y.store)
  {
    match a
    case Submit(id, details, now) =>
      if id in y.used then y
      else
        (match Create(y.store, Job(id, Queued, details, now, ""))
         case None => y.(used := y.used + {id})
         case Some(store) => System(store, y.workers[id := Starting], y.used + {id}))
    case Begin(id, now) =>
      if id in y.workers && y.workers[id] == Starting
      then y.(store := Update(y.store, id, Started(now)), workers := y.workers[id := Scanning]) else y
    case Complete(id, succeeded, outcome, now) =>
      if id in y.workers && y.workers[id] == Scanning
      then y.(store := Update(y.store, id, Completed(succeeded, outcome, now)), workers := y.workers - {id}) else y
  }

  /** The unfinished jobs are exactly those a worker is on. */
  ghost predicate Inv(y: System) {
    && Valid(y.store)
    && (forall id :: id in y.store.jobs ==> id in y.used)
    && (forall id :: id in y.workers <==> id in y.store.jobs && !Finished(y.store.jobs[id]))
  }

  lemma CreatedKeeps(y: System, job: Job, store: Store)
    requires Inv(y) && job.id !in y.used && !Finished(job)
    requires Valid(store) && job.id in store.jobs && store.jobs[job.id] == job
    requires forall id :: id in y.store.jobs && !Finished(y.store.jobs[id]) ==>
               id in store.jobs && store.jobs[id] == y.store.jobs[id]
    requires forall id :: id in store.jobs && id != job.id ==>
               id in y.store.jobs && store.jobs[id] == y.store.jobs[id]
    ensures Inv(System(store, y.workers[job.id := Starting], y.used + {job.id}))
  {
  }

  lemma SubmitKeeps(y: System, id: string, details: string, now: int)
    requires Inv(y)
    ensures Inv(Step(y, Submit(id, details, now)))
  {
    if id !in y.used {
      var job := Job(id, Queued, details, now, "");
      CreateIs(y.store, job);
      if Create(y.store, job).Some? { CreatedKeeps(y, job, Create(y.store, job).value); }
    }
  }

  lemma BeginKeeps(y: System, id: string, now: int)
    requires Inv(y)
    ensures Inv(Step(y, Begin(id, now)))
  {
    UpdateKeepsValid(y.store, id, Started(now));
  }

  lemma CompleteKeeps(y: System, id: string, succeeded: bool, outcome: string, now: int)
    requires Inv(y)
    ensures Inv(Step(y, Complete(id, succeeded, outcome, now)))
  {
    UpdateKeepsValid(y.store, id, Completed(succeeded, outcome, now));
  }

  lemma StepKeeps(y: System, a: Action)
    requires Inv(y)
    ensures Inv(Step(y, a))
  {
    match a
    case Submit(id, details, now) => SubmitKeeps(y, id, details, now);
    case Begin(id, now) => BeginKeeps(y, id, now);
    case Complete(id, succeeded, outcome, now) => CompleteKeeps(y, id, succeeded, outcome, now);
  }

  const EMPTY := System(Store(map[], []), map[], {})

  ghost predicate Reached(actions: seq<Action>, y: System)
    decreases |actions|
  {
    if actions == [] then y == EMPTY
    else exists before :: Reached(actions[..|actions| - 1], before) && Valid(before.store)
                          && Step(before, actions[|actions| - 1]) == y
  }

  /** In every run a worker's update finds its job, the order lists each job once, there are never more than a
      hundred, and a submission is refused only while a hundred workers are busy. */
  lemma {:induction false} EveryRunKeeps(actions: seq<Action>, y: System)
    requires Reached(actions, y)
    ensures Inv(y) && forall id :: id in y.workers ==> id in y.store.jobs
    decreases |actions|
  {
    if actions != [] {
      var before :| Reached(actions[..|actions| - 1], before) && Valid(before.store)
                    && Step(before, actions[|actions| - 1]) == y;
      EveryRunKeeps(actions[..|actions| - 1], before);
      StepKeeps(before, actions[|actions| - 1]);
    }
  }

  lemma {:induction false} SubsetOfSameSize(a: set<string>, b: set<string>)
    requires a <= b && |a| == |b|
    ensures a == b
  {
    if a != b {
      var x :| x in b && x !in a;
      SubsetIsNotLarger(a, b - {x});
    }
  }

  lemma RefusedOnlyWhenAllBusy(y: System, job: Job)
    requires Inv(y) && job.id !in y.store.jobs
    ensures Create(y.store, job).None? <==> |y.workers| == MAX_JOBS
  {
    CreateIs(y.store, job);
    assert y.workers.Keys <= y.store.jobs.Keys;
    assert |y.workers.Keys| == |y.workers| && |y.store.jobs.Keys| == |y.store.jobs|;
    SubsetIsNotLarger(y.workers.Keys, y.store.jobs.Keys);
    if |y.workers| == MAX_JOBS {
      SubsetOfSameSize(y.workers.Keys, y.store.jobs.Keys);
    } else if |y.store.jobs| == MAX_JOBS {
      assert y.workers.Keys != y.store.jobs.Keys;
    }
  }

  // ---- Pruning in place ----

  /** What the in-place filter has moved to the front once it has read `read` entries, and the jobs then left. */
  function Front(s: Store, oldest: Option<nat>, read: nat): seq<string>
    requires read <= |s.order|
  {
    if oldest.Some? && oldest.value < read then s.order[..oldest.value] + s.order[oldest.value + 1..read]
    else s.order[..read]
  }

  function Left(s: Store, oldest: Option<nat>, read: nat): map<string, Job> {
    if oldest.Some? && oldest.value < read && oldest.value < |s.order| then s.jobs - {s.order[oldest.value]} else s.jobs
  }

  lemma FrontNext(s: Store, oldest: Option<nat>, read: nat)
    requires read < |s.order|
    ensures Front(s, oldest, read + 1) ==
            Front(s, oldest, read) + if oldest == Some(read) then [] else [s.order[read]]
  {
  }

  lemma MovedForward(order: seq<string>, kept: nat, read: nat)
    requires kept <= read < |order|
    ensures var moved := order[kept := order[read]];
            moved[..kept + 1] == order[..kept] + [order[read]] && moved[read + 1..] == order[read..][1..]
  {
  }

  /** While the store is full, the job read is finished exactly when it is the oldest finished one. */
  lemma ReadIsOldest(s: Store, read: nat)
    requires Valid(s) && |s.jobs| == MAX_JOBS && read < |s.order|
    ensures s.order[read] in s.jobs
    ensures var oldest := OldestFinished(s, 0);
            && (oldest.None? || read <= oldest.value ==>
                  (Finished(s.jobs[s.order[read]]) <==> oldest == Some(read)))
            && (oldest.Some? && oldest.value < read ==>
                  s.order[read] in Left(s, oldest, read) && |Left(s, oldest, read)| == MAX_JOBS - 1)
  {
    var oldest := OldestFinished(s, 0);
    if oldest.Some? && oldest.value < read { RemovedOne(s.jobs, s.order[oldest.value]); }
  }

  /** The filter has read `read` entries of a full store's order and kept `kept` of them at its front. */
  ghost predicate Filtering(s: Store, read: nat, order: seq<string>, kept: nat, jobs: map<string, Job>)
    requires Valid(s)
  {
    && kept <= read <= |order| == |s.order| && order[read..] == s.order[read..]
    && order[..kept] == Front(s, OldestFinished(s, 0), read) && jobs == Left(s, OldestFinished(s, 0), read)
  }

  lemma FilterStarts(s: Store)
    requires Valid(s)
    ensures Filtering(s, 0, s.order, 0, s.jobs)
  {
  }

  lemma FilterEnds(s: Store, order: seq<string>, kept: nat, jobs: map<string, Job>)
    requires Valid(s) && |s.jobs| == MAX_JOBS && |order| == |s.order| && Filtering(s, |order|, order, kept, jobs)
    ensures Store(jobs, order[..kept]) == Pruned(s)
  {
    assert s.order[..|s.order|] == s.order;
    var oldest := OldestFinished(s, 0);
    if oldest.Some? {
      assert s.order[oldest.value + 1..|s.order|] == s.order[oldest.value + 1..];
    }
  }

  lemma FilterReads(s: Store, read: nat, order: seq<string>, kept: nat, jobs: map<string, Job>)
    requires Valid(s) && |s.jobs| == MAX_JOBS && Filtering(s, read, order, kept, jobs) && read < |order|
    ensures order[read] == s.order[read] && order[read] in jobs
    ensures |jobs| >= MAX_JOBS && Finished(jobs[order[read]]) <==> OldestFinished(s, 0) == Some(read)
  {
    assert order[read..][0] == s.order[read..][0];
    ReadIsOldest(s, read);
  }

  lemma FilterDrops(s: Store, read: nat, order: seq<string>, kept: nat, jobs: map<string, Job>)
    requires Valid(s) && Filtering(s, read, order, kept, jobs) && read < |order| && order[read] == s.order[read]
    requires OldestFinished(s, 0) == Some(read)
    ensures Filtering(s, read + 1, order, kept, jobs - {order[read]})
  {
    FrontNext(s, OldestFinished(s, 0), read);
    assert order[read..][1..] == order[read + 1..] && s.order[read..][1..] == s.order[read + 1..];
  }

  lemma FilterKeeps(s: Store, read: nat, order: seq<string>, kept: nat, jobs: map<string, Job>)
    requires Valid(s) && Filtering(s, read, order, kept, jobs) && read < |order| && order[read] == s.order[read]
    requires OldestFinished(s, 0) != Some(read)
    ensures Filtering(s, read + 1, order[kept := order[read]], kept + 1, jobs)
  {
    FrontNext(s, OldestFinished(s, 0), read);
    MovedForward(order, kept, read);
    assert s.order[read..][1..] == s.order[read + 1..];
  }

  // ---- The service ----

  class Service {
    var jobs: map<string, Job>
    var order: seq<string>

    constructor ()
      ensures Contents() == Store(map[], [])
    {
      jobs, order := map[], [];
    }

    function Contents(): Store
      reads this
    {
      Store(jobs, order)
    }

    /** pruneCompletedJobs: the order is filtered in place, `kept` entries already moved to its front. */
    method Prune()
      requires Valid(Contents())
      modifies this
      ensures Contents() == Pruned(old(Contents()))
    {
      ghost var s := Contents();
      if |jobs| < MAX_JOBS {
        return;
      }
      FilterStarts(s);
      var kept := 0;
      for read := 0 to |order|
        invariant |order| == |s.order| && Filtering(s, read, order, kept, jobs)
      {
        var id := order[read];
        FilterReads(s, read, order, kept, jobs);
        if |jobs| >= MAX_JOBS && Finished(jobs[id]) {
          FilterDrops(s, read, order, kept, jobs);
          jobs := jobs - {id};
        } else {
          FilterKeeps(s, read, order, kept, jobs);
          order := order[kept := id];
          kept := kept + 1;
        }
      }
      FilterEnds(s, order, kept, jobs);
      order := order[..kept];
    }

    /** newJob; the random ID is an input. */
    method NewJob(id: string, details: string, now: int) returns (created: bool)
      requires Valid(Contents()) && id !in jobs
      modifies this
      ensures var wanted := Create(old(Contents()), Job(id, Queued, details, now, ""));
              && created == wanted.Some?
              && Contents() == if created then wanted.value else Pruned(old(Contents()))
      ensures Valid(Contents())
    {
      PruneIsGentle(Contents());
      CreateIs(Contents(), Job(id, Queued, details, now, ""));
      Prune();
      if |jobs| >= MAX_JOBS {
        return false;
      }
      jobs := jobs[id := Job(id, Queued, details, now, "")];
      order := order + [id];
      created := true;
    }

    method UpdateJob(id: string, update: Job -> Job)
      requires Valid(Contents())
      modifies this`jobs
      ensures Contents() == Update(old(Contents()), id, update) && Valid(Contents())
    {
      UpdateKeepsValid(Contents(), id, update);
      if id !in jobs {
        return;
      }
      var job := update(jobs[id]);
      jobs := jobs[id := job];
    }
  }
}
