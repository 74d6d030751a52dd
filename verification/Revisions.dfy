/** One-use revision tokens and the single mutation flag in front of every gateway configuration write. */
module Revisions {
  import opened Text
  import opened Collections

  datatype RevisionState = RevisionState(revision: string, createdAt: int, expiresAt: int)

  type Table = map<string, RevisionState>

  const MAX_REVISIONS := 100
  const REVISION_TTL := 300

  function Pruned(t: Table, now: int): Table {
    map token | token in t && t[token].expiresAt > now :: t[token]
  }

  predicate Oldest(t: Table, token: string) {
    token in t && forall other :: other in t ==> t[token].createdAt <= t[other].createdAt
  }

  /** The table after an issue; `evicted` matters only when the live table is full. */
  function Issued(t: Table, token: string, revision: string, now: int, evicted: string): Table {
    var live := Pruned(t, now);
    (if |live| >= MAX_REVISIONS then live - {evicted} else live)
      [token := RevisionState(revision, now, now + REVISION_TTL)]
  }

  function Redeem(t: Table, token: string, now: int): Option<string> {
    var live := Pruned(t, now);
    if token in live then Some(live[token].revision) else None
  }

  function Redeemed(t: Table, token: string, now: int): Table {
    Pruned(t, now) - {token}
  }

  lemma PruneNeverGrows(t: Table, now: int)
    ensures |Pruned(t, now)| <= |t|
  {
    SubsetIsNotLarger(Pruned(t, now).Keys, t.Keys);
    assert |Pruned(t, now).Keys| == |Pruned(t, now)| && |t.Keys| == |t|;
  }

  lemma SizeWith(t: Table, token: string, state: RevisionState)
    requires token !in t
    ensures |t[token := state]| == |t| + 1
  {
    assert t[token := state].Keys == t.Keys + {token};
    assert |t[token := state].Keys| == |t[token := state]| && |t.Keys| == |t|;
  }

  lemma SizeWithout(t: Table, token: string)
    requires token in t
    ensures |t - {token}| == |t| - 1
  {
    assert (t - {token}).Keys == t.Keys - {token};
    assert |(t - {token}).Keys| == |t - {token}| && |t.Keys| == |t|;
  }

  /** The table never exceeds its bound, the new token is always in it, and only when it was full does one live
      token, an oldest one, make room. */
  lemma IssueIsBounded(t: Table, token: string, revision: string, now: int, evicted: string)
    requires |t| <= MAX_REVISIONS && token !in t
    requires |Pruned(t, now)| >= MAX_REVISIONS ==> Oldest(Pruned(t, now), evicted)
    ensures var after := Issued(t, token, revision, now, evicted);
            && |after| <= MAX_REVISIONS
            && Redeem(after, token, now) == Some(revision)
            && forall other :: other in Pruned(t, now) && other !in after ==>
                 |Pruned(t, now)| == MAX_REVISIONS && other == evicted
  {
    PruneNeverGrows(t, now);
    var live, state := Pruned(t, now), RevisionState(revision, now, now + REVISION_TTL);
    if |live| >= MAX_REVISIONS {
      SizeWithout(live, evicted);
      SizeWith(live - {evicted}, token, state);
    } else {
      SizeWith(live, token, state);
    }
  }

  /** A redeemed token is gone for good unless it is issued again. */
  lemma RedeemedOnce(t: Table, token: string, now: int, later: int)
    ensures Redeem(Redeemed(t, token, now), token, later) == None
    ensures forall other :: other != token && other in Pruned(t, now) ==>
              other in Redeemed(t, token, now) && Redeemed(t, token, now)[other] == t[other]
  {
  }

  datatype ChangeResult = InvalidRequest | RevisionStale | MutationInFlight | Applied

  const MAX_TOKEN := 128

  class Service {
    var revisions: Table
    var mutating: bool
    /** The revisions handed to the gateway, one per Apply call. */
    var attempts: seq<string>

    constructor ()
      ensures revisions == map[] && !mutating && attempts == []
    {
      revisions, mutating, attempts := map[], false, [];
    }

    /** The shape the four apply*Change functions share, alone in the process: a valid token is spent whether or
        not the write may start, at most one attempt is made with it, and the flag is down again at the end. */
    method ApplyChange(token: string, target: string, now: int) returns (result: ChangeResult)
      modifies this
      ensures result == InvalidRequest <==> token == "" || |token| > MAX_TOKEN || target == ""
      ensures result == InvalidRequest ==> unchanged(this)
      ensures result != InvalidRequest ==> revisions == Redeemed(old(revisions), token, now)
      ensures result == RevisionStale <==>
                result != InvalidRequest && Redeem(old(revisions), token, now).None?
      ensures result == MutationInFlight <==>
                result != InvalidRequest && Redeem(old(revisions), token, now).Some? && old(mutating)
      ensures mutating == old(mutating)
      ensures attempts == if result == Applied then old(attempts) + [Redeem(old(revisions), token, now).value]
                          else old(attempts)
    {
      if token == "" || |token| > MAX_TOKEN || target == "" {
        return InvalidRequest;
      }
      var revision := Consume(token, now);
      if revision.None? {
        return RevisionStale;
      }
      var granted := BeginMutation();
      if !granted {
        return MutationInFlight;
      }
      attempts := attempts + [revision.value];
      EndMutation();
      result := Applied;
    }

    method Prune(now: int)
      modifies this`revisions
      ensures revisions == Pruned(old(revisions), now)
    {
      var left := revisions.Keys;
      while left != {}
        invariant left <= old(revisions).Keys
        invariant revisions == map token | token in old(revisions)
                                            && (token in left || old(revisions)[token].expiresAt > now)
                                 :: old(revisions)[token]
        decreases left
      {
        var token :| token in left;
        if revisions[token].expiresAt <= now {
          revisions := revisions - {token};
        }
        left := left - {token};
      }
    }

    /** A scan for a token no other is older than. */
    method FindOldest() returns (oldest: string)
      requires revisions != map[]
      ensures Oldest(revisions, oldest)
    {
      oldest :| oldest in revisions;
      var left := revisions.Keys;
      while left != {}
        invariant left <= revisions.Keys && oldest in revisions
        invariant forall seen :: seen in revisions && seen !in left ==>
                    revisions[oldest].createdAt <= revisions[seen].createdAt
        decreases left
      {
        var token :| token in left;
        if revisions[token].createdAt < revisions[oldest].createdAt {
          oldest := token;
        }
        left := left - {token};
      }
    }

    /** issueRevision; the random token is an input. */
    method Issue(token: string, revision: string, now: int) returns (ghost evicted: string)
      requires |revisions| <= MAX_REVISIONS && token !in revisions
      modifies this`revisions
      ensures |Pruned(old(revisions), now)| >= MAX_REVISIONS ==> Oldest(Pruned(old(revisions), now), evicted)
      ensures revisions == Issued(old(revisions), token, revision, now, evicted)
      ensures |revisions| <= MAX_REVISIONS
    {
      ghost var before := revisions;
      Prune(now);
      evicted := "";
      if |revisions| >= MAX_REVISIONS {
        var oldest := FindOldest();
        evicted := oldest;
        revisions := revisions - {oldest};
      }
      revisions := revisions[token := RevisionState(revision, now, now + REVISION_TTL)];
      IssueIsBounded(before, token, revision, now, evicted);
    }

    method Consume(token: string, now: int) returns (revision: Option<string>)
      modifies this`revisions
      ensures revision == Redeem(old(revisions), token, now)
      ensures revisions == Redeemed(old(revisions), token, now)
    {
      Prune(now);
      if token !in revisions {
        assert revisions - {token} == revisions;
        return None;
      }
      revision := Some(revisions[token].revision);
      revisions := revisions - {token};
    }

    method BeginMutation() returns (granted: bool)
      modifies this`mutating
      ensures granted == !old(mutating) && mutating
    {
      if mutating {
        return false;
      }
      mutating := true;
      granted := true;
    }

    method EndMutation()
      modifies this`mutating
      ensures !mutating
    {
      mutating := false;
    }
  }
}
