/** The overview's deny rate once approvals have been resolved: bounded, and blind to the order of resolutions. */
module DenyRate {
  import opened Text
  import opened TrendBuckets

  /** A resolved approval: when, how, the guard event it answers, and its own reference. */
  datatype Resolution = Resolution(time: int, action: string, originalEventId: string, ownId: string)

  /** A guard decision and an audit event, as far as the rate looks at them. */
  datatype Decision = Decision(time: int, action: string)

  datatype AuditEvent = AuditEvent(time: int, id: string)

  /** A denial, in any case of letters. */
  predicate Denied(action: string) {
    EqualFold(action, "deny")
  }

  function KeyOf(r: Resolution): string {
    if r.originalEventId == "" then r.ownId else r.originalEventId
  }

  // ---- What the rate is made of ----

  /** The events some resolution in the window is about, and those some denial is about. */
  function Resolved(w: Window, resolutions: seq<Resolution>): set<string> {
    set r | r in resolutions && InWindow(w, r.time) :: KeyOf(r)
  }

  function Refused(w: Window, resolutions: seq<Resolution>): set<string> {
    set r | r in resolutions && InWindow(w, r.time) && Denied(r.action) :: KeyOf(r)
  }

  function AuditIds(w: Window, events: seq<AuditEvent>): set<string> {
    set e | e in events && InWindow(w, e.time) :: e.id
  }

  function Decisions(w: Window, guard: seq<Decision>): nat {
    if guard == [] then 0
    else Decisions(w, guard[..|guard| - 1]) + if InWindow(w, guard[|guard| - 1].time) then 1 else 0
  }

  function Denials(w: Window, guard: seq<Decision>): nat {
    if guard == [] then 0
    else
      Denials(w, guard[..|guard| - 1])
      + if InWindow(w, guard[|guard| - 1].time) && Denied(guard[|guard| - 1].action) then 1 else 0
  }

  function Max(a: nat, b: nat): nat {
    if a < b then b else a
  }

  function Percent(part: nat, whole: nat): real {
    if whole == 0 then 0.0 else part as real * 100.0 / whole as real
  }

  /** Direct denials and denied approvals, over the window's decisions and the resolutions the audit log does not
      already hold. */
  function Rate(w: Window, guard: seq<Decision>, audit: seq<AuditEvent>, resolutions: seq<Resolution>): real {
    var denied := Denials(w, guard) + |Refused(w, resolutions)|;
    Percent(denied, Max(Decisions(w, guard) + |Resolved(w, resolutions) - AuditIds(w, audit)|, denied))
  }

  lemma DivisionIsMonotone(a: real, b: real, d: real)
    requires a <= b && d > 0.0
    ensures a / d <= b / d
  {
  }

  lemma PercentIsBounded(part: nat, whole: nat)
    requires part <= whole
    ensures 0.0 <= Percent(part, whole) <= 100.0
  {
    if whole > 0 {
      DivisionIsMonotone(part as real * 100.0, whole as real * 100.0, whole as real);
    }
  }

  /** The rate is a percentage whatever the audit log and the resolutions hold. */
  lemma RateIsBounded(w: Window, guard: seq<Decision>, audit: seq<AuditEvent>, resolutions: seq<Resolution>)
    ensures 0.0 <= Rate(w, guard, audit, resolutions) <= 100.0
  {
    var denied := Denials(w, guard) + |Refused(w, resolutions)|;
    PercentIsBounded(denied, Max(Decisions(w, guard) + |Resolved(w, resolutions) - AuditIds(w, audit)|, denied));
  }

  /** Only which resolutions there are matters, not their order or repetition. */
  lemma RateIgnoresOrder(
    w: Window, guard: seq<Decision>, audit: seq<AuditEvent>, a: seq<Resolution>, b: seq<Resolution>)
    requires forall r :: r in a <==> r in b
    ensures Rate(w, guard, audit, a) == Rate(w, guard, audit, b)
  {
    assert Resolved(w, a) == Resolved(w, b) && Refused(w, a) == Refused(w, b);
  }

  // ---- How it is computed ----

  /** One resolution's effect on the outcome kept per event: a denial is never overwritten by another action. */
  function Record(outcomes: map<string, string>, r: Resolution): map<string, string> {
    if Denied(r.action) || !(KeyOf(r) in outcomes && Denied(outcomes[KeyOf(r)])) then outcomes[KeyOf(r) := r.action]
    else outcomes
  }

  function Refusals(outcomes: map<string, string>): set<string> {
    set key | key in outcomes && Denied(outcomes[key])
  }

  lemma RecordIs(outcomes: map<string, string>, r: Resolution)
    ensures Record(outcomes, r).Keys == outcomes.Keys + {KeyOf(r)}
    ensures Refusals(Record(outcomes, r)) == Refusals(outcomes) + if Denied(r.action) then {KeyOf(r)} else {}
  {
  }

  lemma NextResolution(w: Window, resolutions: seq<Resolution>, r: Resolution)
    ensures Resolved(w, resolutions + [r]) == Resolved(w, resolutions) + if InWindow(w, r.time) then {KeyOf(r)} else {}
    ensures Refused(w, resolutions + [r]) ==
            Refused(w, resolutions) + if InWindow(w, r.time) && Denied(r.action) then {KeyOf(r)} else {}
  {
    assert forall x :: x in resolutions + [r] <==> x in resolutions || x == r;
  }

  /** The outcomes say which events the resolutions concern, and which of them were denied. */
  ghost predicate Tells(w: Window, resolutions: seq<Resolution>, outcomes: map<string, string>) {
    outcomes.Keys == Resolved(w, resolutions) && Refusals(outcomes) == Refused(w, resolutions)
  }

  lemma TellsNext(w: Window, resolutions: seq<Resolution>, r: Resolution, outcomes: map<string, string>)
    requires Tells(w, resolutions, outcomes)
    ensures Tells(w, resolutions + [r], if InWindow(w, r.time) then Record(outcomes, r) else outcomes)
  {
    NextResolution(w, resolutions, r);
    RecordIs(outcomes, r);
  }

  method Outcomes(w: Window, resolutions: seq<Resolution>) returns (outcomes: map<string, string>)
    ensures outcomes.Keys == Resolved(w, resolutions) && Refusals(outcomes) == Refused(w, resolutions)
  {
    outcomes := map[];
    for i := 0 to |resolutions|
      invariant Tells(w, resolutions[..i], outcomes)
    {
      var r := resolutions[i];
      TellsNext(w, resolutions[..i], r, outcomes);
      assert resolutions[..i + 1] == resolutions[..i] + [r];
      if w.from <= r.time && r.time < w.to {
        outcomes := Record(outcomes, r);
      }
    }
    assert resolutions[..|resolutions|] == resolutions;
  }

  lemma CountsDrop(left: set<string>, key: string, auditIds: set<string>, refusals: set<string>)
    requires key in left
    ensures |left - auditIds| == |left - {key} - auditIds| + if key in auditIds then 0 else 1
    ensures |refusals * left| == |refusals * (left - {key})| + if key in refusals then 1 else 0
  {
    assert left - {key} - auditIds == (left - auditIds) - {key};
    assert refusals * (left - {key}) == (refusals * left) - {key};
  }

  /** One pass over the outcomes. */
  method Tally(outcomes: map<string, string>, auditIds: set<string>) returns (unmatched: nat, denied: nat)
    ensures unmatched == |outcomes.Keys - auditIds| && denied == |Refusals(outcomes)|
  {
    unmatched, denied := 0, 0;
    var left := outcomes.Keys;
    assert Refusals(outcomes) * left == Refusals(outcomes);
    while left != {}
      invariant left <= outcomes.Keys
      invariant unmatched + |left - auditIds| == |outcomes.Keys - auditIds|
      invariant denied + |Refusals(outcomes) * left| == |Refusals(outcomes)|
      decreases left
    {
      var key :| key in left;
      CountsDrop(left, key, auditIds, Refusals(outcomes));
      if key !in auditIds {
        unmatched := unmatched + 1;
      }
      if Denied(outcomes[key]) {
        denied := denied + 1;
      }
      left := left - {key};
    }
    assert left - auditIds == {} && Refusals(outcomes) * left == {};
  }

  method CountDecisions(w: Window, guard: seq<Decision>) returns (all: nat, denied: nat)
    ensures all == Decisions(w, guard) && denied == Denials(w, guard)
  {
    all, denied := 0, 0;
    for i := 0 to |guard|
      invariant all == Decisions(w, guard[..i]) && denied == Denials(w, guard[..i])
    {
      assert guard[..i + 1][..i] == guard[..i];
      if w.from <= guard[i].time && guard[i].time < w.to {
        all := all + 1;
        if Denied(guard[i].action) {
          denied := denied + 1;
        }
      }
    }
    assert guard[..|guard|] == guard;
  }

  method CollectIds(w: Window, audit: seq<AuditEvent>) returns (ids: set<string>)
    ensures ids == AuditIds(w, audit)
  {
    ids := {};
    for i := 0 to |audit|
      invariant ids == AuditIds(w, audit[..i])
    {
      assert forall e :: e in audit[..i + 1] <==> e in audit[..i] || e == audit[i];
      if w.from <= audit[i].time && audit[i].time < w.to {
        ids := ids + {audit[i].id};
      }
    }
    assert audit[..|audit|] == audit;
  }

  /** applyApprovalResolutionMetrics: the new value of the deny-rate metric. */
  method ResolvedRate(w: Window, guard: seq<Decision>, audit: seq<AuditEvent>, resolutions: seq<Resolution>)
    returns (rate: real)
    ensures rate == Rate(w, guard, audit, resolutions)
  {
    var traffic, denies := CountDecisions(w, guard);
    var auditIds := CollectIds(w, audit);
    var outcomes := Outcomes(w, resolutions);
    var unmatched, denied := Tally(outcomes, auditIds);
    denies := denies + denied;
    var denominator := Max(traffic + unmatched, denies);
    rate := 0.0;
    if denominator > 0 {
      rate := denies as real * 100.0 / denominator as real;
    }
  }
}
