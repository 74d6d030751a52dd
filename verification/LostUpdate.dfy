/** Any number of in-process clients reading, editing and writing the one gateway configuration. Documents,
    their canonical forms per change kind and the digest are parameters; the digest is injective. */
module LostUpdate {
  import opened Text
  import opened Collections
  import opened Revisions

  datatype Kind = LlmChange | McpChange | TrafficChange | PolicyChange

  /** How a document is normalised for a kind of change, and the digest of a normal form. */
  datatype Gateway<!Doc> = Gateway(canonical: (Kind, Doc) -> Doc, digest: Doc -> string)

  ghost predicate Injective<Doc(!new)>(g: Gateway<Doc>) {
    forall a, b :: g.digest(a) == g.digest(b) ==> a == b
  }

  function RevisionOf<Doc>(g: Gateway<Doc>, kind: Kind, doc: Doc): string {
    g.digest(g.canonical(kind, doc))
  }

  datatype Thread<Doc> =
    | Idle
    | HasRead(kind: Kind, seen: Doc)
    | Holds(token: string, revision: string, kind: Kind)
    | InMutation(token: string, revision: string, kind: Kind)
    | Checked(token: string, kind: Kind, base: Doc)
    | Finishing

  /** One POST that reached the gateway: the token spent on it, the document it was computed from, and the
      documents before and after. */
  datatype Write<Doc> = Write(token: string, kind: Kind, base: Doc, before: Doc, after: Doc)

  datatype Origin<Doc> = Origin(kind: Kind, seen: Doc)

  /** `attempts` are the tokens of all POSTs, in order, whether or not they reached the gateway; `log` is what did. */
  datatype System<Doc> = System(
    doc: Doc, table: Table, mutating: bool, threads: map<nat, Thread<Doc>>,
    issued: map<string, Origin<Doc>>, spent: set<string>, attempts: seq<string>, log: seq<Write<Doc>>)

  datatype Action<Doc> =
    | ReadConfiguration(client: nat, kind: Kind)
    | IssueToken(client: nat, token: string, now: int, evicted: string)
    | ConsumeToken(client: nat, token: string, kind: Kind, now: int)
    | Begin(client: nat)
    | ReadAndCheck(client: nat)
    | Post(client: nat, updated: Doc, reached: bool)
    | GiveUp(client: nat)
    | End(client: nat)

  function Initial<Doc>(doc: Doc): System<Doc> {
    System(doc, map[], false, map[], map[], {}, [], [])
  }

  function Of<Doc>(s: System<Doc>, client: nat): Thread<Doc> {
    if client in s.threads then s.threads[client] else Idle
  }

  function Goes<Doc>(s: System<Doc>, client: nat, t: Thread<Doc>): System<Doc> {
    s.(threads := s.threads[client := t])
  }

  function Step<Doc(==)>(g: Gateway<Doc>, s: System<Doc>, a: Action<Doc>): System<Doc> {
    var t := Of(s, a.client);
    match a
    case ReadConfiguration(client, kind) =>
      if t != Idle then s else Goes(s, client, HasRead(kind, s.doc))
    case IssueToken(client, token, now, evicted) =>
      if !t.HasRead? || token in s.issued then s
      else Goes(s, client, Idle).(
        table := Issued(s.table, token, RevisionOf(g, t.kind, t.seen), now, evicted),
        issued := s.issued[token := Origin(t.kind, t.seen)])
    case ConsumeToken(client, token, kind, now) =>
      if t != Idle then s
      else
        var cleaned := s.(table := Redeemed(s.table, token, now));
        (match Redeem(s.table, token, now)
         case None => cleaned
         case Some(revision) =>
           Goes(cleaned, client, Holds(token, revision, kind)).(spent := s.spent + {token}))
    case Begin(client) =>
      if !t.Holds? then s
      else if s.mutating then Goes(s, client, Idle)
      else Goes(s, client, InMutation(t.token, t.revision, t.kind)).(mutating := true)
    case ReadAndCheck(client) =>
      if !t.InMutation? then s
      else if RevisionOf(g, t.kind, s.doc) == t.revision then Goes(s, client, Checked(t.token, t.kind, s.doc))
      else Goes(s, client, Finishing)
    case Post(client, updated, reached) =>
      if !t.Checked? then s
      else
        var tried := Goes(s, client, Finishing).(attempts := s.attempts + [t.token]);
        if !reached then tried
        else tried.(doc := updated, log := s.log + [Write(t.token, t.kind, t.base, s.doc, updated)])
    case GiveUp(client) =>
      if t.InMutation? || t.Checked? then Goes(s, client, Finishing) else s
    case End(client) =>
      if !t.Finishing? then s else Goes(s, client, Idle).(mutating := false)
  }

  function Run<Doc(==)>(g: Gateway<Doc>, doc: Doc, actions: seq<Action<Doc>>): System<Doc> {
    if actions == [] then Initial(doc)
    else Step(g, Run(g, doc, actions[..|actions| - 1]), actions[|actions| - 1])
  }

  predicate Applying<Doc(==)>(t: Thread<Doc>) {
    t.InMutation? || t.Checked? || t.Finishing?
  }

  predicate CarriesToken<Doc>(t: Thread<Doc>) {
    t.Holds? || t.InMutation? || t.Checked?
  }

  /** What one thread's local state promises. */
  predicate GoodThread<Doc(==)>(g: Gateway<Doc>, s: System<Doc>, t: Thread<Doc>) {
    && (CarriesToken(t) ==> t.token in s.spent && t.token in s.issued && t.token !in s.attempts)
    && (t.Holds? || t.InMutation? ==>
          t.revision == RevisionOf(g, s.issued[t.token].kind, s.issued[t.token].seen))
    && (t.Checked? ==>
          && t.base == s.doc
          && RevisionOf(g, t.kind, t.base) == RevisionOf(g, s.issued[t.token].kind, s.issued[t.token].seen))
    && (Applying(t) ==> s.mutating)
  }

  predicate GoodWrite<Doc(==)>(g: Gateway<Doc>, s: System<Doc>, w: Write<Doc>) {
    && w.token in s.attempts && w.token in s.issued && w.base == w.before
    && RevisionOf(g, w.kind, w.before) == RevisionOf(g, s.issued[w.token].kind, s.issued[w.token].seen)
  }

  ghost predicate GoodThreads<Doc(!new)>(g: Gateway<Doc>, s: System<Doc>) {
    forall c {:trigger Of(s, c)} :: GoodThread(g, s, Of(s, c))
  }

  /** Two threads are never both applying and never carry the same token. */
  predicate Apart<Doc(==)>(t: Thread<Doc>, u: Thread<Doc>) {
    !(Applying(t) && Applying(u)) && (CarriesToken(t) && CarriesToken(u) ==> t.token != u.token)
  }

  ghost predicate Exclusive<Doc(!new)>(s: System<Doc>) {
    forall c, d {:trigger Of(s, c), Of(s, d)} :: c != d ==> Apart(Of(s, c), Of(s, d))
  }

  predicate GoodTable<Doc(==)>(g: Gateway<Doc>, s: System<Doc>) {
    && s.spent <= s.issued.Keys
    && forall token :: token in s.table ==>
         && token in s.issued && token !in s.spent
         && s.table[token].revision == RevisionOf(g, s.issued[token].kind, s.issued[token].seen)
  }

  predicate GoodLog<Doc(==)>(g: Gateway<Doc>, s: System<Doc>) {
    && NoDuplicates(s.attempts)
    && (forall token :: token in s.attempts ==> token in s.spent)
    && (forall i :: 0 <= i < |s.log| ==> GoodWrite(g, s, s.log[i]))
    && (forall i, j :: 0 <= i < j < |s.log| ==> s.log[i].token != s.log[j].token)
    && (forall i :: 0 <= i < |s.log| - 1 ==> s.log[i].after == s.log[i + 1].before)
    && (s.log != [] ==> s.log[|s.log| - 1].after == s.doc)
  }

  ghost predicate Inv<Doc(!new)>(g: Gateway<Doc>, s: System<Doc>) {
    GoodThreads(g, s) && Exclusive(s) && GoodTable(g, s) && GoodLog(g, s)
  }

  /** A step that moves one thread and leaves the document and the log alone. */
  lemma MoveKeeps<Doc(!new)>(g: Gateway<Doc>, s: System<Doc>, client: nat, next: System<Doc>)
    requires Inv(g, s)
    requires forall c :: c != client ==> Of(next, c) == Of(s, c)
    requires next.doc == s.doc && next.log == s.log && next.attempts == s.attempts
    requires s.spent <= next.spent && s.issued.Keys <= next.issued.Keys
    requires forall token :: token in s.issued ==> next.issued[token] == s.issued[token]
    requires s.mutating == next.mutating || (Applying(Of(next, client)) && next.mutating)
             || (Applying(Of(s, client)) && !Applying(Of(next, client)))
    requires GoodThread(g, next, Of(next, client))
    requires Applying(Of(next, client)) ==> Applying(Of(s, client)) || !s.mutating
    requires CarriesToken(Of(next, client)) ==>
               (CarriesToken(Of(s, client)) && Of(next, client).token == Of(s, client).token)
               || Of(next, client).token !in s.spent
    ensures GoodThreads(g, next) && Exclusive(next) && GoodLog(g, next)
  {
    forall c ensures GoodThread(g, next, Of(next, c)) {
      if c != client {
        assert GoodThread(g, s, Of(s, c)) && Apart(Of(s, c), Of(s, client));
      }
    }
    forall c, d | c != d ensures Apart(Of(next, c), Of(next, d)) {
      assert Apart(Of(s, c), Of(s, d));
      assert GoodThread(g, s, Of(s, c)) && GoodThread(g, s, Of(s, d));
    }
    forall i | 0 <= i < |next.log| ensures GoodWrite(g, next, next.log[i]) {
      assert GoodWrite(g, s, s.log[i]);
    }
  }

  lemma IssueKeeps<Doc(!new)>(g: Gateway<Doc>, s: System<Doc>, a: Action<Doc>)
    requires Inv(g, s) && a.IssueToken?
    ensures Inv(g, Step(g, s, a))
  {
    var t := Of(s, a.client);
    if t.HasRead? && a.token !in s.issued {
      var next := Step(g, s, a);
      assert next.threads == s.threads[a.client := Idle];
      MoveKeeps(g, s, a.client, next);
      assert forall token :: token in next.table ==> token == a.token || token in s.table;
      assert GoodTable(g, next);
    }
  }

  /** Shrinking the table, and spending a token that leaves it, keep the table sound. */
  lemma RedeemKeepsTable<Doc>(g: Gateway<Doc>, s: System<Doc>, token: string, now: int, spent: set<string>)
    requires GoodTable(g, s) && (spent == s.spent || (spent == s.spent + {token} && token in s.table))
    ensures GoodTable(g, s.(table := Redeemed(s.table, token, now), spent := spent))
  {
    var table := Redeemed(s.table, token, now);
    assert forall other :: other in table ==> other != token && other in s.table && table[other] == s.table[other];
  }

  lemma ConsumeKeeps<Doc(!new)>(g: Gateway<Doc>, s: System<Doc>, a: Action<Doc>)
    requires Inv(g, s) && a.ConsumeToken?
    ensures Inv(g, Step(g, s, a))
  {
    if Of(s, a.client) == Idle {
      var next := Step(g, s, a);
      var revision := Redeem(s.table, a.token, a.now);
      if revision.None? {
        RedeemKeepsTable(g, s, a.token, a.now, s.spent);
        MoveKeeps(g, s, a.client, next);
      } else {
        assert a.token in s.table && s.table[a.token].revision == revision.value;
        RedeemKeepsTable(g, s, a.token, a.now, s.spent + {a.token});
        assert Of(next, a.client) == Holds(a.token, revision.value, a.kind);
        MoveKeeps(g, s, a.client, next);
      }
    }
  }

  lemma QuietStepKeeps<Doc(!new)>(g: Gateway<Doc>, s: System<Doc>, a: Action<Doc>)
    requires Inv(g, s)
    requires a.ReadConfiguration? || a.Begin? || a.ReadAndCheck? || a.GiveUp? || a.End?
    ensures Inv(g, Step(g, s, a))
  {
    assert GoodThread(g, s, Of(s, a.client));
    MoveKeeps(g, s, a.client, Step(g, s, a));
  }

  /** Sending the POST spends the token's one attempt; its client was alone, so nobody else has a checked document. */
  lemma AttemptKeeps<Doc(!new)>(g: Gateway<Doc>, s: System<Doc>, client: nat)
    requires Inv(g, s) && Of(s, client).Checked?
    ensures var tried := Goes(s, client, Finishing).(attempts := s.attempts + [Of(s, client).token]);
            Inv(g, tried) && forall c :: !Of(tried, c).Checked?
  {
    var t, tried := Of(s, client), Goes(s, client, Finishing).(attempts := s.attempts + [Of(s, client).token]);
    assert GoodThread(g, s, t);
    forall c ensures GoodThread(g, tried, Of(tried, c)) && !Of(tried, c).Checked? {
      assert GoodThread(g, s, Of(s, c));
      if c != client { assert Apart(Of(s, c), t); }
    }
    forall c, d | c != d ensures Apart(Of(tried, c), Of(tried, d)) {
      assert Apart(Of(s, c), Of(s, d));
    }
    forall i | 0 <= i < |tried.log| ensures GoodWrite(g, tried, tried.log[i]) {
      assert GoodWrite(g, s, s.log[i]);
    }
  }

  /** Its arrival replaces the document nobody else is about to replace. */
  lemma ArrivalKeeps<Doc(!new)>(g: Gateway<Doc>, s: System<Doc>, w: Write<Doc>)
    requires Inv(g, s) && (forall c :: !Of(s, c).Checked?)
    requires GoodWrite(g, s, w) && w.before == s.doc
    requires forall i :: 0 <= i < |s.log| ==> s.log[i].token != w.token
    ensures Inv(g, s.(doc := w.after, log := s.log + [w]))
  {
    var next := s.(doc := w.after, log := s.log + [w]);
    forall c ensures GoodThread(g, next, Of(next, c)) {
      assert GoodThread(g, s, Of(s, c));
    }
    forall c, d | c != d ensures Apart(Of(next, c), Of(next, d)) {
      assert Apart(Of(s, c), Of(s, d));
    }
    forall i | 0 <= i < |next.log| ensures GoodWrite(g, next, next.log[i]) {
      if i < |s.log| { assert GoodWrite(g, s, s.log[i]); }
    }
  }

  lemma PostKeeps<Doc(!new)>(g: Gateway<Doc>, s: System<Doc>, a: Action<Doc>)
    requires Inv(g, s) && a.Post?
    ensures Inv(g, Step(g, s, a))
  {
    var t := Of(s, a.client);
    if t.Checked? {
      assert GoodThread(g, s, t);
      AttemptKeeps(g, s, a.client);
      var tried := Goes(s, a.client, Finishing).(attempts := s.attempts + [t.token]);
      forall i | 0 <= i < |s.log| ensures s.log[i].token != t.token {
        assert GoodWrite(g, s, s.log[i]);
      }
      if a.reached { ArrivalKeeps(g, tried, Write(t.token, t.kind, t.base, s.doc, a.updated)); }
    } else {
      MoveKeeps(g, s, a.client, Step(g, s, a));
    }
  }

  lemma StepKeeps<Doc(!new)>(g: Gateway<Doc>, s: System<Doc>, a: Action<Doc>)
    requires Inv(g, s)
    ensures Inv(g, Step(g, s, a))
  {
    match a
    case IssueToken(_, _, _, _) => IssueKeeps(g, s, a);
    case ConsumeToken(_, _, _, _) => ConsumeKeeps(g, s, a);
    case Post(_, _, _) => PostKeeps(g, s, a);
    case _ => QuietStepKeeps(g, s, a);
  }

  lemma {:induction false} EveryRunKeeps<Doc(!new)>(g: Gateway<Doc>, doc: Doc, actions: seq<Action<Doc>>)
    ensures Inv(g, Run(g, doc, actions))
  {
    if actions != [] {
      EveryRunKeeps(g, doc, actions[..|actions| - 1]);
      StepKeeps(g, Run(g, doc, actions[..|actions| - 1]), actions[|actions| - 1]);
    }
  }

  /** No lost update, in any interleaving of clients and change kinds: a token pays for at most one POST, one that
      never arrived included; every write is one of those POSTs; the document it replaces is the very document it
      was computed from; that document's canonical form is the one the token was issued for; and between two writes
      nothing else changed it. */
  lemma NoUpdateIsLost<Doc(!new)>(g: Gateway<Doc>, doc: Doc, actions: seq<Action<Doc>>)
    requires Injective(g)
    ensures var s := Run(g, doc, actions);
            && NoDuplicates(s.attempts)
            && (forall i :: 0 <= i < |s.log| ==>
                  && s.log[i].base == s.log[i].before
                  && s.log[i].token in s.attempts && s.log[i].token in s.issued
                  && g.canonical(s.log[i].kind, s.log[i].before)
                     == g.canonical(s.issued[s.log[i].token].kind, s.issued[s.log[i].token].seen))
            && (forall i, j :: 0 <= i < j < |s.log| ==> s.log[i].token != s.log[j].token)
            && (forall i :: 0 <= i < |s.log| - 1 ==> s.log[i].after == s.log[i + 1].before)
            && (forall c, d {:trigger Of(s, c), Of(s, d)} :: c != d ==> !(Applying(Of(s, c)) && Applying(Of(s, d))))
  {
    EveryRunKeeps(g, doc, actions);
  }
}
