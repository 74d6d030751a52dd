/** Position IDs name one node each, so a lookup by the ID of a node finds that node. */
module TrafficIds {
  import opened Text
  import opened JsonTrees
  import opened Decimal
  import opened Paths
  import opened TrafficModel

  lemma WordsAreSlashFree()
    ensures SlashFree("binds") && SlashFree("listeners") && SlashFree("routes") && SlashFree("tcpRoutes")
  {
  }

  lemma RoutePathIsSlashFree(b: nat, l: nat, kind: Kind, r: nat)
    ensures AllSlashFree(RoutePath(b, l, kind, r))
    ensures AllSlashFree(ListenerPath(b, l)) && AllSlashFree(BindPath(b))
  {
    WordsAreSlashFree();
    DigitsAreSlashFree(b);
    DigitsAreSlashFree(l);
    DigitsAreSlashFree(r);
  }

  lemma BindIdsDiffer(a: nat, b: nat)
    ensures BindId(a) == BindId(b) ==> a == b
  {
    if BindId(a) == BindId(b) {
      RoutePathIsSlashFree(a, 0, Http, 0);
      RoutePathIsSlashFree(b, 0, Http, 0);
      PathIdIsInjective(BindPath(a), BindPath(b));
      assert BindPath(a)[1] == BindPath(b)[1];
      DigitsAreInjective(a, b);
    }
  }

  lemma ListenerIdsDiffer(a: nat, l: nat, b: nat, m: nat)
    ensures ListenerId(a, l) == ListenerId(b, m) ==> a == b && l == m
  {
    if ListenerId(a, l) == ListenerId(b, m) {
      RoutePathIsSlashFree(a, l, Http, 0);
      RoutePathIsSlashFree(b, m, Http, 0);
      PathIdIsInjective(ListenerPath(a, l), ListenerPath(b, m));
      assert ListenerPath(a, l)[1] == ListenerPath(b, m)[1] && ListenerPath(a, l)[3] == ListenerPath(b, m)[3];
      DigitsAreInjective(a, b);
      DigitsAreInjective(l, m);
    }
  }

  lemma RouteIdsDiffer(a: nat, l: nat, kind: Kind, r: nat, b: nat, m: nat, other: Kind, q: nat)
    ensures RouteId(a, l, kind, r) == RouteId(b, m, other, q) ==> a == b && l == m && kind == other && r == q
  {
    if RouteId(a, l, kind, r) == RouteId(b, m, other, q) {
      var x, y := RoutePath(a, l, kind, r), RoutePath(b, m, other, q);
      RoutePathIsSlashFree(a, l, kind, r);
      RoutePathIsSlashFree(b, m, other, q);
      PathIdIsInjective(x, y);
      assert x[1] == y[1] && x[3] == y[3] && x[5] == y[5];
      DigitsAreInjective(a, b);
      DigitsAreInjective(l, m);
      DigitsAreInjective(r, q);
      assert x[4] == RouteKey(kind) && y[4] == RouteKey(other);
    }
  }

  /** Every bind before this one and this one itself decode. */
  predicate BindsDecode(doc: Document, b: nat) {
    b < |doc.binds| && forall i :: 0 <= i <= b ==> DecodeBind(doc.binds[i]).Some?
  }

  lemma {:induction false} BindIsLocated(doc: Document, b: nat, from: nat)
    requires BindsDecode(doc, b) && from <= b
    ensures FindBind(doc, BindId(b), from) == Ok(b)
    decreases b - from
  {
    BindIdsDiffer(from, b);
    if from < b { BindIsLocated(doc, b, from + 1); }
  }

  lemma ListenerInBind(b: nat, count: nat, at: ListenerAt)
    requires b == at.bind ==> at.listener < count
    ensures Find(ListenerId(at.bind, at.listener), ListenerIds(b), 0, count) ==
            if b == at.bind then Some(at.listener) else None
  {
    var found := Find(ListenerId(at.bind, at.listener), ListenerIds(b), 0, count);
    if found.Some? { ListenerIdsDiffer(b, found.value, at.bind, at.listener); }
    assert ListenerIds(at.bind)(at.listener) == ListenerId(at.bind, at.listener);
  }

  lemma {:induction false} ListenerIsLocated(doc: Document, at: ListenerAt, from: nat)
    requires HasListener(doc, at) && BindsDecode(doc, at.bind) && from <= at.bind
    ensures FindListener(doc, ListenerId(at.bind, at.listener), from) == Ok(at)
    decreases at.bind - from
  {
    ListenerInBind(from, |BindAt(doc, from).listeners|, at);
    if from < at.bind { ListenerIsLocated(doc, at, from + 1); }
  }

  /** Every bind up to this one, and every listener up to this one, decode. */
  predicate ListenersDecode(doc: Document, at: ListenerAt) {
    && BindsDecode(doc, at.bind)
    && forall b, l :: 0 <= b <= at.bind && 0 <= l < |BindAt(doc, b).listeners| ==>
         DecodeListener(BindAt(doc, b).listeners[l]).Some?
  }

  lemma RouteInListener(id: string, at: ListenerAt, listener: Listener, b: nat, l: nat, kind: Kind, r: nat)
    requires id == RouteId(b, l, kind, r)
    requires at == ListenerAt(b, l) ==> r < |RoutesOf(listener, kind)|
    ensures FindInListener(id, at, listener) == if at == ListenerAt(b, l) then Some((kind, r)) else None
  {
    var http := Find(id, RouteIds(at, Http), 0, |listener.routes|);
    var tcp := Find(id, RouteIds(at, Tcp), 0, |listener.tcpRoutes|);
    if http.Some? { RouteIdsDiffer(at.bind, at.listener, Http, http.value, b, l, kind, r); }
    if tcp.Some? { RouteIdsDiffer(at.bind, at.listener, Tcp, tcp.value, b, l, kind, r); }
    assert RouteIds(ListenerAt(b, l), kind)(r) == id;
  }

  lemma {:induction false} RouteInBind(listeners: seq<Json>, b: nat, from: nat, at: RouteAt)
    requires from <= |listeners| && forall l :: 0 <= l < |listeners| ==> DecodeListener(listeners[l]).Some?
    requires b == at.at.bind ==>
               && from <= at.at.listener < |listeners|
               && at.route < |RoutesOf(DecodeListener(listeners[at.at.listener]).value, at.kind)|
               && RoutesOf(DecodeListener(listeners[at.at.listener]).value, at.kind)[at.route].Obj?
    ensures FindInBind(listeners, RouteId(at.at.bind, at.at.listener, at.kind, at.route), b, from) ==
            Ok(if b == at.at.bind then Some(at) else None)
    decreases |listeners| - from
  {
    if from < |listeners| {
      var id := RouteId(at.at.bind, at.at.listener, at.kind, at.route);
      RouteInListener(id, ListenerAt(b, from), DecodeListener(listeners[from]).value,
                      at.at.bind, at.at.listener, at.kind, at.route);
      if ListenerAt(b, from) != at.at { RouteInBind(listeners, b, from + 1, at); }
    }
  }

  lemma {:induction false} RouteIsLocated(doc: Document, at: RouteAt, from: nat)
    requires HasRoute(doc, at) && ListenersDecode(doc, at.at) && from <= at.at.bind
    ensures FindRoute(doc, RouteId(at.at.bind, at.at.listener, at.kind, at.route), from) == Ok(at)
    decreases at.at.bind - from
  {
    RouteInBind(BindAt(doc, from).listeners, from, 0, at);
    if from < at.at.bind { RouteIsLocated(doc, at, from + 1); }
  }

  /** In a document that decodes, every node is found by its own ID. */
  lemma EveryNodeIsLocated(doc: Document)
    requires Decodes(doc)
    ensures forall b: nat :: b < |doc.binds| ==> FindBind(doc, BindId(b), 0) == Ok(b)
    ensures forall at: ListenerAt :: HasListener(doc, at) ==>
              FindListener(doc, ListenerId(at.bind, at.listener), 0) == Ok(at)
    ensures forall at: RouteAt :: HasRoute(doc, at) ==>
              FindRoute(doc, RouteId(at.at.bind, at.at.listener, at.kind, at.route), 0) == Ok(at)
  {
    assert forall i :: 0 <= i < |doc.binds| ==> BindDecodes(doc.binds[i]);
    assert forall b: nat :: b < |doc.binds| ==> BindsDecode(doc, b);
    forall b: nat | b < |doc.binds| ensures FindBind(doc, BindId(b), 0) == Ok(b) {
      BindIsLocated(doc, b, 0);
    }
    forall at: ListenerAt | HasListener(doc, at)
      ensures FindListener(doc, ListenerId(at.bind, at.listener), 0) == Ok(at)
    {
      ListenerIsLocated(doc, at, 0);
    }
    forall at: RouteAt | HasRoute(doc, at)
      ensures FindRoute(doc, RouteId(at.at.bind, at.at.listener, at.kind, at.route), 0) == Ok(at)
    {
      AllListenersDecode(doc, at.at);
      RouteIsLocated(doc, at, 0);
    }
  }

  lemma AllListenersDecode(doc: Document, at: ListenerAt)
    requires Decodes(doc) && HasListener(doc, at)
    ensures ListenersDecode(doc, at)
  {
    assert forall i :: 0 <= i < |doc.binds| ==> BindDecodes(doc.binds[i]);
    forall b, l | 0 <= b <= at.bind && 0 <= l < |BindAt(doc, b).listeners|
      ensures DecodeListener(BindAt(doc, b).listeners[l]).Some?
    {
      assert ListenerDecodes(BindAt(doc, b).listeners[l]);
    }
  }
}
