/** Conservation of routes, and the one node each change touches. */
module TrafficRoutes {
  import opened Text
  import opened JsonTrees
  import opened TrafficModel
  import opened TrafficSafety
  import opened Collections

  // ---- Counting routes ----

  function Total(items: seq<Json>, routes: Json -> multiset<Json>): multiset<Json> {
    if items == [] then multiset{} else routes(items[0]) + Total(items[1..], routes)
  }

  /** The routes of one listener, of one bind, and of the whole document. */
  function ListenerRoutes(raw: Json): multiset<Json> {
    match DecodeListener(raw)
    case None => multiset{}
    case Some(l) => multiset(l.routes) + multiset(l.tcpRoutes)
  }

  function BindRoutes(raw: Json): multiset<Json> {
    match DecodeBind(raw) case None => multiset{} case Some(b) => Total(b.listeners, ListenerRoutes)
  }

  function AllRoutes(doc: Document): multiset<Json> {
    Total(doc.binds, BindRoutes)
  }

  lemma {:induction false} TotalSplits(a: seq<Json>, b: seq<Json>, routes: Json -> multiset<Json>)
    ensures Total(a + b, routes) == Total(a, routes) + Total(b, routes)
  {
    if a == [] {
      assert a + b == b;
    } else {
      TotalSplits(a[1..], b, routes);
      assert (a + b)[1..] == a[1..] + b && (a + b)[0] == a[0];
    }
  }

  lemma TotalOfOne(x: Json, routes: Json -> multiset<Json>)
    ensures Total([x], routes) == routes(x)
  {
    assert [x][1..] == [];
  }

  lemma TotalAround(items: seq<Json>, i: nat, routes: Json -> multiset<Json>)
    requires i < |items|
    ensures Total(items, routes) == Total(items[..i], routes) + routes(items[i]) + Total(items[i + 1..], routes)
  {
    var front, one, back := items[..i], [items[i]], items[i + 1..];
    assert items == (front + one) + back;
    TotalSplits(front, one, routes);
    TotalSplits(front + one, back, routes);
    TotalOfOne(items[i], routes);
  }

  lemma TotalReplaced(items: seq<Json>, i: nat, x: Json, routes: Json -> multiset<Json>)
    requires i < |items|
    ensures Total(items[i := x], routes) + routes(items[i]) == Total(items, routes) + routes(x)
  {
    var after := items[i := x];
    TotalAround(items, i, routes);
    TotalAround(after, i, routes);
    assert after[..i] == items[..i] && after[i + 1..] == items[i + 1..];
  }

  lemma TotalWithout(items: seq<Json>, i: nat, routes: Json -> multiset<Json>)
    requires i < |items|
    ensures Total(Without(items, i), routes) + routes(items[i]) == Total(items, routes)
  {
    TotalAround(items, i, routes);
    TotalSplits(items[..i], items[i + 1..], routes);
  }

  lemma TotalAppended(items: seq<Json>, x: Json, routes: Json -> multiset<Json>)
    ensures Total(items + [x], routes) == Total(items, routes) + routes(x)
  {
    TotalSplits(items, [x], routes);
    TotalOfOne(x, routes);
  }

  // ---- Stores ----

  lemma StoredListenersTotal(doc: Document, b: nat, listeners: seq<Json>)
    requires b < |doc.binds| && DecodeBind(doc.binds[b]).Some?
    ensures AllRoutes(StoreListeners(doc, b, listeners)) + Total(BindAt(doc, b).listeners, ListenerRoutes) ==
            AllRoutes(doc) + Total(listeners, ListenerRoutes)
  {
    var after := StoreListeners(doc, b, listeners);
    StoreListenersFrame(doc, b, listeners);
    TotalReplaced(doc.binds, b, after.binds[b], BindRoutes);
    assert BindRoutes(after.binds[b]) == Total(listeners, ListenerRoutes);
  }

  /** Cancelling what two equations share. */
  lemma Cancel(
    after: multiset<Json>, before: multiset<Json>, first: multiset<Json>, second: multiset<Json>,
    gone: multiset<Json>, came: multiset<Json>)
    requires after + first == before + second && second + gone == first + came
    ensures after + gone == before + came
  {
    forall x ensures (after + gone)[x] == (before + came)[x] {
      assert (after + first)[x] == (before + second)[x] && (second + gone)[x] == (first + came)[x];
    }
  }

  /** Nothing came and nothing went. */
  lemma CancelSame(after: multiset<Json>, before: multiset<Json>, kept: multiset<Json>)
    requires after + kept == before + kept
    ensures after + multiset{} == before + multiset{} && after == before
  {
    forall x ensures after[x] == before[x] {
      assert (after + kept)[x] == (before + kept)[x];
    }
  }

  lemma StoredListenerTotal(doc: Document, at: ListenerAt, listener: Fields)
    requires HasListener(doc, at)
    ensures AllRoutes(StoreListener(doc, at, listener)) + ListenerRoutes(BindAt(doc, at.bind).listeners[at.listener]) ==
            AllRoutes(doc) + ListenerRoutes(Obj(listener))
  {
    var before := BindAt(doc, at.bind).listeners;
    var now := before[at.listener := Obj(listener)];
    StoredListenersTotal(doc, at.bind, now);
    TotalReplaced(before, at.listener, Obj(listener), ListenerRoutes);
    Cancel(AllRoutes(StoreListeners(doc, at.bind, now)), AllRoutes(doc), Total(before, ListenerRoutes),
           Total(now, ListenerRoutes), ListenerRoutes(before[at.listener]), ListenerRoutes(Obj(listener)));
  }

  lemma RoutesByKind(raw: Json, kind: Kind)
    requires DecodeListener(raw).Some?
    ensures ListenerRoutes(raw) == multiset(RoutesOf(DecodeListener(raw).value, OtherKind(kind)))
                                   + multiset(RoutesOf(DecodeListener(raw).value, kind))
  {
  }

  lemma CancelKept(
    after: multiset<Json>, before: multiset<Json>, kept: multiset<Json>, gone: multiset<Json>, came: multiset<Json>)
    requires after + (kept + gone) == before + (kept + came)
    ensures after + gone == before + came
  {
    forall x ensures (after + gone)[x] == (before + came)[x] {
      assert (after + (kept + gone))[x] == (before + (kept + came))[x];
    }
  }

  lemma StoredRoutesTotal(doc: Document, at: ListenerAt, kind: Kind, routes: seq<Json>)
    requires HasListener(doc, at)
    ensures AllRoutes(StoreRoutes(doc, at, kind, routes)) + multiset(RoutesOf(ListenerOf(doc, at), kind)) ==
            AllRoutes(doc) + multiset(routes)
  {
    var l, raw := ListenerOf(doc, at), BindAt(doc, at.bind).listeners[at.listener];
    var f := l.fields[RouteKey(kind) := Arr(routes)];
    assert raw == Obj(l.fields);
    RoutesRewritten(l.fields, kind, routes);
    StoredListenerTotal(doc, at, f);
    RoutesByKind(raw, kind);
    RoutesByKind(Obj(f), kind);
    CancelKept(AllRoutes(StoreRoutes(doc, at, kind, routes)), AllRoutes(doc), multiset(RoutesOf(l, OtherKind(kind))),
               multiset(RoutesOf(l, kind)), multiset(routes));
  }

  lemma RemovedFromMultiset(s: seq<Json>, i: nat)
    requires i < |s|
    ensures multiset(Without(s, i)) + multiset{s[i]} == multiset(s)
  {
    assert s == s[..i] + [s[i]] + s[i + 1..];
  }

  lemma ReplacedInMultiset(s: seq<Json>, i: nat, x: Json)
    requires i < |s|
    ensures multiset(s[i := x]) + multiset{s[i]} == multiset(s) + multiset{x}
  {
    assert s == s[..i] + [s[i]] + s[i + 1..] && s[i := x] == s[..i] + [x] + s[i + 1..];
  }

  // ---- Conservation ----

  /** The routes a change drops: those of a deleted bind or listener, those of a listener that changes kind, and
      the route it deletes or replaces. */
  function Lost(doc: Document, change: Change): multiset<Json> {
    match change
    case DeleteBind(id, _) =>
      (match FindBind(doc, id, 0) case Ok(b) => BindRoutes(doc.binds[b]) case Err(_) => multiset{})
    case DeleteListener(id, _) =>
      (match FindListener(doc, id, 0)
       case Ok(at) => ListenerRoutes(BindAt(doc, at.bind).listeners[at.listener]) case Err(_) => multiset{})
    case UpdateListener(id, configuration, _) =>
      (match FindListener(doc, id, 0)
       case Ok(at) =>
         if RouteKind(ProtocolOf(configuration)) == RouteKind(ListenerOf(doc, at).protocol) then multiset{}
         else ListenerRoutes(BindAt(doc, at.bind).listeners[at.listener])
       case Err(_) => multiset{})
    case UpdateRoute(id, _, _) =>
      (match FindRoute(doc, id, 0) case Ok(at) => multiset{Obj(RouteOf(doc, at))} case Err(_) => multiset{})
    case DeleteRoute(id) =>
      (match FindRoute(doc, id, 0) case Ok(at) => multiset{Obj(RouteOf(doc, at))} case Err(_) => multiset{})
    case _ => multiset{}
  }

  function Gained(change: Change): multiset<Json> {
    match change
    case CreateRoute(_, kind, configuration) => Encoded(kind, configuration)
    case UpdateRoute(_, kind, configuration) => Encoded(kind, configuration)
    case _ => multiset{}
  }

  function Encoded(kind: Kind, configuration: Fields): multiset<Json> {
    match EncodeRoute(kind, configuration) case Ok(route) => multiset{Obj(route)} case Err(_) => multiset{}
  }

  /** The equation a change must meet. */
  predicate Conserves(doc: Document, change: Change, after: Document) {
    AllRoutes(after) + Lost(doc, change) == AllRoutes(doc) + Gained(change)
  }

  lemma CreateBindConserves(doc: Document, port: int, after: Document)
    requires Apply(doc, CreateBind(port)) == Ok(after)
    ensures Conserves(doc, CreateBind(port), after)
  {
    var raw := Obj(map["port" := Int(port), "listeners" := Arr([])]);
    TotalAppended(doc.binds, raw, BindRoutes);
    assert DecodeBind(raw) == Some(Bind(raw.fields, [], port));
    assert BindRoutes(raw) == multiset{};
  }

  lemma UpdateBindConserves(doc: Document, id: string, port: int, after: Document)
    requires ApplyUpdateBind(doc, id, port) == Ok(after)
    ensures Conserves(doc, UpdateBind(id, port), after)
  {
    var b := FindBind(doc, id, 0).value;
    var raw := Obj(BindAt(doc, b).fields["port" := Int(port)]);
    TotalReplaced(doc.binds, b, raw, BindRoutes);
    assert DecodeBind(raw) == Some(Bind(raw.fields, BindAt(doc, b).listeners, port));
    assert BindRoutes(raw) == BindRoutes(doc.binds[b]);
    CancelSame(AllRoutes(after), AllRoutes(doc), BindRoutes(raw));
  }

  lemma DeleteBindConserves(doc: Document, id: string, deleteChildren: bool, after: Document)
    requires ApplyDeleteBind(doc, id, deleteChildren) == Ok(after)
    ensures Conserves(doc, DeleteBind(id, deleteChildren), after)
  {
    TotalWithout(doc.binds, FindBind(doc, id, 0).value, BindRoutes);
  }

  lemma EncodedProtocol(configuration: Fields, current: Option<Fields>)
    requires EncodeListener(configuration, current).Ok?
    ensures ProtocolOf(EncodeListener(configuration, current).value) == ProtocolOf(configuration)
  {
  }

  lemma NewListenerIsEmpty(configuration: Fields)
    requires EncodeListener(configuration, None).Ok?
    ensures var f := EncodeListener(configuration, None).value;
            ListenerRoutes(Obj(f[RouteKey(RouteKind(ProtocolOf(f))) := Arr([])])) == multiset{}
  {
    var f := EncodeListener(configuration, None).value;
    var kind := RouteKind(ProtocolOf(f));
    EncodedListenerIs(configuration, None);
    EncodedListenerDecodes(f, kind, Arr([]));
    RoutesByKind(Obj(f[RouteKey(kind) := Arr([])]), kind);
  }

  lemma CreateListenerConserves(doc: Document, id: string, configuration: Fields, after: Document)
    requires ApplyCreateListener(doc, id, configuration) == Ok(after)
    ensures Conserves(doc, CreateListener(id, configuration), after)
  {
    var f := EncodeListener(configuration, None).value;
    NewListenerIsEmpty(configuration);
    AddedEmptyListener(doc, FindBind(doc, id, 0).value, Obj(f[RouteKey(RouteKind(ProtocolOf(f))) := Arr([])]));
  }

  lemma AddedEmptyListener(doc: Document, b: nat, raw: Json)
    requires b < |doc.binds| && DecodeBind(doc.binds[b]).Some? && ListenerRoutes(raw) == multiset{}
    ensures AllRoutes(StoreListeners(doc, b, BindAt(doc, b).listeners + [raw])) + multiset{} == AllRoutes(doc) + multiset{}
  {
    var before := BindAt(doc, b).listeners;
    StoredListenersTotal(doc, b, before + [raw]);
    TotalAppended(before, raw, ListenerRoutes);
    assert Total(before + [raw], ListenerRoutes) == Total(before, ListenerRoutes);
    CancelSame(AllRoutes(StoreListeners(doc, b, before + [raw])), AllRoutes(doc), Total(before, ListenerRoutes));
  }

  /** What is left in a listener whose kind changed, or did not. */
  lemma RewrittenListenerRoutes(current: Listener, f: Fields, kind: Kind)
    requires "routes" !in f && "tcpRoutes" !in f && ValidProtocol(ProtocolOf(f)) && kind == RouteKind(ProtocolOf(f))
    requires DecodeListener(Obj(current.fields)) == Some(current) && GoodListener(Obj(current.fields))
    ensures ListenerRoutes(Obj(f[RouteKey(kind) := KeptRoutes(current, kind)])) ==
            if RouteKind(current.protocol) == kind then ListenerRoutes(Obj(current.fields)) else multiset{}
  {
    var raw := Obj(f[RouteKey(kind) := KeptRoutes(current, kind)]);
    EncodedListenerDecodes(f, kind, KeptRoutes(current, kind));
    RoutesByKind(raw, kind);
    RoutesByKind(Obj(current.fields), kind);
  }

  lemma UpdatedListenerTotal(
    doc: Document, id: string, configuration: Fields, deleteIncompatible: bool, after: Document) returns (at: ListenerAt)
    requires Good(doc) && ApplyUpdateListener(doc, id, configuration, deleteIncompatible) == Ok(after)
    ensures FindListener(doc, id, 0) == Ok(at) && HasListener(doc, at)
    ensures var routes := ListenerRoutes(BindAt(doc, at.bind).listeners[at.listener]);
            var sameKind := RouteKind(ProtocolOf(configuration)) == RouteKind(ListenerOf(doc, at).protocol);
            AllRoutes(after) + routes == AllRoutes(doc) + if sameKind then routes else multiset{}
  {
    at := FindListener(doc, id, 0).value;
    var current := ListenerOf(doc, at);
    var f := EncodeListener(configuration, Some(current.fields)).value;
    var kind := RouteKind(ProtocolOf(f));
    EncodedListenerIs(configuration, Some(current.fields));
    EncodedProtocol(configuration, Some(current.fields));
    ListenerIsGood(doc, at);
    RewrittenListenerRoutes(current, f, kind);
    StoredListenerTotal(doc, at, f[RouteKey(kind) := KeptRoutes(current, kind)]);
  }

  lemma UpdateListenerConserves(
    doc: Document, id: string, configuration: Fields, deleteIncompatible: bool, after: Document)
    requires Good(doc) && ApplyUpdateListener(doc, id, configuration, deleteIncompatible) == Ok(after)
    ensures Conserves(doc, UpdateListener(id, configuration, deleteIncompatible), after)
  {
    var at := UpdatedListenerTotal(doc, id, configuration, deleteIncompatible, after);
    var routes := ListenerRoutes(BindAt(doc, at.bind).listeners[at.listener]);
    if RouteKind(ProtocolOf(configuration)) == RouteKind(ListenerOf(doc, at).protocol) {
      CancelSame(AllRoutes(after), AllRoutes(doc), routes);
    }
  }

  lemma RemovedListenerTotal(doc: Document, at: ListenerAt)
    requires HasListener(doc, at)
    ensures var before := BindAt(doc, at.bind).listeners;
            AllRoutes(StoreListeners(doc, at.bind, Without(before, at.listener))) + ListenerRoutes(before[at.listener]) ==
            AllRoutes(doc) + multiset{}
  {
    var before := BindAt(doc, at.bind).listeners;
    var now := Without(before, at.listener);
    StoredListenersTotal(doc, at.bind, now);
    TotalWithout(before, at.listener, ListenerRoutes);
    Cancel(AllRoutes(StoreListeners(doc, at.bind, now)), AllRoutes(doc), Total(before, ListenerRoutes),
           Total(now, ListenerRoutes), ListenerRoutes(before[at.listener]), multiset{});
  }

  lemma DeleteListenerConserves(doc: Document, id: string, deleteChildren: bool, after: Document)
    requires ApplyDeleteListener(doc, id, deleteChildren) == Ok(after)
    ensures Conserves(doc, DeleteListener(id, deleteChildren), after)
  {
    RemovedListenerTotal(doc, FindListener(doc, id, 0).value);
  }

  lemma CreateRouteConserves(doc: Document, id: string, kind: Kind, configuration: Fields, after: Document)
    requires ApplyCreateRoute(doc, id, kind, configuration) == Ok(after)
    ensures Conserves(doc, CreateRoute(id, kind, configuration), after)
  {
    var at := FindListener(doc, id, 0).value;
    var routes, route := RoutesOf(ListenerOf(doc, at), kind), Obj(EncodeRoute(kind, configuration).value);
    StoredRoutesTotal(doc, at, kind, routes + [route]);
    CancelKept(AllRoutes(after), AllRoutes(doc), multiset(routes), multiset{}, multiset{route});
  }

  lemma UpdateRouteConserves(doc: Document, id: string, kind: Kind, configuration: Fields, after: Document)
    requires ApplyUpdateRoute(doc, id, kind, configuration) == Ok(after)
    ensures Conserves(doc, UpdateRoute(id, kind, configuration), after)
  {
    var at := FindRoute(doc, id, 0).value;
    var routes, route := RoutesOf(ListenerOf(doc, at.at), kind), Obj(EncodeRoute(kind, configuration).value);
    var now := routes[at.route := route];
    StoredRoutesTotal(doc, at.at, kind, now);
    ReplacedInMultiset(routes, at.route, route);
    Cancel(AllRoutes(after), AllRoutes(doc), multiset(routes), multiset(now), multiset{routes[at.route]}, multiset{route});
  }

  lemma DeleteRouteConserves(doc: Document, id: string, after: Document)
    requires ApplyDeleteRoute(doc, id) == Ok(after)
    ensures Conserves(doc, DeleteRoute(id), after)
  {
    var at := FindRoute(doc, id, 0).value;
    var routes := RoutesOf(ListenerOf(doc, at.at), at.kind);
    var now := Without(routes, at.route);
    StoredRoutesTotal(doc, at.at, at.kind, now);
    RemovedFromMultiset(routes, at.route);
    Cancel(AllRoutes(after), AllRoutes(doc), multiset(routes), multiset(now), multiset{routes[at.route]}, multiset{});
  }

  /** Routes are conserved: what is there afterwards, with what the change dropped, is what was there before with
      what the change added. */
  lemma RoutesAreConserved(doc: Document, change: Change, after: Document)
    requires Good(doc) && Apply(doc, change) == Ok(after)
    ensures Conserves(doc, change, after)
  {
    match change
    case CreateBind(port) => CreateBindConserves(doc, port, after);
    case UpdateBind(id, port) => UpdateBindConserves(doc, id, port, after);
    case DeleteBind(id, children) => DeleteBindConserves(doc, id, children, after);
    case CreateListener(id, configuration) => CreateListenerConserves(doc, id, configuration, after);
    case UpdateListener(id, configuration, flag) => UpdateListenerConserves(doc, id, configuration, flag, after);
    case DeleteListener(id, children) => DeleteListenerConserves(doc, id, children, after);
    case CreateRoute(id, kind, configuration) => CreateRouteConserves(doc, id, kind, configuration, after);
    case UpdateRoute(id, kind, configuration) => UpdateRouteConserves(doc, id, kind, configuration, after);
    case DeleteRoute(id) => DeleteRouteConserves(doc, id, after);
  }

  /** A change that says routes may go: an explicit flag, or a change to one route. */
  predicate MayDrop(change: Change) {
    match change
    case DeleteBind(_, deleteChildren) => deleteChildren
    case UpdateListener(_, _, deleteIncompatible) => deleteIncompatible
    case DeleteListener(_, deleteChildren) => deleteChildren
    case UpdateRoute(_, _, _) => true
    case DeleteRoute(_) => true
    case _ => false
  }

  lemma NothingLostUnasked(doc: Document, change: Change, after: Document)
    requires Apply(doc, change) == Ok(after) && !MayDrop(change)
    ensures Lost(doc, change) == multiset{}
  {
    if change.UpdateListener? {
      var at := FindListener(doc, change.id, 0).value;
      EncodedProtocol(change.configuration, Some(ListenerOf(doc, at).fields));
    }
  }

  /** No route disappears unless the change says so. */
  lemma NoRouteDisappearsUnasked(doc: Document, change: Change, after: Document)
    requires Good(doc) && Apply(doc, change) == Ok(after) && !MayDrop(change)
    ensures AllRoutes(doc) <= AllRoutes(after)
  {
    RoutesAreConserved(doc, change, after);
    NothingLostUnasked(doc, change, after);
    GainOnly(AllRoutes(after), AllRoutes(doc), Gained(change));
  }

  lemma GainOnly(after: multiset<Json>, before: multiset<Json>, came: multiset<Json>)
    requires after + multiset{} == before + came
    ensures before <= after
  {
    forall x ensures before[x] <= after[x] {
      assert (after + multiset{})[x] == (before + came)[x];
    }
  }

  // ---- One node per change ----

  /** Updating a route replaces it in place: its siblings, its listener's other members, and every other listener
      and bind stay. */
  lemma UpdateRouteTouchesOne(doc: Document, id: string, kind: Kind, configuration: Fields, after: Document)
    returns (at: RouteAt)
    requires ApplyUpdateRoute(doc, id, kind, configuration) == Ok(after)
    ensures FindRoute(doc, id, 0) == Ok(at) && at.kind == kind && HasRoute(doc, at)
    ensures OnlyRoutesChanged(doc, after, at.at, kind)
    ensures EncodeRoute(kind, configuration).Ok?
    ensures RoutesOf(ListenerOf(after, at.at), kind) ==
            RoutesOf(ListenerOf(doc, at.at), kind)[at.route := Obj(EncodeRoute(kind, configuration).value)]
  {
    at := FindRoute(doc, id, 0).value;
    var route := Obj(EncodeRoute(kind, configuration).value);
    StoreRoutesFrame(doc, at.at, kind, RoutesOf(ListenerOf(doc, at.at), kind)[at.route := route]);
  }

  /** Deleting a route keeps the order of the rest. */
  lemma DeleteRouteTouchesOne(doc: Document, id: string, after: Document) returns (at: RouteAt)
    requires ApplyDeleteRoute(doc, id) == Ok(after)
    ensures FindRoute(doc, id, 0) == Ok(at) && HasRoute(doc, at) && OnlyRoutesChanged(doc, after, at.at, at.kind)
    ensures var before := RoutesOf(ListenerOf(doc, at.at), at.kind);
            RoutesOf(ListenerOf(after, at.at), at.kind) == before[..at.route] + before[at.route + 1..]
  {
    at := FindRoute(doc, id, 0).value;
    StoreRoutesFrame(doc, at.at, at.kind, Without(RoutesOf(ListenerOf(doc, at.at), at.kind), at.route));
  }

  lemma CreateRouteTouchesOne(doc: Document, id: string, kind: Kind, configuration: Fields, after: Document)
    returns (at: ListenerAt)
    requires ApplyCreateRoute(doc, id, kind, configuration) == Ok(after)
    ensures FindListener(doc, id, 0) == Ok(at) && HasListener(doc, at) && OnlyRoutesChanged(doc, after, at, kind)
    ensures EncodeRoute(kind, configuration).Ok?
    ensures RoutesOf(ListenerOf(after, at), kind) ==
            RoutesOf(ListenerOf(doc, at), kind) + [Obj(EncodeRoute(kind, configuration).value)]
  {
    at := FindListener(doc, id, 0).value;
    var route := Obj(EncodeRoute(kind, configuration).value);
    StoreRoutesFrame(doc, at, kind, RoutesOf(ListenerOf(doc, at), kind) + [route]);
  }

  /** Updating a listener rewrites that listener alone: it gets the draft's members, keeps its namespace unless the
      draft gives one, and keeps its routes while it stays of the same kind. */
  lemma UpdateListenerTouchesOne(
    doc: Document, id: string, configuration: Fields, deleteIncompatible: bool, after: Document) returns (at: ListenerAt)
    requires Good(doc) && ApplyUpdateListener(doc, id, configuration, deleteIncompatible) == Ok(after)
    ensures FindListener(doc, id, 0) == Ok(at) && HasListener(doc, at)
    ensures OnlyListenerChanged(doc, after, at) && HasListener(after, at)
    ensures var before, now := ListenerOf(doc, at), ListenerOf(after, at);
            var kind := RouteKind(ProtocolOf(configuration));
            && (forall key :: key in configuration && key != "routes" && key != "tcpRoutes" ==>
                  Field(now.fields, key) == Field(configuration, key))
            && ("namespace" !in configuration ==> Field(now.fields, "namespace") == Field(before.fields, "namespace"))
            && now.protocol == ProtocolOf(configuration)
            && RoutesOf(now, kind) == (if RouteKind(before.protocol) == kind then RoutesOf(before, kind) else [])
            && RoutesOf(now, OtherKind(kind)) == []
  {
    at := FindListener(doc, id, 0).value;
    var current := ListenerOf(doc, at);
    var f := EncodeListener(configuration, Some(current.fields)).value;
    var kind := RouteKind(ProtocolOf(f));
    EncodedListenerIs(configuration, Some(current.fields));
    EncodedProtocol(configuration, Some(current.fields));
    ListenerIsGood(doc, at);
    EncodedListenerDecodes(f, kind, KeptRoutes(current, kind));
    StoreListenerFrame(doc, at, f[RouteKey(kind) := KeptRoutes(current, kind)]);
    RouteKeysAreNotDraftKeys(f, kind, KeptRoutes(current, kind));
  }

  lemma RouteKeysAreNotDraftKeys(f: Fields, kind: Kind, routes: Json)
    ensures var g := f[RouteKey(kind) := routes];
            && (forall key :: key != "routes" && key != "tcpRoutes" ==> Field(g, key) == Field(f, key))
            && ProtocolOf(g) == ProtocolOf(f) && Field(g, "namespace") == Field(f, "namespace")
  {
  }

  /** Deleting a listener keeps the order of the rest and every other bind. */
  lemma DeleteListenerTouchesOne(doc: Document, id: string, deleteChildren: bool, after: Document)
    returns (at: ListenerAt)
    requires ApplyDeleteListener(doc, id, deleteChildren) == Ok(after)
    ensures FindListener(doc, id, 0) == Ok(at) && HasListener(doc, at) && OnlyListenersChanged(doc, after, at.bind)
    ensures var before := BindAt(doc, at.bind).listeners;
            BindAt(after, at.bind).listeners == before[..at.listener] + before[at.listener + 1..]
    ensures HasRoutes(ListenerOf(doc, at)) ==> deleteChildren
  {
    at := FindListener(doc, id, 0).value;
    StoreListenersFrame(doc, at.bind, Without(BindAt(doc, at.bind).listeners, at.listener));
  }

  /** Updating a bind changes its port and nothing else. */
  lemma UpdateBindTouchesOne(doc: Document, id: string, port: int, after: Document) returns (b: nat)
    requires ApplyUpdateBind(doc, id, port) == Ok(after)
    ensures FindBind(doc, id, 0) == Ok(b) && b < |doc.binds| == |after.binds| && after.root == doc.root
    ensures forall i :: 0 <= i < |doc.binds| && i != b ==> after.binds[i] == doc.binds[i]
    ensures DecodeBind(doc.binds[b]).Some? && DecodeBind(after.binds[b]).Some?
    ensures BindAt(after, b).port == port && BindAt(after, b).listeners == BindAt(doc, b).listeners
    ensures forall key :: key != "port" ==> Field(BindAt(after, b).fields, key) == Field(BindAt(doc, b).fields, key)
  {
    b := FindBind(doc, id, 0).value;
  }
}
