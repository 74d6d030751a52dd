/** What every accepted traffic change keeps: a document that decodes, distinct ports, listeners of one kind of
    route, every node it does not name, and every route it was not told to drop. */
module TrafficSafety {
  import opened Text
  import opened JsonTrees
  import opened TrafficModel
  import opened Collections

  // ---- Well-formed documents ----

  function OtherKind(kind: Kind): Kind {
    match kind case Http => Tcp case Tcp => Http
  }

  /** TCP and TLS listeners hold only tcpRoutes, the others only routes. */
  predicate WellKinded(l: Listener) {
    RoutesOf(l, OtherKind(RouteKind(l.protocol))) == []
  }

  predicate GoodListener(raw: Json) {
    ListenerDecodes(raw) && WellKinded(DecodeListener(raw).value)
  }

  predicate GoodBind(raw: Json) {
    DecodeBind(raw).Some? && forall l :: l in DecodeBind(raw).value.listeners ==> GoodListener(l)
  }

  predicate DistinctPorts(binds: seq<Json>)
    requires forall b :: b in binds ==> GoodBind(b)
  {
    forall i, j :: 0 <= i < j < |binds| ==> PortOf(binds[i]) != PortOf(binds[j])
  }

  function PortOf(raw: Json): int {
    match DecodeBind(raw) case Some(b) => b.port case None => 0
  }

  predicate Good(doc: Document) {
    (forall b :: b in doc.binds ==> GoodBind(b)) && DistinctPorts(doc.binds)
  }

  // ---- What a store leaves alone ----

  /** The root, every other bind, and every other member of bind `b` are as they were. */
  ghost predicate OnlyListenersChanged(doc: Document, after: Document, b: nat) {
    && after.root == doc.root && b < |doc.binds| == |after.binds|
    && (forall i :: 0 <= i < |doc.binds| && i != b ==> after.binds[i] == doc.binds[i])
    && DecodeBind(doc.binds[b]).Some? && DecodeBind(after.binds[b]).Some?
    && BindAt(after, b).port == BindAt(doc, b).port
    && forall key :: key != "listeners" ==> Field(BindAt(after, b).fields, key) == Field(BindAt(doc, b).fields, key)
  }

  /** So is every other listener of the bind. */
  ghost predicate OnlyListenerChanged(doc: Document, after: Document, at: ListenerAt) {
    && OnlyListenersChanged(doc, after, at.bind)
    && var before, now := BindAt(doc, at.bind).listeners, BindAt(after, at.bind).listeners;
       && at.listener < |before| == |now|
       && forall l :: 0 <= l < |before| && l != at.listener ==> now[l] == before[l]
  }

  /** So is every other member of the listener, and its routes of the other kind. */
  ghost predicate OnlyRoutesChanged(doc: Document, after: Document, at: ListenerAt, kind: Kind) {
    && OnlyListenerChanged(doc, after, at) && HasListener(doc, at) && HasListener(after, at)
    && var before, now := ListenerOf(doc, at), ListenerOf(after, at);
       && now.protocol == before.protocol
       && RoutesOf(now, OtherKind(kind)) == RoutesOf(before, OtherKind(kind))
       && forall key :: key != RouteKey(kind) ==> Field(now.fields, key) == Field(before.fields, key)
  }

  lemma StoreListenersFrame(doc: Document, b: nat, listeners: seq<Json>)
    requires b < |doc.binds| && DecodeBind(doc.binds[b]).Some?
    ensures var after := StoreListeners(doc, b, listeners);
            OnlyListenersChanged(doc, after, b) && BindAt(after, b).listeners == listeners
  {
  }

  lemma StoreListenerFrame(doc: Document, at: ListenerAt, listener: Fields)
    requires HasListener(doc, at)
    ensures var after := StoreListener(doc, at, listener);
            OnlyListenerChanged(doc, after, at) && BindAt(after, at.bind).listeners[at.listener] == Obj(listener)
  {
    StoreListenersFrame(doc, at.bind, BindAt(doc, at.bind).listeners[at.listener := Obj(listener)]);
  }

  lemma RoutesRewritten(f: Fields, kind: Kind, routes: seq<Json>)
    requires DecodeListener(Obj(f)).Some?
    ensures var l, now := DecodeListener(Obj(f)).value, DecodeListener(Obj(f[RouteKey(kind) := Arr(routes)]));
            && now.Some? && now.value.protocol == l.protocol && RoutesOf(now.value, kind) == routes
            && RoutesOf(now.value, OtherKind(kind)) == RoutesOf(l, OtherKind(kind))
            && now.value.fields == f[RouteKey(kind) := Arr(routes)]
  {
  }

  lemma StoreRoutesFrame(doc: Document, at: ListenerAt, kind: Kind, routes: seq<Json>)
    requires HasListener(doc, at)
    ensures var after := StoreRoutes(doc, at, kind, routes);
            OnlyRoutesChanged(doc, after, at, kind) && RoutesOf(ListenerOf(after, at), kind) == routes
  {
    var f := ListenerOf(doc, at).fields;
    RoutesRewritten(f, kind, routes);
    StoreListenerFrame(doc, at, f[RouteKey(kind) := Arr(routes)]);
  }

  // ---- Drafts ----

  lemma EncodedRouteDecodes(kind: Kind, configuration: Fields)
    requires EncodeRoute(kind, configuration).Ok?
    ensures RouteDecodes(Obj(EncodeRoute(kind, configuration).value))
  {
  }

  /** An encoded listener carries no routes of its own, a valid protocol, everything else the draft says, and the
      namespace it had unless the draft gives one. */
  lemma EncodedListenerIs(configuration: Fields, current: Option<Fields>)
    requires EncodeListener(configuration, current).Ok?
    ensures var f := EncodeListener(configuration, current).value;
            && "routes" !in f && "tcpRoutes" !in f && ValidProtocol(ProtocolOf(f))
            && (forall key :: key in configuration && key != "routes" && key != "tcpRoutes" ==>
                  Field(f, key) == Field(configuration, key))
            && ("namespace" !in configuration && current.Some? ==>
                  Field(f, "namespace") == Field(current.value, "namespace"))
  {
  }

  lemma EncodedListenerDecodes(f: Fields, kind: Kind, routes: Json)
    requires "routes" !in f && "tcpRoutes" !in f && ValidProtocol(ProtocolOf(f)) && kind == RouteKind(ProtocolOf(f))
    requires routes == Null || (routes.Arr? && forall r :: r in routes.items ==> RouteDecodes(r))
    ensures var raw := Obj(f[RouteKey(kind) := routes]);
            && GoodListener(raw)
            && RoutesOf(DecodeListener(raw).value, kind) == if routes == Null then [] else routes.items
  {
  }

  // ---- Every accepted change keeps the document well-formed ----

  lemma StoredListenersAreGood(doc: Document, b: nat, listeners: seq<Json>)
    requires Good(doc) && b < |doc.binds| && DecodeBind(doc.binds[b]).Some?
    requires forall l :: l in listeners ==> GoodListener(l)
    ensures Good(StoreListeners(doc, b, listeners))
  {
    var after := StoreListeners(doc, b, listeners);
    StoreListenersFrame(doc, b, listeners);
    forall raw | raw in after.binds ensures GoodBind(raw) {
      var i :| 0 <= i < |after.binds| && after.binds[i] == raw;
      assert i != b ==> raw == doc.binds[i];
    }
    assert forall i :: 0 <= i < |doc.binds| ==> PortOf(after.binds[i]) == PortOf(doc.binds[i]);
  }

  lemma StoredListenerIsGood(doc: Document, at: ListenerAt, listener: Fields)
    requires Good(doc) && HasListener(doc, at) && GoodListener(Obj(listener))
    ensures Good(StoreListener(doc, at, listener))
  {
    var before := BindAt(doc, at.bind).listeners;
    assert GoodBind(doc.binds[at.bind]);
    StoredListenersAreGood(doc, at.bind, before[at.listener := Obj(listener)]);
  }

  lemma StoredRoutesAreGood(doc: Document, at: ListenerAt, kind: Kind, routes: seq<Json>)
    requires Good(doc) && HasListener(doc, at) && kind == RouteKind(ListenerOf(doc, at).protocol)
    requires forall r :: r in routes ==> RouteDecodes(r)
    ensures Good(StoreRoutes(doc, at, kind, routes))
  {
    var f := ListenerOf(doc, at).fields;
    ListenerIsGood(doc, at);
    RoutesRewritten(f, kind, routes);
    StoredListenerIsGood(doc, at, f[RouteKey(kind) := Arr(routes)]);
  }

  lemma ListenerIsGood(doc: Document, at: ListenerAt)
    requires Good(doc) && HasListener(doc, at)
    ensures GoodListener(BindAt(doc, at.bind).listeners[at.listener])
    ensures BindAt(doc, at.bind).listeners[at.listener] == Obj(ListenerOf(doc, at).fields)
  {
    assert doc.binds[at.bind] in doc.binds;
    assert BindAt(doc, at.bind).listeners[at.listener] in BindAt(doc, at.bind).listeners;
  }

  /** A route that exists is of its listener's kind. */
  lemma RouteHasKind(doc: Document, at: RouteAt)
    requires Good(doc) && HasRoute(doc, at)
    ensures at.kind == RouteKind(ListenerOf(doc, at.at).protocol)
    ensures forall r :: r in RoutesOf(ListenerOf(doc, at.at), at.kind) ==> RouteDecodes(r)
  {
    ListenerIsGood(doc, at.at);
  }

  lemma BindChangeIsGood(doc: Document, change: Change, after: Document)
    requires Good(doc) && Apply(doc, change) == Ok(after)
    requires change.CreateBind? || change.UpdateBind? || change.DeleteBind?
    ensures Good(after)
  {
    match change
    case CreateBind(port) => NewBindIsGood(doc, port);
    case UpdateBind(id, port) => RenumberedBindIsGood(doc, FindBind(doc, id, 0).value, port);
    case DeleteBind(id, _) => FewerBindsAreGood(doc, FindBind(doc, id, 0).value);
  }

  lemma FewerBindsAreGood(doc: Document, b: nat)
    requires Good(doc) && b < |doc.binds|
    ensures Good(doc.(binds := Without(doc.binds, b)))
  {
    var left := Without(doc.binds, b);
    forall i | 0 <= i < |left| ensures left[i] == doc.binds[if i < b then i else i + 1] {}
    assert forall raw :: raw in left ==> raw in doc.binds;
  }

  lemma NewBindIsGood(doc: Document, port: int)
    requires Good(doc) && ValidPort(port) && !PortExists(doc, port, -1)
    ensures Good(doc.(binds := doc.binds + [Obj(map["port" := Int(port), "listeners" := Arr([])])]))
  {
    var raw := Obj(map["port" := Int(port), "listeners" := Arr([])]);
    assert DecodeBind(raw) == Some(Bind(raw.fields, [], port));
    assert GoodBind(raw);
    forall i | 0 <= i < |doc.binds| ensures PortOf(doc.binds[i]) != port {
      assert GoodBind(doc.binds[i]);
    }
  }

  lemma RenumberedBindIsGood(doc: Document, b: nat, port: int)
    requires Good(doc) && b < |doc.binds| && ValidPort(port) && !PortExists(doc, port, b)
    requires DecodeBind(doc.binds[b]).Some?
    ensures Good(doc.(binds := doc.binds[b := Obj(BindAt(doc, b).fields["port" := Int(port)])]))
  {
    var raw := Obj(BindAt(doc, b).fields["port" := Int(port)]);
    assert GoodBind(doc.binds[b]);
    assert DecodeBind(raw) == Some(Bind(raw.fields, BindAt(doc, b).listeners, port));
    forall i | 0 <= i < |doc.binds| && i != b ensures PortOf(doc.binds[i]) != port {
      assert GoodBind(doc.binds[i]);
    }
  }

  lemma ListenerChangeIsGood(doc: Document, change: Change, after: Document)
    requires Good(doc) && Apply(doc, change) == Ok(after)
    requires change.CreateListener? || change.UpdateListener? || change.DeleteListener?
    ensures Good(after)
  {
    match change
    case CreateListener(bindId, configuration) =>
      var b := FindBind(doc, bindId, 0).value;
      var f := EncodeListener(configuration, None).value;
      EncodedListenerIs(configuration, None);
      EncodedListenerDecodes(f, RouteKind(ProtocolOf(f)), Arr([]));
      assert GoodBind(doc.binds[b]);
      StoredListenersAreGood(doc, b, BindAt(doc, b).listeners + [Obj(f[RouteKey(RouteKind(ProtocolOf(f))) := Arr([])])]);
    case UpdateListener(id, configuration, _) =>
      var at := FindListener(doc, id, 0).value;
      var current := ListenerOf(doc, at);
      var f := EncodeListener(configuration, Some(current.fields)).value;
      var kind := RouteKind(ProtocolOf(f));
      ListenerIsGood(doc, at);
      EncodedListenerIs(configuration, Some(current.fields));
      EncodedListenerDecodes(f, kind, KeptRoutes(current, kind));
      StoredListenerIsGood(doc, at, f[RouteKey(kind) := KeptRoutes(current, kind)]);
    case DeleteListener(id, _) =>
      var at := FindListener(doc, id, 0).value;
      var before := BindAt(doc, at.bind).listeners;
      assert GoodBind(doc.binds[at.bind]);
      StoredListenersAreGood(doc, at.bind, Without(before, at.listener));
  }

  lemma RouteChangeIsGood(doc: Document, change: Change, after: Document)
    requires Good(doc) && Apply(doc, change) == Ok(after)
    requires change.CreateRoute? || change.UpdateRoute? || change.DeleteRoute?
    ensures Good(after)
  {
    match change
    case CreateRoute(id, kind, configuration) =>
      var at := FindListener(doc, id, 0).value;
      var route := EncodeRoute(kind, configuration).value;
      ListenerIsGood(doc, at);
      EncodedRouteDecodes(kind, configuration);
      StoredRoutesAreGood(doc, at, kind, RoutesOf(ListenerOf(doc, at), kind) + [Obj(route)]);
    case UpdateRoute(id, kind, configuration) =>
      var at := FindRoute(doc, id, 0).value;
      var route := EncodeRoute(kind, configuration).value;
      RouteHasKind(doc, at);
      EncodedRouteDecodes(kind, configuration);
      StoredRoutesAreGood(doc, at.at, kind, RoutesOf(ListenerOf(doc, at.at), kind)[at.route := Obj(route)]);
    case DeleteRoute(id) =>
      var at := FindRoute(doc, id, 0).value;
      RouteHasKind(doc, at);
      StoredRoutesAreGood(doc, at.at, at.kind, Without(RoutesOf(ListenerOf(doc, at.at), at.kind), at.route));
  }

  /** Decodable, ports distinct, listeners of one kind: every accepted change keeps all three. */
  lemma ChangeKeepsGood(doc: Document, change: Change, after: Document)
    requires Good(doc) && Apply(doc, change) == Ok(after)
    ensures Good(after) && Decodes(after)
  {
    if change.CreateBind? || change.UpdateBind? || change.DeleteBind? {
      BindChangeIsGood(doc, change, after);
    } else if change.CreateListener? || change.UpdateListener? || change.DeleteListener? {
      ListenerChangeIsGood(doc, change, after);
    } else {
      RouteChangeIsGood(doc, change, after);
    }
    GoodDecodes(after);
  }

  lemma GoodDecodes(doc: Document)
    requires Good(doc)
    ensures Decodes(doc)
  {
    forall i | 0 <= i < |doc.binds| ensures BindDecodes(doc.binds[i]) {
      assert GoodBind(doc.binds[i]);
    }
  }

  /** A sequence of requests; a refused one leaves the document as it was. */
  function ApplyAll(doc: Document, changes: seq<Change>): Document
    decreases |changes|
  {
    if changes == [] then doc
    else
      match Apply(doc, changes[0])
      case Err(_) => ApplyAll(doc, changes[1..])
      case Ok(after) => ApplyAll(after, changes[1..])
  }

  lemma {:induction false} GoodOverAnyRun(doc: Document, changes: seq<Change>)
    requires Good(doc)
    ensures Good(ApplyAll(doc, changes)) && Decodes(ApplyAll(doc, changes))
    decreases |changes|
  {
    if changes == [] {
      GoodDecodes(doc);
    } else {
      match Apply(doc, changes[0])
      case Err(_) => GoodOverAnyRun(doc, changes[1..]);
      case Ok(after) =>
        ChangeKeepsGood(doc, changes[0], after);
        GoodOverAnyRun(after, changes[1..]);
    }
  }

  /** The empty document is well-formed and accepts a first bind. */
  lemma FirstBind(root: Fields, port: int)
    requires ValidPort(port)
    ensures Good(Document(root, [])) && Apply(Document(root, []), CreateBind(port)).Ok?
  {
  }
}
