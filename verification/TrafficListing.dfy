/** What the console lists of the traffic section, and that every listed ID leads back to the node it was made
    from, with counts that agree with the listing itself. */
module TrafficListing {
  import opened Text
  import opened JsonTrees
  import opened Decimal
  import opened TrafficModel
  import opened TrafficIds

  datatype BindSetting = BindSetting(
    id: string, port: int, tunnel: string, listenerCount: nat, routeCount: nat, backendCount: nat)

  datatype ListenerSetting = ListenerSetting(
    id: string, bindId: string, port: int, name: string, hostname: string, protocol: string,
    routeCount: nat, backendCount: nat, configuration: Fields)

  datatype RouteSetting = RouteSetting(
    id: string, listenerId: string, listener: string, port: int, kind: Kind, name: string,
    hostnames: seq<string>, backendCount: nat, configuration: Fields)

  datatype Configuration = Configuration(
    binds: seq<BindSetting>, listeners: seq<ListenerSetting>, routes: seq<RouteSetting>)

  // ---- Listing ----

  function OrElse(s: string, fallback: string): string {
    if s == "" then fallback else s
  }

  function Backends(raw: Json): seq<Json>
    requires RouteDecodes(raw)
  {
    AsArray(Field(raw.fields, "backends")).value
  }

  function BackendCount(routes: seq<Json>): nat
    requires forall r :: r in routes ==> RouteDecodes(r)
  {
    if routes == [] then 0 else |Backends(routes[0])| + BackendCount(routes[1..])
  }

  function DisplayName(l: Listener, index: nat): string {
    OrElse(StringOr(Field(l.fields, "name"), ""), "Listener " + Digits(index + 1))
  }

  function ShowRoute(raw: Json, b: nat, l: nat, port: int, name: string, kind: Kind, r: nat): RouteSetting
    requires RouteDecodes(raw)
  {
    var f := raw.fields;
    RouteSetting(
      RouteId(b, l, kind, r), ListenerId(b, l), name, port, kind,
      OrElse(StringOr(Field(f, "name"), StringOr(Field(f, "ruleName"), "")), "(unnamed)"),
      HostnamesOf(f).value, |Backends(raw)|, f)
  }

  function ShowGroup(routes: seq<Json>, b: nat, l: nat, port: int, name: string, kind: Kind): seq<RouteSetting>
    requires forall r :: r in routes ==> RouteDecodes(r)
  {
    seq(|routes|, r requires 0 <= r < |routes| && RouteDecodes(routes[r]) =>
      ShowRoute(routes[r], b, l, port, name, kind, r))
  }

  function ShowRoutes(raw: Json, b: nat, l: nat, port: int): seq<RouteSetting>
    requires ListenerDecodes(raw)
  {
    var listener := DecodeListener(raw).value;
    var name := DisplayName(listener, l);
    ShowGroup(listener.routes, b, l, port, name, Http) + ShowGroup(listener.tcpRoutes, b, l, port, name, Tcp)
  }

  function ShowListener(raw: Json, b: nat, l: nat, port: int): ListenerSetting
    requires ListenerDecodes(raw)
  {
    var listener := DecodeListener(raw).value;
    ListenerSetting(
      ListenerId(b, l), BindId(b), port, DisplayName(listener, l), StringOr(Field(listener.fields, "hostname"), ""),
      listener.protocol, |listener.routes| + |listener.tcpRoutes|,
      BackendCount(listener.routes) + BackendCount(listener.tcpRoutes), listener.fields)
  }

  function ShowListeners(listeners: seq<Json>, b: nat, port: int): seq<ListenerSetting>
    requires forall l :: l in listeners ==> ListenerDecodes(l)
  {
    seq(|listeners|, l requires 0 <= l < |listeners| && ListenerDecodes(listeners[l]) =>
      ShowListener(listeners[l], b, l, port))
  }

  function RouteTotal(settings: seq<ListenerSetting>): nat {
    if settings == [] then 0 else settings[0].routeCount + RouteTotal(settings[1..])
  }

  function BackendTotal(settings: seq<ListenerSetting>): nat {
    if settings == [] then 0 else settings[0].backendCount + BackendTotal(settings[1..])
  }

  function ShowBind(raw: Json, b: nat): BindSetting
    requires BindDecodes(raw)
  {
    var bind := DecodeBind(raw).value;
    var listeners := ShowListeners(bind.listeners, b, bind.port);
    BindSetting(BindId(b), bind.port, StringOr(Field(bind.fields, "tunnelProtocol"), "direct"), |bind.listeners|,
                RouteTotal(listeners), BackendTotal(listeners))
  }

  function Flatten<T>(blocks: seq<seq<T>>): seq<T> {
    if blocks == [] then [] else blocks[0] + Flatten(blocks[1..])
  }

  /** What one bind adds to the listed listeners, and to the listed routes. */
  function ListenerBlock(raw: Json, b: nat): seq<ListenerSetting>
    requires BindDecodes(raw)
  {
    ShowListeners(DecodeBind(raw).value.listeners, b, DecodeBind(raw).value.port)
  }

  function RouteBlocksOf(listeners: seq<Json>, b: nat, port: int): seq<seq<RouteSetting>>
    requires forall l :: l in listeners ==> ListenerDecodes(l)
  {
    seq(|listeners|, l requires 0 <= l < |listeners| && ListenerDecodes(listeners[l]) =>
      ShowRoutes(listeners[l], b, l, port))
  }

  function RouteBlocks(raw: Json, b: nat): seq<seq<RouteSetting>>
    requires BindDecodes(raw)
  {
    RouteBlocksOf(DecodeBind(raw).value.listeners, b, DecodeBind(raw).value.port)
  }

  function ListenerBlocks(binds: seq<Json>): seq<seq<ListenerSetting>>
    requires forall b :: b in binds ==> BindDecodes(b)
  {
    seq(|binds|, b requires 0 <= b < |binds| && BindDecodes(binds[b]) => ListenerBlock(binds[b], b))
  }

  function AllRouteBlocks(binds: seq<Json>): seq<seq<RouteSetting>>
    requires forall b :: b in binds ==> BindDecodes(b)
  {
    seq(|binds|, b requires 0 <= b < |binds| && BindDecodes(binds[b]) => Flatten(RouteBlocks(binds[b], b)))
  }

  function ShowBinds(binds: seq<Json>): seq<BindSetting>
    requires forall b :: b in binds ==> BindDecodes(b)
  {
    seq(|binds|, b requires 0 <= b < |binds| && BindDecodes(binds[b]) => ShowBind(binds[b], b))
  }

  /** configuration(); None stands for its contract error. */
  function Show(doc: Document): Option<Configuration> {
    if !Decodes(doc) then None
    else
      Some(Configuration(
        ShowBinds(doc.binds), Flatten(ListenerBlocks(doc.binds)), Flatten(AllRouteBlocks(doc.binds))))
  }

  // ---- Recounting the listing ----

  function Filter<T>(s: seq<T>, keep: T -> bool): seq<T> {
    if s == [] then [] else (if keep(s[0]) then [s[0]] else []) + Filter(s[1..], keep)
  }

  function PointsAtBind(id: string): ListenerSetting -> bool { (s: ListenerSetting) => s.bindId == id }

  function PointsAtListener(id: string): RouteSetting -> bool { (s: RouteSetting) => s.listenerId == id }

  /** The listed listeners that point at a bind, and the listed routes that point at a listener. */
  function OfBind(listeners: seq<ListenerSetting>, id: string): seq<ListenerSetting> {
    Filter(listeners, PointsAtBind(id))
  }

  function OfListener(routes: seq<RouteSetting>, id: string): seq<RouteSetting> {
    Filter(routes, PointsAtListener(id))
  }

  function Sum(routes: seq<RouteSetting>): nat {
    if routes == [] then 0 else routes[0].backendCount + Sum(routes[1..])
  }

  lemma {:induction false} FilterSplits<T>(x: seq<T>, y: seq<T>, keep: T -> bool)
    ensures Filter(x + y, keep) == Filter(x, keep) + Filter(y, keep)
  {
    if x == [] {
      assert x + y == y;
    } else {
      FilterSplits(x[1..], y, keep);
      assert (x + y)[1..] == x[1..] + y && (x + y)[0] == x[0];
      var head := if keep(x[0]) then [x[0]] else [];
      assert head + (Filter(x[1..], keep) + Filter(y, keep)) == (head + Filter(x[1..], keep)) + Filter(y, keep);
    }
  }

  lemma {:induction false} FilterAll<T>(x: seq<T>, keep: T -> bool, all: bool)
    requires forall k :: 0 <= k < |x| ==> keep(x[k]) == all
    ensures Filter(x, keep) == if all then x else []
  {
    if x != [] {
      FilterAll(x[1..], keep, all);
      assert x == [x[0]] + x[1..];
    }
  }

  /** When all that is kept lies in one block, filtering the whole list filters that block. */
  lemma {:induction false} FilterBlocks<T>(blocks: seq<seq<T>>, keep: T -> bool, b: int)
    requires forall i :: 0 <= i < |blocks| && i != b ==> Filter(blocks[i], keep) == []
    ensures Filter(Flatten(blocks), keep) == if 0 <= b < |blocks| then Filter(blocks[b], keep) else []
  {
    if blocks != [] {
      FilterSplits(blocks[0], Flatten(blocks[1..]), keep);
      FilterBlocks(blocks[1..], keep, b - 1);
    }
  }

  // ---- Listed listeners ----

  lemma BlockOfBind(raw: Json, from: nat, b: nat)
    requires BindDecodes(raw)
    ensures OfBind(ListenerBlock(raw, from), BindId(b)) == if from == b then ListenerBlock(raw, from) else []
  {
    BindIdsDiffer(from, b);
    FilterAll(ListenerBlock(raw, from), PointsAtBind(BindId(b)), from == b);
  }

  /** The listed listeners of a bind are the bind's listeners, in order. */
  lemma ListenersOfBind(doc: Document, b: nat)
    requires Decodes(doc) && b < |doc.binds| && BindDecodes(doc.binds[b])
    ensures OfBind(Show(doc).value.listeners, BindId(b)) == ListenerBlock(doc.binds[b], b)
  {
    var blocks := ListenerBlocks(doc.binds);
    forall i | 0 <= i < |blocks| ensures OfBind(blocks[i], BindId(b)) == if i == b then blocks[i] else [] {
      assert doc.binds[i] in doc.binds;
      BlockOfBind(doc.binds[i], i, b);
    }
    FilterBlocks(blocks, PointsAtBind(BindId(b)), b);
  }

  // ---- Listed routes ----

  lemma RoutesOfOneListener(raw: Json, b: nat, from: nat, port: int, a: nat, l: nat)
    requires ListenerDecodes(raw)
    ensures OfListener(ShowRoutes(raw, b, from, port), ListenerId(a, l)) ==
            if a == b && from == l then ShowRoutes(raw, b, from, port) else []
  {
    ListenerIdsDiffer(b, from, a, l);
    FilterAll(ShowRoutes(raw, b, from, port), PointsAtListener(ListenerId(a, l)), a == b && from == l);
  }

  lemma RoutesOfListenerInBind(raw: Json, b: nat, a: nat, l: nat)
    requires BindDecodes(raw) && (a == b ==> l < |DecodeBind(raw).value.listeners|)
    ensures OfListener(Flatten(RouteBlocks(raw, b)), ListenerId(a, l)) == if a == b then RouteBlocks(raw, b)[l] else []
  {
    var bind, blocks := DecodeBind(raw).value, RouteBlocks(raw, b);
    forall i | 0 <= i < |blocks|
      ensures OfListener(blocks[i], ListenerId(a, l)) == if a == b && i == l then blocks[i] else []
    {
      assert bind.listeners[i] in bind.listeners;
      RoutesOfOneListener(bind.listeners[i], b, i, bind.port, a, l);
    }
    FilterBlocks(blocks, PointsAtListener(ListenerId(a, l)), if a == b then l else -1);
  }

  /** The listed routes of a listener are its routes, http before tcp, in order. */
  lemma RoutesOfListener(doc: Document, b: nat, l: nat)
    requires Decodes(doc) && b < |doc.binds| && BindDecodes(doc.binds[b])
    requires l < |DecodeBind(doc.binds[b]).value.listeners|
    ensures OfListener(Show(doc).value.routes, ListenerId(b, l)) == RouteBlocks(doc.binds[b], b)[l]
  {
    var blocks := AllRouteBlocks(doc.binds);
    forall i | 0 <= i < |blocks|
      ensures OfListener(blocks[i], ListenerId(b, l)) == if i == b then RouteBlocks(doc.binds[b], b)[l] else []
    {
      assert doc.binds[i] in doc.binds;
      RoutesOfListenerInBind(doc.binds[i], i, b, l);
    }
    FilterBlocks(blocks, PointsAtListener(ListenerId(b, l)), b);
  }

  lemma {:induction false} SumSplits(x: seq<RouteSetting>, y: seq<RouteSetting>)
    ensures Sum(x + y) == Sum(x) + Sum(y)
  {
    if x == [] {
      assert x + y == y;
    } else {
      SumSplits(x[1..], y);
      assert (x + y)[1..] == x[1..] + y;
    }
  }

  /** The backends shown for some routes are those the routes hold, whatever their numbering. */
  lemma {:induction false} SumOfShown(shown: seq<RouteSetting>, routes: seq<Json>)
    requires |shown| == |routes| && forall r :: r in routes ==> RouteDecodes(r)
    requires forall k :: 0 <= k < |shown| ==> shown[k].backendCount == |Backends(routes[k])|
    ensures Sum(shown) == BackendCount(routes)
  {
    if shown != [] { SumOfShown(shown[1..], routes[1..]); }
  }

  /** A listener's counts agree with its routes as shown. */
  lemma ListenerCountsAgree(raw: Json, b: nat, l: nat, port: int)
    requires ListenerDecodes(raw)
    ensures var shown := ShowRoutes(raw, b, l, port);
            && |shown| == ShowListener(raw, b, l, port).routeCount
            && Sum(shown) == ShowListener(raw, b, l, port).backendCount
  {
    var listener := DecodeListener(raw).value;
    var name := DisplayName(listener, l);
    var http := ShowGroup(listener.routes, b, l, port, name, Http);
    var tcp := ShowGroup(listener.tcpRoutes, b, l, port, name, Tcp);
    SumOfShown(http, listener.routes);
    SumOfShown(tcp, listener.tcpRoutes);
    SumSplits(http, tcp);
  }

  // ---- The theorems ----

  /** Each listed bind is found by its ID, and its counts are those of the listeners listed under it. */
  lemma ListedBind(doc: Document, b: nat)
    requires Decodes(doc) && b < |doc.binds|
    ensures var c := Show(doc).value;
            var s, under := c.binds[b], OfBind(c.listeners, c.binds[b].id);
            && |c.binds| == |doc.binds| && BindDecodes(doc.binds[b]) && FindBind(doc, s.id, 0) == Ok(b)
            && s.port == BindAt(doc, b).port && |under| == s.listenerCount == |BindAt(doc, b).listeners|
            && RouteTotal(under) == s.routeCount && BackendTotal(under) == s.backendCount
  {
    assert doc.binds[b] in doc.binds;
    EveryNodeIsLocated(doc);
    ListenersOfBind(doc, b);
  }

  /** The l-th listener listed under a bind is the bind's l-th: found by its ID, shown with its own fields, and
      counted as the routes listed under it are. */
  lemma ListedListener(doc: Document, b: nat, l: nat)
    requires Decodes(doc) && HasListener(doc, ListenerAt(b, l))
    ensures var c := Show(doc).value;
            var under := OfBind(c.listeners, BindId(b));
            && |under| == |BindAt(doc, b).listeners|
            && var s := under[l];
               var routes := OfListener(c.routes, s.id);
               && FindListener(doc, s.id, 0) == Ok(ListenerAt(b, l))
               && s.configuration == ListenerOf(doc, ListenerAt(b, l)).fields && s.port == BindAt(doc, b).port
               && |routes| == s.routeCount && Sum(routes) == s.backendCount
  {
    assert doc.binds[b] in doc.binds;
    var bind := BindAt(doc, b);
    assert bind.listeners[l] in bind.listeners;
    EveryNodeIsLocated(doc);
    ListenersOfBind(doc, b);
    RoutesOfListener(doc, b, l);
    ListenerCountsAgree(bind.listeners[l], b, l, bind.port);
  }

  /** Where the k-th route listed under a listener stands. */
  function RoutePosition(l: Listener, at: ListenerAt, k: nat): RouteAt
    requires k < |l.routes| + |l.tcpRoutes|
  {
    if k < |l.routes| then RouteAt(at, Http, k) else RouteAt(at, Tcp, k - |l.routes|)
  }

  lemma RouteShownAt(raw: Json, at: ListenerAt, port: int, k: nat)
    requires ListenerDecodes(raw)
    ensures var l, shown := DecodeListener(raw).value, ShowRoutes(raw, at.bind, at.listener, port);
            && |shown| == |l.routes| + |l.tcpRoutes|
            && (k < |shown| ==>
                  var r := RoutePosition(l, at, k);
                  && r.route < |RoutesOf(l, r.kind)| && RouteDecodes(RoutesOf(l, r.kind)[r.route])
                  && shown[k].id == RouteId(at.bind, at.listener, r.kind, r.route) && shown[k].kind == r.kind
                  && shown[k].configuration == RoutesOf(l, r.kind)[r.route].fields)
  {
  }

  /** The k-th route listed under a listener is its k-th, found by its ID and shown with its own fields. */
  lemma ListedRoute(doc: Document, at: ListenerAt, k: nat)
    requires Decodes(doc) && HasListener(doc, at)
    requires k < |ListenerOf(doc, at).routes| + |ListenerOf(doc, at).tcpRoutes|
    ensures var under := OfListener(Show(doc).value.routes, ListenerId(at.bind, at.listener));
            var r := RoutePosition(ListenerOf(doc, at), at, k);
            && |under| == |ListenerOf(doc, at).routes| + |ListenerOf(doc, at).tcpRoutes|
            && HasRoute(doc, r) && FindRoute(doc, under[k].id, 0) == Ok(r)
            && under[k].configuration == RouteOf(doc, r) && under[k].kind == r.kind
  {
    assert doc.binds[at.bind] in doc.binds;
    var bind := BindAt(doc, at.bind);
    assert bind.listeners[at.listener] in bind.listeners;
    RoutesOfListener(doc, at.bind, at.listener);
    RouteShownAt(bind.listeners[at.listener], at, bind.port, k);
    EveryNodeIsLocated(doc);
  }

  // ---- Nothing else is listed ----

  lemma {:induction false} FlattenHolds<T>(blocks: seq<seq<T>>, x: T)
    requires x in Flatten(blocks)
    ensures exists i :: 0 <= i < |blocks| && x in blocks[i]
  {
    if x !in blocks[0] {
      FlattenHolds(blocks[1..], x);
      var i :| 0 <= i < |blocks[1..]| && x in blocks[1..][i];
      assert x in blocks[i + 1];
    }
  }

  /** Every listed listener belongs to a bind of the document, and every listed route to a listener of it. */
  lemma ListedListenerBelongs(doc: Document, s: ListenerSetting) returns (b: nat)
    requires Decodes(doc) && s in Show(doc).value.listeners
    ensures b < |doc.binds| && s.bindId == BindId(b)
  {
    FlattenHolds(ListenerBlocks(doc.binds), s);
    b :| b < |doc.binds| && s in ListenerBlocks(doc.binds)[b];
    assert doc.binds[b] in doc.binds;
  }

  lemma RoutesPointAtListener(raw: Json, b: nat, l: nat, port: int)
    requires ListenerDecodes(raw)
    ensures forall s :: s in ShowRoutes(raw, b, l, port) ==> s.listenerId == ListenerId(b, l)
  {
  }

  lemma ListedInBlock(raw: Json, b: nat, s: RouteSetting) returns (l: nat)
    requires BindDecodes(raw) && s in Flatten(RouteBlocks(raw, b))
    ensures l < |DecodeBind(raw).value.listeners| && ListenerDecodes(DecodeBind(raw).value.listeners[l])
    ensures s.listenerId == ListenerId(b, l)
  {
    var bind, blocks := DecodeBind(raw).value, RouteBlocks(raw, b);
    FlattenHolds(blocks, s);
    l :| l < |blocks| && s in blocks[l];
    assert bind.listeners[l] in bind.listeners;
    assert blocks[l] == ShowRoutes(bind.listeners[l], b, l, bind.port);
    RoutesPointAtListener(bind.listeners[l], b, l, bind.port);
  }

  lemma ListedRouteBelongs(doc: Document, s: RouteSetting) returns (at: ListenerAt)
    requires Decodes(doc) && s in Show(doc).value.routes
    ensures HasListener(doc, at) && s.listenerId == ListenerId(at.bind, at.listener)
  {
    var blocks := AllRouteBlocks(doc.binds);
    FlattenHolds(blocks, s);
    var b: nat :| b < |blocks| && s in blocks[b];
    assert doc.binds[b] in doc.binds;
    assert blocks[b] == Flatten(RouteBlocks(doc.binds[b], b));
    var l := ListedInBlock(doc.binds[b], b, s);
    at := ListenerAt(b, l);
  }
}
