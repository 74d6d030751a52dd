/** The traffic document as the gateway client holds it: listed, searched and changed in place, and written back.
    Each method refines its function on document values. */
module TrafficDocument {
  import opened Text
  import opened JsonTrees
  import opened Paths
  import opened TrafficModel
  import opened TrafficListing
  import opened GatewayReplies

  // ---- Listing ----

  lemma {:induction false} FlattenAppends<T>(blocks: seq<seq<T>>, block: seq<T>)
    ensures Flatten(blocks + [block]) == Flatten(blocks) + block
  {
    if blocks == [] {
      assert [] + [block] == [block] && [block][1..] == [];
    } else {
      FlattenAppends(blocks[1..], block);
      assert (blocks + [block])[1..] == blocks[1..] + [block];
      assert blocks[0] + (Flatten(blocks[1..]) + block) == (blocks[0] + Flatten(blocks[1..])) + block;
    }
  }

  lemma {:induction false} TotalsAppend(settings: seq<ListenerSetting>, s: ListenerSetting)
    ensures RouteTotal(settings + [s]) == RouteTotal(settings) + s.routeCount
    ensures BackendTotal(settings + [s]) == BackendTotal(settings) + s.backendCount
  {
    if settings == [] {
      assert [] + [s] == [s];
    } else {
      TotalsAppend(settings[1..], s);
      assert (settings + [s])[1..] == settings[1..] + [s];
    }
  }

  lemma {:induction false} BackendsAppend(routes: seq<Json>, r: Json)
    requires RouteDecodes(r) && forall raw :: raw in routes ==> RouteDecodes(raw)
    ensures BackendCount(routes + [r]) == BackendCount(routes) + |Backends(r)|
  {
    if routes == [] {
      assert [] + [r] == [r];
    } else {
      BackendsAppend(routes[1..], r);
      assert (routes + [r])[1..] == routes[1..] + [r];
    }
  }

  /** One group of routes, with the number of backends they name; None at the first that does not decode. */
  method ListGroup(routes: seq<Json>, b: nat, l: nat, port: int, name: string, kind: Kind)
    returns (r: Option<(seq<RouteSetting>, nat)>)
    ensures r.Some? <==> RoutesDecode(routes)
    ensures r.Some? ==> r.value == (ShowGroup(routes, b, l, port, name, kind), BackendCount(routes))
  {
    var shown, backends := [], 0;
    for i := 0 to |routes|
      invariant RoutesDecode(routes[..i])
      invariant shown == ShowGroup(routes[..i], b, l, port, name, kind) && backends == BackendCount(routes[..i])
    {
      assert routes[i] in routes;
      if !RouteDecodes(routes[i]) {
        return None;
      }
      BackendsAppend(routes[..i], routes[i]);
      assert routes[..i + 1] == routes[..i] + [routes[i]];
      shown := shown + [ShowRoute(routes[i], b, l, port, name, kind, i)];
      backends := backends + |Backends(routes[i])|;
    }
    assert routes[..|routes|] == routes;
    r := Some((shown, backends));
  }

  method ListListener(raw: Json, b: nat, l: nat, port: int) returns (r: Option<(ListenerSetting, seq<RouteSetting>)>)
    ensures r.Some? <==> ListenerDecodes(raw)
    ensures r.Some? ==> r.value == (ShowListener(raw, b, l, port), ShowRoutes(raw, b, l, port))
  {
    var decoded := DecodeListener(raw);
    if decoded.None? {
      return None;
    }
    var listener := decoded.value;
    var name := DisplayName(listener, l);
    var http := ListGroup(listener.routes, b, l, port, name, Http);
    if http.None? {
      return None;
    }
    var tcp := ListGroup(listener.tcpRoutes, b, l, port, name, Tcp);
    if tcp.None? {
      return None;
    }
    var setting := ListenerSetting(
      ListenerId(b, l), BindId(b), port, name, StringOr(Field(listener.fields, "hostname"), ""), listener.protocol,
      |listener.routes| + |listener.tcpRoutes|, http.value.1 + tcp.value.1, listener.fields);
    r := Some((setting, http.value.0 + tcp.value.0));
  }

  lemma ShownListenersAppend(listeners: seq<Json>, raw: Json, b: nat, port: int)
    requires ListenerDecodes(raw) && forall l :: l in listeners ==> ListenerDecodes(l)
    ensures ShowListeners(listeners + [raw], b, port) ==
            ShowListeners(listeners, b, port) + [ShowListener(raw, b, |listeners|, port)]
  {
    var all := listeners + [raw];
    var left, right := ShowListeners(all, b, port), ShowListeners(listeners, b, port) + [ShowListener(raw, b, |listeners|, port)];
    forall l | 0 <= l < |all| ensures left[l] == right[l] {
      assert all[l] in all && all[l] == if l < |listeners| then listeners[l] else raw;
    }
  }

  lemma RouteBlocksAppend(listeners: seq<Json>, raw: Json, b: nat, port: int)
    requires ListenerDecodes(raw) && forall l :: l in listeners ==> ListenerDecodes(l)
    ensures RouteBlocksOf(listeners + [raw], b, port) ==
            RouteBlocksOf(listeners, b, port) + [ShowRoutes(raw, b, |listeners|, port)]
  {
    var all := listeners + [raw];
    var left, right := RouteBlocksOf(all, b, port), RouteBlocksOf(listeners, b, port) + [ShowRoutes(raw, b, |listeners|, port)];
    forall l | 0 <= l < |all| ensures left[l] == right[l] {
      assert all[l] in all && all[l] == if l < |listeners| then listeners[l] else raw;
    }
  }

  datatype BindListing = BindListing(bind: BindSetting, listeners: seq<ListenerSetting>, routes: seq<RouteSetting>)

  /** What a scan of some listeners has gathered. */
  datatype Gathered = Gathered(listeners: seq<ListenerSetting>, routes: seq<RouteSetting>, routeCount: nat, backendCount: nat)

  predicate AllListenersDecode(listeners: seq<Json>) {
    forall l :: l in listeners ==> ListenerDecodes(l)
  }

  function Gather(listeners: seq<Json>, b: nat, port: int): Gathered
    requires AllListenersDecode(listeners)
  {
    var shown := ShowListeners(listeners, b, port);
    Gathered(shown, Flatten(RouteBlocksOf(listeners, b, port)), RouteTotal(shown), BackendTotal(shown))
  }

  lemma GatherNext(listeners: seq<Json>, raw: Json, b: nat, port: int)
    requires ListenerDecodes(raw) && AllListenersDecode(listeners)
    ensures AllListenersDecode(listeners + [raw])
    ensures var g, s := Gather(listeners, b, port), ShowListener(raw, b, |listeners|, port);
            Gather(listeners + [raw], b, port) ==
            Gathered(g.listeners + [s], g.routes + ShowRoutes(raw, b, |listeners|, port),
                     g.routeCount + s.routeCount, g.backendCount + s.backendCount)
  {
    ShownListenersAppend(listeners, raw, b, port);
    RouteBlocksAppend(listeners, raw, b, port);
    FlattenAppends(RouteBlocksOf(listeners, b, port), ShowRoutes(raw, b, |listeners|, port));
    TotalsAppend(ShowListeners(listeners, b, port), ShowListener(raw, b, |listeners|, port));
  }

  method GatherListeners(listeners: seq<Json>, b: nat, port: int) returns (r: Option<Gathered>)
    ensures r.Some? <==> AllListenersDecode(listeners)
    ensures r.Some? ==> r.value == Gather(listeners, b, port)
  {
    var g := Gathered([], [], 0, 0);
    for l := 0 to |listeners|
      invariant AllListenersDecode(listeners[..l]) && g == Gather(listeners[..l], b, port)
    {
      var shown := ListListener(listeners[l], b, l, port);
      if shown.None? {
        assert listeners[l] in listeners;
        return None;
      }
      GatherNext(listeners[..l], listeners[l], b, port);
      assert listeners[..l + 1] == listeners[..l] + [listeners[l]];
      var (setting, routes) := shown.value;
      g := Gathered(g.listeners + [setting], g.routes + routes, g.routeCount + setting.routeCount,
                    g.backendCount + setting.backendCount);
    }
    assert listeners[..|listeners|] == listeners;
    r := Some(g);
  }

  method ListBind(raw: Json, b: nat) returns (r: Option<BindListing>)
    ensures r.Some? <==> BindDecodes(raw)
    ensures r.Some? ==> r.value == BindListing(ShowBind(raw, b), ListenerBlock(raw, b), Flatten(RouteBlocks(raw, b)))
  {
    var decoded := DecodeBind(raw);
    if decoded.None? {
      return None;
    }
    var bind := decoded.value;
    var gathered := GatherListeners(bind.listeners, b, bind.port);
    if gathered.None? {
      return None;
    }
    var g := gathered.value;
    var setting := BindSetting(
      BindId(b), bind.port, StringOr(Field(bind.fields, "tunnelProtocol"), "direct"), |bind.listeners|,
      g.routeCount, g.backendCount);
    r := Some(BindListing(setting, g.listeners, g.routes));
  }

  predicate AllBindsDecode(binds: seq<Json>) {
    forall b :: b in binds ==> BindDecodes(b)
  }

  function Listing(binds: seq<Json>): Configuration
    requires AllBindsDecode(binds)
  {
    Configuration(ShowBinds(binds), Flatten(ListenerBlocks(binds)), Flatten(AllRouteBlocks(binds)))
  }

  lemma ListingNext(binds: seq<Json>, raw: Json)
    requires BindDecodes(raw) && AllBindsDecode(binds)
    ensures AllBindsDecode(binds + [raw])
    ensures Listing(binds + [raw]) ==
            Configuration(Listing(binds).binds + [ShowBind(raw, |binds|)],
                          Listing(binds).listeners + ListenerBlock(raw, |binds|),
                          Listing(binds).routes + Flatten(RouteBlocks(raw, |binds|)))
  {
    BindsAppend(binds, raw);
    FlattenAppends(ListenerBlocks(binds), ListenerBlock(raw, |binds|));
    FlattenAppends(AllRouteBlocks(binds), Flatten(RouteBlocks(raw, |binds|)));
  }

  lemma BindsAppend(binds: seq<Json>, raw: Json)
    requires BindDecodes(raw) && AllBindsDecode(binds)
    ensures AllBindsDecode(binds + [raw])
    ensures ShowBinds(binds + [raw]) == ShowBinds(binds) + [ShowBind(raw, |binds|)]
    ensures ListenerBlocks(binds + [raw]) == ListenerBlocks(binds) + [ListenerBlock(raw, |binds|)]
    ensures AllRouteBlocks(binds + [raw]) == AllRouteBlocks(binds) + [Flatten(RouteBlocks(raw, |binds|))]
  {
    var after := binds + [raw];
    assert forall b :: 0 <= b < |binds| ==> after[b] == binds[b] && binds[b] in binds;
    assert after[|binds|] == raw;
  }

  class ConfigDocument {
    const root: Fields
    var binds: seq<Json>

    constructor (doc: Document)
      ensures Contents() == doc
    {
      root, binds := doc.root, doc.binds;
    }

    function Contents(): Document
      reads this
    {
      Document(root, binds)
    }

    /** configuration(): one pass over the binds, counting as it goes. */
    method List() returns (c: Option<Configuration>)
      ensures c == Show(Contents())
    {
      var listing := Configuration([], [], []);
      for b := 0 to |binds|
        invariant AllBindsDecode(binds[..b]) && listing == Listing(binds[..b])
      {
        var listed := ListBind(binds[b], b);
        if listed.None? {
          assert binds[b] in binds;
          return None;
        }
        ListingNext(binds[..b], binds[b]);
        assert binds[..b + 1] == binds[..b] + [binds[b]];
        listing := Configuration(
          listing.binds + [listed.value.bind], listing.listeners + listed.value.listeners,
          listing.routes + listed.value.routes);
      }
      assert binds[..|binds|] == binds;
      c := Some(listing);
    }

    method PortTaken(port: int, except: int) returns (taken: bool)
      ensures taken == PortExists(Contents(), port, except)
    {
      for i := 0 to |binds|
        invariant forall k :: 0 <= k < i && k != except && DecodeBind(binds[k]).Some? ==> DecodeBind(binds[k]).value.port != port
      {
        if i != except && DecodeBind(binds[i]).Some? && DecodeBind(binds[i]).value.port == port {
          return true;
        }
      }
      taken := false;
    }

    method BindById(id: string) returns (r: Result<nat, Error>)
      ensures r == FindBind(Contents(), id, 0)
    {
      for b := 0 to |binds|
        invariant FindBind(Contents(), id, 0) == FindBind(Contents(), id, b)
      {
        if DecodeBind(binds[b]).None? {
          return Err(Contract);
        }
        if BindId(b) == id {
          return Ok(b);
        }
      }
      r := Err(NotFound);
    }

    method ListenerById(id: string) returns (r: Result<ListenerAt, Error>)
      ensures r == FindListener(Contents(), id, 0)
    {
      for b := 0 to |binds|
        invariant FindListener(Contents(), id, 0) == FindListener(Contents(), id, b)
      {
        var bind := DecodeBind(binds[b]);
        if bind.None? {
          return Err(Contract);
        }
        var listeners := bind.value.listeners;
        for l := 0 to |listeners|
          invariant Find(id, ListenerIds(b), 0, |listeners|) == Find(id, ListenerIds(b), l, |listeners|)
        {
          if ListenerId(b, l) == id {
            if DecodeListener(listeners[l]).None? {
              return Err(Contract);
            }
            return Ok(ListenerAt(b, l));
          }
        }
      }
      r := Err(NotFound);
    }

    /** The scan of one listener's two groups. */
    static method RouteInListenerById(id: string, at: ListenerAt, listener: Listener) returns (r: Option<(Kind, nat)>)
      ensures r == FindInListener(id, at, listener)
    {
      for i := 0 to |listener.routes|
        invariant Find(id, RouteIds(at, Http), 0, |listener.routes|) == Find(id, RouteIds(at, Http), i, |listener.routes|)
      {
        if RouteId(at.bind, at.listener, Http, i) == id {
          return Some((Http, i));
        }
      }
      for i := 0 to |listener.tcpRoutes|
        invariant Find(id, RouteIds(at, Tcp), 0, |listener.tcpRoutes|) == Find(id, RouteIds(at, Tcp), i, |listener.tcpRoutes|)
      {
        if RouteId(at.bind, at.listener, Tcp, i) == id {
          return Some((Tcp, i));
        }
      }
      r := None;
    }

    method RouteById(id: string) returns (r: Result<RouteAt, Error>)
      ensures r == FindRoute(Contents(), id, 0)
    {
      for b := 0 to |binds|
        invariant FindRoute(Contents(), id, 0) == FindRoute(Contents(), id, b)
      {
        var bind := DecodeBind(binds[b]);
        if bind.None? {
          return Err(Contract);
        }
        var listeners := bind.value.listeners;
        for l := 0 to |listeners|
          invariant FindInBind(listeners, id, b, 0) == FindInBind(listeners, id, b, l)
        {
          var listener := DecodeListener(listeners[l]);
          if listener.None? {
            return Err(Contract);
          }
          var found := RouteInListenerById(id, ListenerAt(b, l), listener.value);
          if found.Some? {
            if !RoutesOf(listener.value, found.value.0)[found.value.1].Obj? {
              return Err(Contract);
            }
            return Ok(RouteAt(ListenerAt(b, l), found.value.0, found.value.1));
          }
        }
      }
      r := Err(NotFound);
    }

    method Store(b: nat, listeners: seq<Json>)
      requires b < |binds| && DecodeBind(binds[b]).Some?
      modifies this`binds
      ensures Contents() == StoreListeners(old(Contents()), b, listeners)
    {
      binds := binds[b := Obj(DecodeBind(binds[b]).value.fields["listeners" := Arr(listeners)])];
    }

    method StoreRoutesAt(at: ListenerAt, kind: Kind, routes: seq<Json>)
      requires HasListener(Contents(), at)
      modifies this`binds
      ensures Contents() == StoreRoutes(old(Contents()), at, kind, routes)
    {
      var listeners := DecodeBind(binds[at.bind]).value.listeners;
      var listener := DecodeListener(listeners[at.listener]).value.fields;
      listener := listener[RouteKey(kind) := Arr(routes)];
      Store(at.bind, listeners[at.listener := Obj(listener)]);
    }

    method ChangeBind(change: Change) returns (e: Option<Error>)
      requires change.CreateBind? || change.UpdateBind? || change.DeleteBind?
      modifies this`binds
      ensures match Apply(old(Contents()), change)
              case Ok(after) => e.None? && Contents() == after
              case Err(error) => e == Some(error) && Contents() == old(Contents())
    {
      match change
      case CreateBind(port) =>
        if !ValidPort(port) {
          return Some(InvalidRequest);
        }
        var taken := PortTaken(port, -1);
        if taken {
          return Some(Conflict);
        }
        binds := binds + [Obj(map["port" := Int(port), "listeners" := Arr([])])];
        e := None;
      case UpdateBind(id, port) =>
        if !ValidPort(port) {
          return Some(InvalidRequest);
        }
        var found := BindById(id);
        if found.Err? {
          return Some(found.error);
        }
        var taken := PortTaken(port, found.value);
        if taken {
          return Some(Conflict);
        }
        var bind := DecodeBind(binds[found.value]).value.fields;
        binds := binds[found.value := Obj(bind["port" := Int(port)])];
        e := None;
      case DeleteBind(id, deleteChildren) =>
        var found := BindById(id);
        if found.Err? {
          return Some(found.error);
        }
        if |DecodeBind(binds[found.value]).value.listeners| > 0 && !deleteChildren {
          return Some(Referenced);
        }
        binds := binds[..found.value] + binds[found.value + 1..];
        e := None;
    }

    method AddListener(bindId: string, configuration: Fields) returns (e: Option<Error>)
      modifies this`binds
      ensures match ApplyCreateListener(old(Contents()), bindId, configuration)
              case Ok(after) => e.None? && Contents() == after
              case Err(error) => e == Some(error) && Contents() == old(Contents())
    {
      var found := BindById(bindId);
      if found.Err? {
        return Some(found.error);
      }
      var listeners := DecodeBind(binds[found.value]).value.listeners;
      match EncodeListener(configuration, None)
      case Err(error) => return Some(error);
      case Ok(listener) =>
        var key := RouteKey(RouteKind(ProtocolOf(listener)));
        Store(found.value, listeners + [Obj(listener[key := Arr([])])]);
        return None;
    }

    method ChangeListener(id: string, configuration: Fields, deleteIncompatible: bool) returns (e: Option<Error>)
      modifies this`binds
      ensures match ApplyUpdateListener(old(Contents()), id, configuration, deleteIncompatible)
              case Ok(after) => e.None? && Contents() == after
              case Err(error) => e == Some(error) && Contents() == old(Contents())
    {
      var found := ListenerById(id);
      if found.Err? {
        return Some(found.error);
      }
      var at := found.value;
      var current := ListenerOf(Contents(), at);
      match EncodeListener(configuration, Some(current.fields))
      case Err(error) => return Some(error);
      case Ok(listener) =>
        var kind := RouteKind(ProtocolOf(listener));
        if RouteKind(current.protocol) != kind && HasRoutes(current) && !deleteIncompatible {
          return Some(Referenced);
        }
        var full := Obj(listener[RouteKey(kind) := KeptRoutes(current, kind)]);
        Store(at.bind, BindAt(Contents(), at.bind).listeners[at.listener := full]);
        return None;
    }

    method RemoveListener(id: string, deleteChildren: bool) returns (e: Option<Error>)
      modifies this`binds
      ensures match ApplyDeleteListener(old(Contents()), id, deleteChildren)
              case Ok(after) => e.None? && Contents() == after
              case Err(error) => e == Some(error) && Contents() == old(Contents())
    {
      var found := ListenerById(id);
      if found.Err? {
        return Some(found.error);
      }
      var at := found.value;
      if HasRoutes(ListenerOf(Contents(), at)) && !deleteChildren {
        return Some(Referenced);
      }
      var listeners := DecodeBind(binds[at.bind]).value.listeners;
      Store(at.bind, listeners[..at.listener] + listeners[at.listener + 1..]);
      e := None;
    }

    method AddRoute(listenerId: string, kind: Kind, configuration: Fields) returns (e: Option<Error>)
      modifies this`binds
      ensures match ApplyCreateRoute(old(Contents()), listenerId, kind, configuration)
              case Ok(after) => e.None? && Contents() == after
              case Err(error) => e == Some(error) && Contents() == old(Contents())
    {
      var found := ListenerById(listenerId);
      if found.Err? {
        return Some(found.error);
      }
      var listener := ListenerOf(Contents(), found.value);
      if RouteKind(listener.protocol) != kind {
        return Some(InvalidRequest);
      }
      match EncodeRoute(kind, configuration)
      case Err(error) => return Some(error);
      case Ok(route) =>
        StoreRoutesAt(found.value, kind, RoutesOf(listener, kind) + [Obj(route)]);
        return None;
    }

    method ChangeRoute(id: string, kind: Kind, configuration: Fields) returns (e: Option<Error>)
      modifies this`binds
      ensures match ApplyUpdateRoute(old(Contents()), id, kind, configuration)
              case Ok(after) => e.None? && Contents() == after
              case Err(error) => e == Some(error) && Contents() == old(Contents())
    {
      var found := RouteById(id);
      if found.Err? {
        return Some(found.error);
      }
      var at := found.value;
      if at.kind != kind {
        return Some(InvalidRequest);
      }
      match EncodeRoute(kind, configuration)
      case Err(error) => return Some(error);
      case Ok(route) =>
        StoreRoutesAt(at.at, kind, RoutesOf(ListenerOf(Contents(), at.at), kind)[at.route := Obj(route)]);
        return None;
    }

    method RemoveRoute(id: string) returns (e: Option<Error>)
      modifies this`binds
      ensures match ApplyDeleteRoute(old(Contents()), id)
              case Ok(after) => e.None? && Contents() == after
              case Err(error) => e == Some(error) && Contents() == old(Contents())
    {
      var found := RouteById(id);
      if found.Err? {
        return Some(found.error);
      }
      var at := found.value;
      var routes := RoutesOf(ListenerOf(Contents(), at.at), at.kind);
      StoreRoutesAt(at.at, at.kind, routes[..at.route] + routes[at.route + 1..]);
      e := None;
    }

    method ApplyChange(change: Change) returns (e: Option<Error>)
      modifies this`binds
      ensures match Apply(old(Contents()), change)
              case Ok(after) => e.None? && Contents() == after
              case Err(error) => e == Some(error) && Contents() == old(Contents())
    {
      match change
      case CreateListener(id, configuration) => e := AddListener(id, configuration);
      case UpdateListener(id, configuration, flag) => e := ChangeListener(id, configuration, flag);
      case DeleteListener(id, deleteChildren) => e := RemoveListener(id, deleteChildren);
      case CreateRoute(id, kind, configuration) => e := AddRoute(id, kind, configuration);
      case UpdateRoute(id, kind, configuration) => e := ChangeRoute(id, kind, configuration);
      case DeleteRoute(id) => e := RemoveRoute(id);
      case _ => e := ChangeBind(change);
    }
  }

  // ---- Writing ----

  datatype WriteError = UpstreamFailed | ConfigurationChanged | Refused(reason: Error) | Unverified

  class Client {
    /** What the gateway holds. */
    var remote: Json

    constructor (remote: Json)
      ensures this.remote == remote
    {
      this.remote := remote;
    }

    /** ApplyTrafficChange, with no one else editing meanwhile: a change the document accepts and the gateway
        confirms always passes the comparison of what was sent with what is read back. */
    method ApplyTrafficChange(expected: Json, change: Change, reply: Reply, rereads: bool) returns (e: Option<WriteError>)
      modifies this`remote
      ensures var doc := Decode(old(remote));
              if doc.None? || Encode(doc.value) != expected then
                e == Some(if doc.None? then UpstreamFailed else ConfigurationChanged) && remote == old(remote)
              else
                match Apply(doc.value, change)
                case Err(reason) => e == Some(Refused(reason)) && remote == old(remote)
                case Ok(after) =>
                  && remote == (if reply == Unconfirmed(false) then old(remote) else Encode(after))
                  && e == if !reply.Confirmed? then Some(UpstreamFailed) else if rereads then None else Some(Unverified)
    {
      var doc := Decode(remote);
      if doc.None? {
        return Some(UpstreamFailed);
      }
      if Encode(doc.value) != expected {
        return Some(ConfigurationChanged);
      }
      var editable := new ConfigDocument(doc.value);
      var refused := editable.ApplyChange(change);
      if refused.Some? {
        return Some(Refused(refused.value));
      }
      var sent := Encode(editable.Contents());
      EncodeThenDecode(editable.Contents());
      if reply.Confirmed? || reply.stored {
        remote := sent;
      }
      if !reply.Confirmed? {
        return Some(UpstreamFailed);
      }
      var again := if rereads then Decode(remote) else None;
      if again.None? || Encode(again.value) != sent {
        return Some(Unverified);
      }
      e := None;
    }
  }
}
