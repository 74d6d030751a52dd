/** The traffic section of the gateway configuration: binds, their listeners, their routes; how they are decoded,
    listed, found by position ID and changed. */
module TrafficModel {
  import opened Text
  import opened JsonTrees
  import opened Decimal
  import opened Paths
  import opened Collections

  datatype Error = InvalidRequest | NotFound | Conflict | Referenced | Contract

  datatype Document = Document(root: Fields, binds: seq<Json>)

  datatype Bind = Bind(fields: Fields, listeners: seq<Json>, port: int)

  datatype Listener = Listener(fields: Fields, routes: seq<Json>, tcpRoutes: seq<Json>, protocol: string)

  datatype Kind = Http | Tcp

  // ---- Decoding ----

  predicate ValidPort(port: int) {
    1 <= port <= 65535
  }

  function DecodeBind(raw: Json): Option<Bind> {
    match raw
    case Obj(f) =>
      (match (Field(f, "port"), AsArray(Field(f, "listeners")))
       case (Some(Int(port)), Some(listeners)) => if ValidPort(port) then Some(Bind(f, listeners, port)) else None
       case _ => None)
    case _ => None
  }

  predicate ValidProtocol(protocol: string) {
    protocol in ["HTTP", "HTTPS", "TLS", "TCP", "HBONE"]
  }

  /** listenerRouteKind. */
  function RouteKind(protocol: string): Kind {
    if protocol == "TCP" || protocol == "TLS" then Tcp else Http
  }

  function RouteKey(kind: Kind): string {
    match kind case Http => "routes" case Tcp => "tcpRoutes"
  }

  function ProtocolOf(f: Fields): string {
    StringOr(Field(f, "protocol"), "HTTP")
  }

  function DecodeListener(raw: Json): Option<Listener> {
    match raw
    case Obj(f) =>
      var routes, tcpRoutes := AsArray(Field(f, "routes")), AsArray(Field(f, "tcpRoutes"));
      if !ValidProtocol(ProtocolOf(f)) || routes.None? || tcpRoutes.None? then None
      else Some(Listener(f, routes.value, tcpRoutes.value, ProtocolOf(f)))
    case _ => None
  }

  function RoutesOf(l: Listener, kind: Kind): seq<Json> {
    match kind case Http => l.routes case Tcp => l.tcpRoutes
  }

  /** A Go []string: each item a string, or null for the empty one. */
  function AsStrings(items: seq<Json>): Option<seq<string>> {
    if items == [] then Some([])
    else
      match (AsString(Some(items[0])), AsStrings(items[1..]))
      case (Some(s), Some(rest)) => Some([s] + rest)
      case _ => None
  }

  function HostnamesOf(f: Fields): Option<seq<string>> {
    match AsArray(Field(f, "hostnames")) case None => None case Some(items) => AsStrings(items)
  }

  predicate RouteDecodes(raw: Json) {
    raw.Obj? && HostnamesOf(raw.fields).Some? && AsArray(Field(raw.fields, "backends")).Some?
  }

  predicate RoutesDecode(routes: seq<Json>) {
    forall r :: r in routes ==> RouteDecodes(r)
  }

  predicate ListenerDecodes(raw: Json) {
    var l := DecodeListener(raw);
    l.Some? && RoutesDecode(l.value.routes) && RoutesDecode(l.value.tcpRoutes)
  }

  predicate BindDecodes(raw: Json) {
    var b := DecodeBind(raw);
    b.Some? && forall l :: l in b.value.listeners ==> ListenerDecodes(l)
  }

  predicate Decodes(doc: Document) {
    forall b :: b in doc.binds ==> BindDecodes(b)
  }

  function Decode(payload: Json): Option<Document> {
    match payload
    case Obj(root) =>
      (match AsArray(Field(root, "binds")) case None => None case Some(binds) => Some(Document(root, binds)))
    case _ => None
  }

  function Encode(doc: Document): Json {
    Obj(doc.root["binds" := Arr(doc.binds)])
  }

  /** What a write posts is what a read of it re-encodes, so the byte comparison after a write can only fail when
      something else was stored. */
  lemma EncodeThenDecode(doc: Document)
    ensures var back := Decode(Encode(doc));
            back.Some? && back.value.binds == doc.binds && Encode(back.value) == Encode(doc)
  {
    var back := Decode(Encode(doc)).value;
    assert back.root["binds" := Arr(doc.binds)] == back.root;
  }

  // ---- Position IDs ----

  function BindPath(b: nat): seq<string> {
    ["binds", Digits(b)]
  }

  function ListenerPath(b: nat, l: nat): seq<string> {
    BindPath(b) + ["listeners", Digits(l)]
  }

  function RoutePath(b: nat, l: nat, kind: Kind, r: nat): seq<string> {
    ListenerPath(b, l) + [RouteKey(kind), Digits(r)]
  }

  function BindId(b: nat): string { PathId(BindPath(b)) }

  function ListenerId(b: nat, l: nat): string { PathId(ListenerPath(b, l)) }

  function RouteId(b: nat, l: nat, kind: Kind, r: nat): string { PathId(RoutePath(b, l, kind, r)) }

  /** The IDs of the listeners of a bind, and of one group of routes of a listener, by index. */
  function ListenerIds(b: nat): nat -> string { (l: nat) => ListenerId(b, l) }

  function RouteIds(at: ListenerAt, kind: Kind): nat -> string {
    (r: nat) => RouteId(at.bind, at.listener, kind, r)
  }

  // ---- Lookups ----

  datatype ListenerAt = ListenerAt(bind: nat, listener: nat)

  datatype RouteAt = RouteAt(at: ListenerAt, kind: Kind, route: nat)

  /** bindByID from bind `from` on: every bind passed over must decode. */
  function FindBind(doc: Document, id: string, from: nat): (r: Result<nat, Error>)
    ensures r.Ok? ==> from <= r.value < |doc.binds| && DecodeBind(doc.binds[r.value]).Some?
    decreases |doc.binds| - from
  {
    if from >= |doc.binds| then Err(NotFound)
    else if DecodeBind(doc.binds[from]).None? then Err(Contract)
    else if BindId(from) == id then Ok(from)
    else FindBind(doc, id, from + 1)
  }

  function BindAt(doc: Document, b: nat): Bind
    requires b < |doc.binds| && DecodeBind(doc.binds[b]).Some?
  {
    DecodeBind(doc.binds[b]).value
  }

  /** A listener position that exists and decodes. */
  predicate HasListener(doc: Document, at: ListenerAt) {
    && at.bind < |doc.binds| && DecodeBind(doc.binds[at.bind]).Some?
    && at.listener < |BindAt(doc, at.bind).listeners|
    && DecodeListener(BindAt(doc, at.bind).listeners[at.listener]).Some?
  }

  function ListenerOf(doc: Document, at: ListenerAt): Listener
    requires HasListener(doc, at)
  {
    DecodeListener(BindAt(doc, at.bind).listeners[at.listener]).value
  }

  predicate HasRoute(doc: Document, at: RouteAt) {
    && HasListener(doc, at.at) && at.route < |RoutesOf(ListenerOf(doc, at.at), at.kind)|
    && RoutesOf(ListenerOf(doc, at.at), at.kind)[at.route].Obj?
  }

  function RouteOf(doc: Document, at: RouteAt): Fields
    requires HasRoute(doc, at)
  {
    RoutesOf(ListenerOf(doc, at.at), at.kind)[at.route].fields
  }

  /** listenerByID: only the listener whose ID matches is decoded. */
  function FindListener(doc: Document, id: string, from: nat): (r: Result<ListenerAt, Error>)
    ensures r.Ok? ==> from <= r.value.bind && HasListener(doc, r.value)
    decreases |doc.binds| - from
  {
    if from >= |doc.binds| then Err(NotFound)
    else if DecodeBind(doc.binds[from]).None? then Err(Contract)
    else
      var listeners := BindAt(doc, from).listeners;
      match Find(id, ListenerIds(from), 0, |listeners|)
      case Some(l) => if DecodeListener(listeners[l]).None? then Err(Contract) else Ok(ListenerAt(from, l))
      case None => FindListener(doc, id, from + 1)
  }

  /** The groups of one listener, http before tcp. */
  function FindInListener(id: string, at: ListenerAt, listener: Listener): (r: Option<(Kind, nat)>)
    ensures r.Some? ==> r.value.1 < |RoutesOf(listener, r.value.0)|
  {
    match Find(id, RouteIds(at, Http), 0, |listener.routes|)
    case Some(r) => Some((Http, r))
    case None =>
      match Find(id, RouteIds(at, Tcp), 0, |listener.tcpRoutes|)
      case Some(r) => Some((Tcp, r))
      case None => None
  }

  /** routeByID within bind `b`, from listener `from` on; None when no route there has the ID. */
  function FindInBind(listeners: seq<Json>, id: string, b: nat, from: nat): (r: Result<Option<RouteAt>, Error>)
    ensures r.Ok? && r.value.Some? ==>
              var at := r.value.value;
              && at.at.bind == b && at.at.listener < |listeners| && DecodeListener(listeners[at.at.listener]).Some?
              && at.route < |RoutesOf(DecodeListener(listeners[at.at.listener]).value, at.kind)|
              && RoutesOf(DecodeListener(listeners[at.at.listener]).value, at.kind)[at.route].Obj?
    decreases |listeners| - from
  {
    if from >= |listeners| then Ok(None)
    else
      match DecodeListener(listeners[from])
      case None => Err(Contract)
      case Some(listener) =>
        match FindInListener(id, ListenerAt(b, from), listener)
        case None => FindInBind(listeners, id, b, from + 1)
        case Some(found) =>
          if RoutesOf(listener, found.0)[found.1].Obj? then Ok(Some(RouteAt(ListenerAt(b, from), found.0, found.1)))
          else Err(Contract)
  }

  function FindRoute(doc: Document, id: string, from: nat): (r: Result<RouteAt, Error>)
    ensures r.Ok? ==> HasRoute(doc, r.value)
    decreases |doc.binds| - from
  {
    if from >= |doc.binds| then Err(NotFound)
    else if DecodeBind(doc.binds[from]).None? then Err(Contract)
    else
      match FindInBind(BindAt(doc, from).listeners, id, from, 0)
      case Err(e) => Err(e)
      case Ok(Some(at)) => Ok(at)
      case Ok(None) => FindRoute(doc, id, from + 1)
  }

  // ---- Drafts ----

  /** encodeListenerDraft; `current` is absent for a new listener. */
  function EncodeListener(configuration: Fields, current: Option<Fields>): Result<Fields, Error> {
    if configuration == map[] || !(forall key :: key in configuration ==> ListenerField(key)) then Err(InvalidRequest)
    else
      var bare := configuration - {"routes", "tcpRoutes"};
      if !ValidProtocol(ProtocolOf(bare)) then Err(InvalidRequest)
      else
        var named := if "protocol" in bare then bare else bare["protocol" := Str(ProtocolOf(bare))];
        Ok(if current.Some? && "namespace" !in named && "namespace" in current.value
           then named["namespace" := current.value["namespace"]] else named)
  }

  predicate ListenerField(key: string) {
    key in ["name", "namespace", "hostname", "protocol", "tls", "routes", "tcpRoutes", "policies"]
  }

  predicate RouteField(key: string) {
    key in ["name", "namespace", "ruleName", "hostnames", "matches", "policies", "backends"]
  }

  /** A Go []map: each item an object, or null. */
  predicate ObjectArray(raw: Raw) {
    AsArray(raw).Some? && forall item :: item in AsArray(raw).value ==> item == Null || item.Obj?
  }

  const CATCH_ALL := Arr([Obj(map["path" := Obj(map["pathPrefix" := Str("/")])])])

  /** encodeRouteDraft. */
  function EncodeRoute(kind: Kind, configuration: Fields): Result<Fields, Error> {
    if configuration == map[] || !(forall key :: key in configuration ==> RouteField(key)) then Err(InvalidRequest)
    else if kind == Tcp && "matches" in configuration then Err(InvalidRequest)
    else
      var route :=
        if kind == Http && "matches" !in configuration then configuration["matches" := CATCH_ALL] else configuration;
      if HostnamesOf(route).None? || !ObjectArray(Field(route, "backends")) then Err(InvalidRequest)
      else if kind == Http && !ObjectArray(Field(route, "matches")) then Err(InvalidRequest)
      else Ok(route)
  }

  // ---- Changes ----

  datatype Change =
    | CreateBind(port: int)
    | UpdateBind(id: string, port: int)
    | DeleteBind(id: string, deleteChildren: bool)
    | CreateListener(bindId: string, configuration: Fields)
    | UpdateListener(id: string, configuration: Fields, deleteIncompatible: bool)
    | DeleteListener(id: string, deleteChildren: bool)
    | CreateRoute(listenerId: string, kind: Kind, configuration: Fields)
    | UpdateRoute(id: string, kind: Kind, configuration: Fields)
    | DeleteRoute(id: string)

  predicate PortExists(doc: Document, port: int, except: int) {
    exists i :: 0 <= i < |doc.binds| && i != except
                && DecodeBind(doc.binds[i]).Some? && DecodeBind(doc.binds[i]).value.port == port
  }

  /** storeListeners. */
  function StoreListeners(doc: Document, b: nat, listeners: seq<Json>): Document
    requires b < |doc.binds| && DecodeBind(doc.binds[b]).Some?
  {
    doc.(binds := doc.binds[b := Obj(BindAt(doc, b).fields["listeners" := Arr(listeners)])])
  }

  function StoreListener(doc: Document, at: ListenerAt, listener: Fields): Document
    requires HasListener(doc, at)
  {
    StoreListeners(doc, at.bind, BindAt(doc, at.bind).listeners[at.listener := Obj(listener)])
  }

  function StoreRoutes(doc: Document, at: ListenerAt, kind: Kind, routes: seq<Json>): Document
    requires HasListener(doc, at)
  {
    StoreListener(doc, at, ListenerOf(doc, at).fields[RouteKey(kind) := Arr(routes)])
  }

  predicate HasRoutes(l: Listener) {
    |l.routes| + |l.tcpRoutes| > 0
  }

  function ApplyDeleteBind(doc: Document, id: string, deleteChildren: bool): Result<Document, Error> {
    match FindBind(doc, id, 0)
    case Err(e) => Err(e)
    case Ok(b) =>
      if |BindAt(doc, b).listeners| > 0 && !deleteChildren then Err(Referenced)
      else Ok(doc.(binds := Without(doc.binds, b)))
  }

  function ApplyUpdateBind(doc: Document, id: string, port: int): Result<Document, Error> {
    if !ValidPort(port) then Err(InvalidRequest)
    else
      match FindBind(doc, id, 0)
      case Err(e) => Err(e)
      case Ok(b) =>
        if PortExists(doc, port, b) then Err(Conflict)
        else Ok(doc.(binds := doc.binds[b := Obj(BindAt(doc, b).fields["port" := Int(port)])]))
  }

  function ApplyCreateListener(doc: Document, bindId: string, configuration: Fields): Result<Document, Error> {
    match FindBind(doc, bindId, 0)
    case Err(e) => Err(e)
    case Ok(b) =>
      match EncodeListener(configuration, None)
      case Err(e) => Err(e)
      case Ok(listener) =>
        var full := listener[RouteKey(RouteKind(ProtocolOf(listener))) := Arr([])];
        Ok(StoreListeners(doc, b, BindAt(doc, b).listeners + [Obj(full)]))
  }

  /** The routes an updated listener keeps: a nil slice, printed null, once the kinds differ. */
  function KeptRoutes(current: Listener, kind: Kind): Json {
    if RouteKind(current.protocol) != kind then Null else Arr(RoutesOf(current, kind))
  }

  function ApplyUpdateListener(doc: Document, id: string, configuration: Fields, deleteIncompatible: bool)
    : Result<Document, Error>
  {
    match FindListener(doc, id, 0)
    case Err(e) => Err(e)
    case Ok(at) =>
      var current := ListenerOf(doc, at);
      match EncodeListener(configuration, Some(current.fields))
      case Err(e) => Err(e)
      case Ok(listener) =>
        var kind := RouteKind(ProtocolOf(listener));
        if RouteKind(current.protocol) != kind && HasRoutes(current) && !deleteIncompatible then Err(Referenced)
        else Ok(StoreListener(doc, at, listener[RouteKey(kind) := KeptRoutes(current, kind)]))
  }

  function ApplyDeleteListener(doc: Document, id: string, deleteChildren: bool): Result<Document, Error> {
    match FindListener(doc, id, 0)
    case Err(e) => Err(e)
    case Ok(at) =>
      if HasRoutes(ListenerOf(doc, at)) && !deleteChildren then Err(Referenced)
      else Ok(StoreListeners(doc, at.bind, Without(BindAt(doc, at.bind).listeners, at.listener)))
  }

  function ApplyCreateRoute(doc: Document, listenerId: string, kind: Kind, configuration: Fields)
    : Result<Document, Error>
  {
    match FindListener(doc, listenerId, 0)
    case Err(e) => Err(e)
    case Ok(at) =>
      if RouteKind(ListenerOf(doc, at).protocol) != kind then Err(InvalidRequest)
      else
        match EncodeRoute(kind, configuration)
        case Err(e) => Err(e)
        case Ok(route) => Ok(StoreRoutes(doc, at, kind, RoutesOf(ListenerOf(doc, at), kind) + [Obj(route)]))
  }

  function ApplyUpdateRoute(doc: Document, id: string, kind: Kind, configuration: Fields): Result<Document, Error> {
    match FindRoute(doc, id, 0)
    case Err(e) => Err(e)
    case Ok(at) =>
      if at.kind != kind then Err(InvalidRequest)
      else
        match EncodeRoute(kind, configuration)
        case Err(e) => Err(e)
        case Ok(route) =>
          Ok(StoreRoutes(doc, at.at, kind, RoutesOf(ListenerOf(doc, at.at), kind)[at.route := Obj(route)]))
  }

  function ApplyDeleteRoute(doc: Document, id: string): Result<Document, Error> {
    match FindRoute(doc, id, 0)
    case Err(e) => Err(e)
    case Ok(at) => Ok(StoreRoutes(doc, at.at, at.kind, Without(RoutesOf(ListenerOf(doc, at.at), at.kind), at.route)))
  }

  function Apply(doc: Document, change: Change): Result<Document, Error> {
    match change
    case CreateBind(port) =>
      if !ValidPort(port) then Err(InvalidRequest)
      else if PortExists(doc, port, -1) then Err(Conflict)
      else Ok(doc.(binds := doc.binds + [Obj(map["port" := Int(port), "listeners" := Arr([])])]))
    case UpdateBind(id, port) => ApplyUpdateBind(doc, id, port)
    case DeleteBind(id, deleteChildren) => ApplyDeleteBind(doc, id, deleteChildren)
    case CreateListener(bindId, configuration) => ApplyCreateListener(doc, bindId, configuration)
    case UpdateListener(id, configuration, deleteIncompatible) =>
      ApplyUpdateListener(doc, id, configuration, deleteIncompatible)
    case DeleteListener(id, deleteChildren) => ApplyDeleteListener(doc, id, deleteChildren)
    case CreateRoute(listenerId, kind, configuration) => ApplyCreateRoute(doc, listenerId, kind, configuration)
    case UpdateRoute(id, kind, configuration) => ApplyUpdateRoute(doc, id, kind, configuration)
    case DeleteRoute(id) => ApplyDeleteRoute(doc, id)
  }
}
