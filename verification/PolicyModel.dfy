/** Gateway policies: where they live in the configuration, which of them may be edited, and how. */
module PolicyModel {
  import opened Text
  import opened JsonTrees
  import opened Decimal
  import opened Paths

  datatype Error = InvalidRequest | NotFound | Contract

  /** A policy of the LLM gateway, of the MCP gateway, or of one direct model. */
  datatype Place = LlmPolicy(key: string) | McpPolicy(key: string) | ModelPolicy(index: nat, key: string)

  const LLM_CATALOG: seq<string> := [
    "cors", "apiKey", "basicAuth", "jwtAuth", "oidc", "authorization", "extAuthz", "guardrails", "localRateLimit",
    "remoteRateLimit", "transformations", "extProc" ]

  const MODEL_CATALOG: seq<string> := [
    "authorization", "defaults", "overrides", "transformation", "requestHeaders", "responseHeaders", "tls",
    "backendTLS", "auth", "health", "backendTunnel", "guardrails", "promptCaching" ]

  const MCP_CATALOG: seq<string> := [
    "mcpAuthentication", "mcpAuthorization", "mcpGuardrails", "authorization", "cors", "extAuthz", "jwtAuth",
    "localRateLimit", "remoteRateLimit", "transformations", "extProc" ]

  predicate Editable(p: Place) {
    match p
    case LlmPolicy(key) => key in LLM_CATALOG
    case McpPolicy(key) => key in MCP_CATALOG
    case ModelPolicy(_, key) => key in MODEL_CATALOG
  }

  /** The slash-separated path a policy's ID encodes; keys are escaped as JSON pointer tokens. */
  function PlacePath(p: Place): seq<string> {
    match p
    case LlmPolicy(key) => ["llm", "policies", EscapePointer(key)]
    case McpPolicy(key) => ["mcp", "policies", EscapePointer(key)]
    case ModelPolicy(index, key) => ["llm", "models", Digits(index), EscapePointer(key)]
  }

  function PlaceId(p: Place): string {
    PathId(PlacePath(p))
  }

  // ---- Reading ----

  /** optionalPolicyObject: absent and null are the same; anything else must be an object. */
  predicate OptionalObject(raw: Raw) {
    raw.None? || raw.value.Null? || raw.value.Obj?
  }

  function FieldsOf(raw: Raw): Fields {
    match raw case Some(Obj(f)) => f case _ => map[]
  }

  function Owner(root: Fields, section: string): Fields {
    FieldsOf(Field(root, section))
  }

  function Policies(root: Fields, section: string): Fields {
    FieldsOf(Field(Owner(root, section), "policies"))
  }

  function Models(root: Fields): seq<Json> {
    match AsArray(Field(Owner(root, "llm"), "models")) case Some(items) => items case None => []
  }

  predicate SectionReadable(root: Fields, section: string) {
    OptionalObject(Field(root, section)) && OptionalObject(Field(Owner(root, section), "policies"))
  }

  predicate ModelReadable(raw: Json) {
    raw.Obj? && Trim(StringOr(Field(raw.fields, "name"), "")) != ""
  }

  /** policyLocations succeeds. */
  predicate Readable(root: Fields) {
    && SectionReadable(root, "llm") && SectionReadable(root, "mcp")
    && AsArray(Field(Owner(root, "llm"), "models")).Some?
    && forall i :: 0 <= i < |Models(root)| ==> ModelReadable(Models(root)[i])
  }

  /** The raw value of a policy. */
  function Get(root: Fields, p: Place): Raw {
    match p
    case LlmPolicy(key) => Field(Policies(root, "llm"), key)
    case McpPolicy(key) => Field(Policies(root, "mcp"), key)
    case ModelPolicy(index, key) =>
      if index < |Models(root)| && Models(root)[index].Obj? then Field(Models(root)[index].fields, key) else None
  }

  /** The listed policies: the catalogues everywhere, and for the two gateways whatever else is configured. */
  predicate Listed(root: Fields, p: Place) {
    match p
    case LlmPolicy(key) => key in LLM_CATALOG || key in Policies(root, "llm")
    case McpPolicy(key) => key in MCP_CATALOG || key in Policies(root, "mcp")
    case ModelPolicy(index, key) => index < |Models(root)| && key in MODEL_CATALOG
  }

  /** policyRawEnabled. */
  predicate Enabled(raw: Raw) {
    match raw
    case None => false
    case Some(Null) => false
    case Some(Arr(items)) => items != []
    case _ => true
  }

  // ---- Writing ----

  /** setGlobalPolicy; the section's own array is made present. */
  function SetGlobal(root: Fields, section: string, list: string, key: string, value: Json): Fields {
    var owner := Owner(root, section);
    var full := if Field(owner, list) in {None, Some(Null)} then owner[list := Arr([])] else owner;
    root[section := Obj(full["policies" := Obj(FieldsOf(Field(full, "policies"))[key := value])])]
  }

  function StorePolicies(root: Fields, section: string, policies: Fields): Fields {
    root[section := Obj(Owner(root, section)["policies" := Obj(policies)])]
  }

  /** Two LLM policies are removed when disabled, the others are set to null. */
  function DisableLlm(root: Fields, key: string): Fields {
    if !Field(root, "llm").Some? || !root["llm"].Obj? || !Field(Owner(root, "llm"), "policies").Some?
       || !Owner(root, "llm")["policies"].Obj? then root
    else
      var policies := Policies(root, "llm");
      StorePolicies(root, "llm",
                    if key == "localRateLimit" || key == "guardrails" then policies - {key} else policies[key := Null])
  }

  function DeleteMcp(root: Fields, key: string): Fields {
    if !Field(root, "mcp").Some? || !root["mcp"].Obj? || !Field(Owner(root, "mcp"), "policies").Some?
       || !Owner(root, "mcp")["policies"].Obj? then root
    else StorePolicies(root, "mcp", Policies(root, "mcp") - {key})
  }

  function StoreModel(root: Fields, index: nat, f: Fields): Fields
    requires index < |Models(root)|
  {
    root["llm" := Obj(Owner(root, "llm")["models" := Arr(Models(root)[index := Obj(f)])])]
  }

  /** The other spelling of backend TLS, which a model may not have as well. */
  function Alias(key: string): Option<string> {
    if key == "tls" then Some("backendTLS") else if key == "backendTLS" then Some("tls") else None
  }

  function Set(root: Fields, p: Place, value: Json): Result<Fields, Error> {
    match p
    case LlmPolicy(key) => Ok(SetGlobal(root, "llm", "models", key, value))
    case McpPolicy(key) => Ok(SetGlobal(root, "mcp", "targets", key, value))
    case ModelPolicy(index, key) =>
      if index >= |Models(root)| then Err(NotFound)
      else if !Models(root)[index].Obj? then Err(Contract)
      else
        var f := Models(root)[index].fields;
        if Alias(key).Some? && Alias(key).value in f then Err(InvalidRequest)
        else Ok(StoreModel(root, index, f[key := value]))
  }

  function Remove(root: Fields, p: Place): Result<Fields, Error> {
    match p
    case LlmPolicy(key) => Ok(DisableLlm(root, key))
    case McpPolicy(key) => Ok(DeleteMcp(root, key))
    case ModelPolicy(index, key) =>
      if index >= |Models(root)| then Err(NotFound)
      else if !Models(root)[index].Obj? then Err(Contract)
      else Ok(StoreModel(root, index, Models(root)[index].fields - {key}))
  }

  datatype Operation = Upsert(value: Json) | Delete

  /** applyPolicyChange on a policy that was found. */
  function Change(root: Fields, p: Place, op: Operation): Result<Fields, Error> {
    if !Editable(p) then Err(InvalidRequest)
    else
      match op
      case Upsert(value) => if value.Null? then Err(InvalidRequest) else Set(root, p, value)
      case Delete => if !Enabled(Get(root, p)) then Err(NotFound) else Remove(root, p)
  }

  // ---- IDs ----

  lemma PathIsSlashFree(p: Place)
    ensures AllSlashFree(PlacePath(p))
  {
    EscapeIsSlashFree(p.key);
    if p.ModelPolicy? { DigitsAreSlashFree(p.index); }
  }

  /** No two places share an ID, whatever characters their keys contain. */
  lemma PlaceIdIsInjective(p: Place, q: Place)
    requires PlaceId(p) == PlaceId(q)
    ensures p == q
  {
    PathIsSlashFree(p);
    PathIsSlashFree(q);
    PathIdIsInjective(PlacePath(p), PlacePath(q));
    var x, y := PlacePath(p), PlacePath(q);
    assert x[|x| - 1] == y[|y| - 1] && x[0] == y[0];
    EscapeIsInjective(p.key, q.key);
    if p.ModelPolicy? {
      assert x[2] == y[2];
      DigitsAreInjective(p.index, q.index);
    }
  }

  /** The listed place an ID names; at most one. */
  ghost function PlaceOf(root: Fields, id: string): (r: Option<Place>)
    ensures r.Some? ==> Listed(root, r.value) && PlaceId(r.value) == id
    ensures r.None? ==> forall p: Place :: Listed(root, p) ==> PlaceId(p) != id
  {
    if exists p: Place :: Listed(root, p) && PlaceId(p) == id then
      var p: Place :| Listed(root, p) && PlaceId(p) == id; Some(p)
    else None
  }

  /** Looking a listed policy up by its ID finds that policy. */
  lemma ListedIsFound(root: Fields, p: Place)
    requires Listed(root, p)
    ensures PlaceOf(root, PlaceId(p)) == Some(p)
  {
    PlaceIdIsInjective(PlaceOf(root, PlaceId(p)).value, p);
  }

  /** A whole request: the ID is looked up among the listed policies, then the change is made. */
  ghost function Apply(root: Fields, id: string, op: Operation): Result<Fields, Error> {
    if Trim(id) == "" then Err(InvalidRequest)
    else if !Readable(root) then Err(Contract)
    else
      match PlaceOf(root, id)
      case None => Err(NotFound)
      case Some(p) => Change(root, p, op)
  }
}
