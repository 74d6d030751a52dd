/** Editing the LLM section: validation of drafts, the merges that build an entry, and the six operations. */
module LlmConfig {
  import opened Text
  import opened JsonTrees
  import opened LlmModel
  import opened Decimal
  import opened Paths
  import opened Collections

  datatype Error = InvalidRequest | NotFound | Conflict | Referenced | Contract

  datatype Document = Document(
    root: Fields, llm: Fields, providers: seq<Json>, models: seq<Json>, virtuals: seq<Json>)

  datatype Change =
    | CreateProvider(provider: ProviderDraft)
    | UpdateProvider(id: string, provider: ProviderDraft)
    | DeleteProvider(id: string, deleteReferencedModels: bool)
    | CreateModel(draft: ModelDraft)
    | UpdateModel(id: string, draft: ModelDraft)
    | DeleteModel(id: string)

  // ---- Validation ----

  predicate ValidName(s: string) {
    s != "" && Trim(s) == s && |s| <= 256 && !Contains(s, {'\r', '\n', '\t'})
  }

  predicate Bounded(s: string, max: nat) {
    |s| <= max && !Contains(s, {'\r', '\n'})
  }

  predicate ValidParams(env: Env, p: Params) {
    && Bounded(p.model, 256) && Bounded(p.baseUrl, 2048) && Bounded(p.awsRegion, 128)
    && Bounded(p.vertexRegion, 128) && Bounded(p.vertexProject, 256) && Bounded(p.azureResourceName, 256)
    && Bounded(p.azureApiVersion, 128) && Bounded(p.azureProjectName, 256)
    && p.azureResourceType in {"", "openAI", "foundry"}
    && (p.baseUrl != "" ==> env.urlOk(p.baseUrl))
  }

  predicate ParamsFitType(providerType: string, p: Params) {
    && (p.awsRegion != "" ==> providerType == "bedrock")
    && (p.vertexRegion != "" || p.vertexProject != "" ==> providerType == "vertex")
    && (!(p.azureResourceName == p.azureResourceType == p.azureApiVersion == p.azureProjectName == "") ==>
          providerType == "azure")
  }

  predicate CredentialText(s: string, max: nat) {
    s != "" && |s| <= max && !Contains(s, {'\0', '\r', '\n'})
  }

  predicate EnvironmentName(s: string) {
    && s != ""
    && ('A' <= s[0] <= 'Z' || 'a' <= s[0] <= 'z' || s[0] == '_')
    && forall i :: 0 <= i < |s| ==>
         'A' <= s[i] <= 'Z' || 'a' <= s[i] <= 'z' || '0' <= s[i] <= '9' || s[i] == '_'
  }

  predicate ValidCredential(c: Credential, updating: bool) {
    var noReference, noSecret, noAws, noClient :=
      c.reference == "", c.secret == "",
      c.accessKeyId == "" && c.secretAccessKey == "" && c.sessionToken == "", c.clientId == "";
    match c.mode
    case Preserve => updating && noReference && noSecret && noAws && noClient
    case Ambient => noReference && noSecret && noAws && noClient
    case Environment => EnvironmentName(c.reference) && noSecret && noAws && noClient
    case File => CredentialText(c.reference, 1024) && Trim(c.reference) == c.reference && noSecret && noAws && noClient
    case GcpFile => CredentialText(c.reference, 1024) && Trim(c.reference) == c.reference && noSecret && noAws && noClient
    case Literal => CredentialText(c.secret, 8192) && Trim(c.secret) == c.secret && noReference && noAws && noClient
    case AwsStatic =>
      CredentialText(c.accessKeyId, 512) && CredentialText(c.secretAccessKey, 8192)
      && (c.sessionToken != "" ==> CredentialText(c.sessionToken, 8192)) && noReference && noSecret && noClient
    case AzureManagedIdentity =>
      (c.clientId != "" ==> CredentialText(c.clientId, 512) && Trim(c.clientId) == c.clientId)
      && noReference && noSecret && noAws
    case OtherMode(_) => false
  }

  predicate ModeFitsType(providerType: string, mode: Mode) {
    mode == Preserve || mode == Ambient ||
    match providerType
    case "" => false
    case "bedrock" => mode == AwsStatic
    case "vertex" => mode == GcpFile
    case "azure" => mode in {Environment, Literal, File, AzureManagedIdentity}
    case _ => mode in {Environment, Literal, File}
  }

  predicate ValidProviderCredential(providerType: string, c: Credential, updating: bool) {
    ValidCredential(c, updating) && ModeFitsType(providerType, c.mode)
  }

  predicate ValidProviderDraft(env: Env, d: ProviderDraft, updating: bool) {
    && ValidName(d.name) && d.providerType in env.providerTypes
    && ValidParams(env, d.params) && ParamsFitType(d.providerType, d.params)
    && ValidFormats(env, d.providerType, d.formats)
    && (d.providerType == "custom" ==> d.params.baseUrl != "")
    && ValidProviderCredential(d.providerType, d.credential, updating)
  }

  predicate ValidUpstream(env: Env, d: ModelDraft) {
    match d.upstream
    case "incoming" => d.params.model == "" && d.expression == ""
    case "explicit" => d.params.model != "" && d.expression == ""
    case "strip" => d.params.model == "" && d.expression == "" && StripExpression(env, d.name) != ""
    case "custom" =>
      d.params.model == "" && Trim(d.expression) == d.expression && d.expression != ""
      && |d.expression| <= 4096 && '\0' !in d.expression
    case _ => false
  }

  predicate ValidModelShape(env: Env, doc: Document, d: ModelDraft) {
    match d.mode
    case "reference" =>
      && ValidName(d.reference) && NameExists(doc.providers, d.reference, -1)
      && d.providerType == "" && d.formats == []
      && d.params == NO_PARAMS.(model := d.params.model)
    case "builtin" =>
      && d.providerType in env.providerTypes && d.providerType != "custom" && d.formats == []
      && ParamsFitType(d.providerType, d.params)
    case "custom" =>
      && d.providerType == "custom" && d.params.baseUrl != ""
      && ValidFormats(env, "custom", d.formats) && ParamsFitType("custom", d.params)
    case _ => false
  }

  predicate ValidModelDraft(env: Env, doc: Document, d: ModelDraft, updating: bool) {
    && ValidName(d.name) && d.visibility in {"public", "internal"}
    && ValidParams(env, d.params) && ValidUpstream(env, d)
    && ValidModelShape(env, doc, d)
    && ValidProviderCredential(d.providerType, d.credential, updating)
  }

  // ---- Lookups ----

  predicate NameExists(entries: seq<Json>, name: string, except: int) {
    exists i :: 0 <= i < |entries| && i != except && EntryName(entries[i]) == Some(name)
  }

  predicate ModelNameExists(models: seq<Json>, name: string, except: int) {
    exists i :: 0 <= i < |models| && i != except && ModelName(models[i]) == Some(name)
  }

  /** `name` is the provider's; a model that embeds its provider has an empty reference. */
  predicate RefersTo(entry: Json, name: string) {
    ModelReference(entry) == Some(name)
  }

  predicate ProviderReferenced(models: seq<Json>, name: string) {
    exists i :: 0 <= i < |models| && RefersTo(models[i], name)
  }

  predicate ModelReferenced(virtuals: seq<Json>, name: string) {
    exists i :: 0 <= i < |virtuals| && TargetsModel(virtuals[i], name)
  }

  function ProviderId(index: nat): string {
    PathId(["llm", "providers", Digits(index)])
  }

  function ModelId(index: nat): string {
    PathId(["llm", "models", Digits(index)])
  }

  // ---- Building entries ----

  function PutString(f: Fields, key: string, value: string): Fields {
    if value == "" then f else f[key := Str(value)]
  }

  /** The draft's value for the managed string key at position `i`. */
  function ParamAt(p: Params, i: nat): string {
    match i
    case 0 => p.model
    case 1 => p.baseUrl
    case 2 => p.awsRegion
    case 3 => p.vertexRegion
    case 4 => p.vertexProject
    case 5 => p.azureResourceName
    case 6 => p.azureResourceType
    case 7 => p.azureApiVersion
    case 8 => p.azureProjectName
    case _ => ""
  }

  /** The fields with the first `count` managed strings set. */
  function WithStrings(f: Fields, p: Params, keys: seq<string>, count: nat): Fields
    requires count <= |keys|
  {
    if count == 0 then f
    else PutString(WithStrings(f, p, keys, count - 1), keys[count - 1], ParamAt(p, count - 1))
  }

  function WithParams(f: Fields, p: Params): Fields {
    var strings := WithStrings(f - MANAGED_KEYS, p, STRING_KEYS, |STRING_KEYS|);
    if p.tokenize then strings["tokenize" := Bool(true)] else strings
  }

  function WithApiKey(f: Fields, c: Credential): Fields {
    match c.mode
    case Preserve => f
    case Environment => f["apiKey" := Str("$" + c.reference)]
    case File => f["apiKey" := Obj(map["file" := Str(Trim(c.reference))])]
    case Literal => f["apiKey" := Str(Trim(c.secret))]
    case _ => f - {"apiKey"}
  }

  /** mergeParams; the inner None drops the member. */
  function MergeParams(existing: Raw, p: Params, c: Credential, updating: bool): Result<Raw, Error> {
    if Configured(existing) && !existing.value.Obj? then Err(InvalidRequest)
    else if c.mode.OtherMode? || (c.mode == Preserve && !updating) then Err(InvalidRequest)
    else if c.mode == Environment && !EnvironmentName(c.reference) then Err(InvalidRequest)
    else if c.mode == File && !(Trim(c.reference) != "" && Bounded(Trim(c.reference), 1024)) then Err(InvalidRequest)
    else
      var base := if Configured(existing) then existing.value.fields else map[];
      var merged := WithApiKey(WithParams(base, p), c);
      Ok(if merged == map[] then None else Some(Obj(merged)))
  }

  function CredentialAuth(c: Credential): Raw {
    match c.mode
    case AwsStatic =>
      Some(Obj(map["aws" := Obj(map[
        "accessKeyId" := Str(c.accessKeyId), "secretAccessKey" := Str(c.secretAccessKey),
        "region" := Null, "serviceName" := Null,
        "sessionToken" := if c.sessionToken != "" then Str(c.sessionToken) else Null])]))
    case GcpFile =>
      Some(Obj(map["gcp" := Obj(map["credential" := Obj(map["file" := Str(c.reference)])])]))
    case AzureManagedIdentity =>
      var identity := if c.clientId != "" then Obj(map["clientId" := Str(Trim(c.clientId))]) else Null;
      Some(Obj(map["azure" := Obj(map["explicitConfig" := Obj(map[
        "managedIdentity" := Obj(map["userAssignedIdentity" := identity])])])]))
    case _ => None
  }

  function Put(f: Fields, key: string, value: Raw): Fields {
    match value case None => f - {key} case Some(v) => f[key := v]
  }

  function WithProviderAuth(f: Fields, c: Credential): Result<Fields, Error> {
    if c.mode == Preserve then Ok(f)
    else
      var auth, defaults := CredentialAuth(c), Field(f, "defaults");
      if Configured(defaults) && !defaults.value.Obj? then Err(InvalidRequest)
      else if auth.None? && !Configured(defaults) then Ok(f)
      else
        var values := Put(if Configured(defaults) then defaults.value.fields else map[], "auth", auth);
        Ok(Put(f, "defaults", if values == map[] then None else Some(Obj(values))))
  }

  function WithModelAuth(f: Fields, c: Credential): Fields {
    if c.mode == Preserve then f else Put(f, "auth", CredentialAuth(c))
  }

  function EncodeFormat(f: Format): Json {
    Obj(PutString(map["type" := Str(f.kind)], "path", f.path))
  }

  function EncodeFormats(formats: seq<Format>): seq<Json> {
    if formats == [] then [] else [EncodeFormat(formats[0])] + EncodeFormats(formats[1..])
  }

  /** providerValue. */
  function ProviderValue(existing: Raw, providerType: string, formats: seq<Format>): Json {
    if providerType != "custom" then Str(providerType)
    else
      var custom := match AsObject(Member(existing, "custom")) case Some(f) => f case None => map[];
      Obj(map["custom" := Obj(custom["formats" := Arr(EncodeFormats(formats))])])
  }

  /** mergeModelTransformation. */
  function MergeTransformation(env: Env, existing: Raw, d: ModelDraft): Result<Raw, Error> {
    if Configured(existing) && !existing.value.Obj? then Err(InvalidRequest)
    else if d.upstream !in {"incoming", "explicit", "strip", "custom"} then Err(InvalidRequest)
    else
      var base := (if Configured(existing) then existing.value.fields else map[]) - {"model"};
      var merged :=
        if d.upstream == "strip" then base["model" := Str(StripExpression(env, d.name))]
        else if d.upstream == "custom" then base["model" := Str(d.expression)]
        else base;
      Ok(if merged == map[] then None else Some(Obj(merged)))
  }

  function ProviderEntry(existing: Fields, d: ProviderDraft, updating: bool): Result<Json, Error> {
    var value := ProviderValue(Field(existing, "provider"), d.providerType, d.formats);
    match MergeParams(Field(existing, "params"), d.params, d.credential, updating)
    case Err(e) => Err(e)
    case Ok(params) =>
      var named := existing["name" := Str(d.name)]["provider" := value];
      match WithProviderAuth(Put(named, "params", params), d.credential)
      case Err(e) => Err(e)
      case Ok(entry) => Ok(Obj(entry))
  }

  function ModelProviderValue(existing: Raw, d: ModelDraft): Json {
    match d.mode
    case "reference" => Obj(map["reference" := Str(d.reference)])
    case "custom" => ProviderValue(existing, "custom", d.formats)
    case _ => Str(d.providerType)
  }

  /** The entry with its members written, the credential and visibility last. */
  function BuiltModel(existing: Fields, d: ModelDraft, params: Raw, transformation: Raw): Fields {
    var named := existing["name" := Str(d.name)]["provider" := ModelProviderValue(Field(existing, "provider"), d)];
    var body := Put(Put(named, "params", params), "transformation", transformation);
    WithModelAuth(body, d.credential)["visibility" := Str(d.visibility)]
  }

  function ModelEntry(env: Env, existing: Fields, d: ModelDraft, updating: bool): Result<Json, Error> {
    match MergeParams(Field(existing, "params"), d.params, d.credential, updating)
    case Err(e) => Err(e)
    case Ok(params) =>
      match MergeTransformation(env, Field(existing, "transformation"), d)
      case Err(e) => Err(e)
      case Ok(transformation) => Ok(Obj(BuiltModel(existing, d, params, transformation)))
  }

  // ---- The six operations ----

  function FindProvider(doc: Document, id: string): Option<nat> {
    Find(id, ProviderId, 0, |doc.providers|)
  }

  function FindModel(doc: Document, id: string): Option<nat> {
    Find(id, ModelId, 0, |doc.models|)
  }

  function ApplyCreateProvider(env: Env, doc: Document, d: ProviderDraft): Result<Document, Error> {
    if !ValidProviderDraft(env, d, false) then Err(InvalidRequest)
    else if NameExists(doc.providers, d.name, -1) then Err(Conflict)
    else
      match ProviderEntry(map[], d, false)
      case Err(e) => Err(e)
      case Ok(entry) => Ok(doc.(providers := doc.providers + [entry]))
  }

  function ApplyUpdateProvider(env: Env, doc: Document, id: string, d: ProviderDraft): Result<Document, Error> {
    var found := FindProvider(doc, id);
    if !ValidProviderDraft(env, d, true) then Err(InvalidRequest)
    else if found.None? then Err(NotFound)
    else
      match EntryFields(doc.providers[found.value])
      case None => Err(InvalidRequest)
      case Some(f) =>
        var name, kind := AsString(Field(f, "name")).value, KindOf(Field(f, "provider"));
        if kind.None? then Err(Contract)
        else if kind.value.ReferenceKind? || TypeOf(kind.value) != d.providerType then Err(InvalidRequest)
        else if NameExists(doc.providers, d.name, found.value) then Err(Conflict)
        else if name != d.name && ProviderReferenced(doc.models, name) then Err(Referenced)
        else
          match ProviderEntry(f, d, true)
          case Err(e) => Err(e)
          case Ok(entry) => Ok(doc.(providers := doc.providers[found.value := entry]))
  }

  /** The first error the reference scan of a provider delete meets. */
  function ScanError(models: seq<Json>): Option<Error> {
    if models == [] then None
    else if ModelName(models[0]).None? || ModelName(models[0]) == Some("") then Some(InvalidRequest)
    else if ModelReference(models[0]).None? then Some(Contract)
    else ScanError(models[1..])
  }

  function WithoutReferences(models: seq<Json>, name: string): seq<Json> {
    if models == [] then []
    else (if RefersTo(models[0], name) then [] else [models[0]]) + WithoutReferences(models[1..], name)
  }

  /** A model that would go with the provider is still a virtual model's target. */
  predicate CascadeBlocked(doc: Document, name: string) {
    exists i :: 0 <= i < |doc.models| && RefersTo(doc.models[i], name)
                && ModelName(doc.models[i]).Some? && ModelReferenced(doc.virtuals, ModelName(doc.models[i]).value)
  }

  function ApplyDeleteProvider(doc: Document, id: string, cascade: bool): Result<Document, Error> {
    var found := FindProvider(doc, id);
    if found.None? then Err(NotFound)
    else
      match EntryName(doc.providers[found.value])
      case None => Err(InvalidRequest)
      case Some(name) =>
        if ScanError(doc.models).Some? then Err(ScanError(doc.models).value)
        else if ProviderReferenced(doc.models, name) && !cascade then Err(Referenced)
        else if CascadeBlocked(doc, name) then Err(Referenced)
        else Ok(doc.(models := WithoutReferences(doc.models, name), providers := Without(doc.providers, found.value)))
  }

  function ApplyCreateModel(env: Env, doc: Document, d: ModelDraft): Result<Document, Error> {
    if !ValidModelDraft(env, doc, d, false) then Err(InvalidRequest)
    else if ModelNameExists(doc.models, d.name, -1) then Err(Conflict)
    else
      match ModelEntry(env, map[], d, false)
      case Err(e) => Err(e)
      case Ok(entry) => Ok(doc.(models := doc.models + [entry]))
  }

  function ApplyUpdateModel(env: Env, doc: Document, id: string, d: ModelDraft): Result<Document, Error> {
    var found := FindModel(doc, id);
    if !ValidModelDraft(env, doc, d, true) then Err(InvalidRequest)
    else if found.None? then Err(NotFound)
    else
      match ReadModel(env, doc.models[found.value])
      case None => Err(Contract)
      case Some(current) =>
        if current.mode != d.mode || current.providerType != d.providerType || current.reference != d.reference
        then Err(InvalidRequest)
        else if ModelNameExists(doc.models, d.name, found.value) then Err(Conflict)
        else if current.name != d.name && ModelReferenced(doc.virtuals, current.name) then Err(Referenced)
        else
          match ModelEntry(env, ModelFields(doc.models[found.value]).value, d, true)
          case Err(e) => Err(e)
          case Ok(entry) => Ok(doc.(models := doc.models[found.value := entry]))
  }

  function ApplyDeleteModel(doc: Document, id: string): Result<Document, Error> {
    var found := FindModel(doc, id);
    if found.None? then Err(NotFound)
    else
      match ModelName(doc.models[found.value])
      case None => Err(InvalidRequest)
      case Some(name) =>
        if ModelReferenced(doc.virtuals, name) then Err(Referenced)
        else Ok(doc.(models := Without(doc.models, found.value)))
  }

  function Apply(env: Env, doc: Document, change: Change): Result<Document, Error> {
    match change
    case CreateProvider(d) => ApplyCreateProvider(env, doc, d)
    case UpdateProvider(id, d) => ApplyUpdateProvider(env, doc, id, d)
    case DeleteProvider(id, cascade) => ApplyDeleteProvider(doc, id, cascade)
    case CreateModel(d) => ApplyCreateModel(env, doc, d)
    case UpdateModel(id, d) => ApplyUpdateModel(env, doc, id, d)
    case DeleteModel(id) => ApplyDeleteModel(doc, id)
  }

  // ---- The document on the wire ----

  /** decodeLLMDocument. */
  function Decode(payload: Json): Option<Document> {
    match payload
    case Obj(root) =>
      var llm :=
        (match Field(root, "llm")
         case None => Some(map[])
         case Some(Null) => Some(map[])
         case Some(Obj(f)) => Some(f)
         case _ => None);
      if llm.None? then None
      else
        var providers, models := AsArray(Field(llm.value, "providers")), AsArray(Field(llm.value, "models"));
        var virtuals := AsArray(Field(llm.value, "virtualModels"));
        if providers.None? || models.None? || virtuals.None? then None
        else Some(Document(root, llm.value, providers.value, models.value, virtuals.value))
    case _ => None
  }

  /** marshal: the canonical form, in which the three arrays are always present. */
  function Encode(doc: Document): Json {
    var llm := doc.llm["providers" := Arr(doc.providers)]["models" := Arr(doc.models)]
                      ["virtualModels" := Arr(doc.virtuals)];
    Obj(doc.root["llm" := Obj(llm)])
  }

  /** Writing a document and reading it back gives the same entries, and its canonical form is a fixed point. */
  lemma EncodeThenDecode(doc: Document)
    ensures var back := Decode(Encode(doc));
            && back.Some?
            && back.value.providers == doc.providers && back.value.models == doc.models
            && back.value.virtuals == doc.virtuals
            && Encode(back.value) == Encode(doc)
  {
    var back := Decode(Encode(doc)).value;
    var llm := back.llm;
    assert llm["providers" := Arr(doc.providers)] == llm;
    assert llm["models" := Arr(doc.models)] == llm;
    assert llm["virtualModels" := Arr(doc.virtuals)] == llm;
    assert back.root["llm" := Obj(llm)] == back.root;
  }

  // ---- What the console reads back ----

  datatype Configuration = Configuration(providers: seq<ProviderSetting>, models: seq<ModelSetting>)

  predicate Readable(env: Env, doc: Document) {
    && (forall i :: 0 <= i < |doc.providers| ==> ReadProvider(env, doc.providers[i]).Some?)
    && (forall i :: 0 <= i < |doc.models| ==> ReadModel(env, doc.models[i]).Some?)
    && (forall i :: 0 <= i < |doc.virtuals| ==> ReadableVirtual(doc.virtuals[i]))
  }

  /** sanitizedConfiguration. */
  function Sanitize(env: Env, doc: Document): Option<Configuration> {
    if !Readable(env, doc) then None
    else
      Some(Configuration(
        seq(|doc.providers|, i requires 0 <= i < |doc.providers| && Readable(env, doc) => ReadProvider(env, doc.providers[i]).value),
        seq(|doc.models|, i requires 0 <= i < |doc.models| && Readable(env, doc) => ReadModel(env, doc.models[i]).value)))
  }

  predicate CredentialMatches(state: CredentialState, c: Credential) {
    match c.mode
    case Preserve => true
    case Ambient => state.Unconfigured?
    case OtherMode(_) => false
    case mode => state == ConfiguredAs(mode)
  }

  predicate ProviderMatches(item: ProviderSetting, d: ProviderDraft) {
    && item.providerType == d.providerType && item.params == d.params && item.formats == d.formats
    && CredentialMatches(item.credential, d.credential)
  }

  predicate ModelMatches(item: ModelSetting, d: ModelDraft) {
    && item.mode == d.mode && item.providerType == d.providerType && item.reference == d.reference
    && item.params == d.params && item.formats == d.formats && item.visibility == d.visibility
    && item.upstream == d.upstream && item.expression == d.expression
    && CredentialMatches(item.credential, d.credential)
  }

  /** The first listed provider of that name matches the draft. */
  predicate FirstProviderMatches(items: seq<ProviderSetting>, d: ProviderDraft) {
    items != [] &&
    if items[0].name == d.name then ProviderMatches(items[0], d) else FirstProviderMatches(items[1..], d)
  }

  predicate FirstModelMatches(items: seq<ModelSetting>, d: ModelDraft) {
    items != [] && if items[0].name == d.name then ModelMatches(items[0], d) else FirstModelMatches(items[1..], d)
  }

  /** changeTargetName. */
  function TargetName(doc: Document, change: Change): Result<string, Error> {
    match change
    case CreateProvider(d) => Ok(d.name)
    case UpdateProvider(_, d) => Ok(d.name)
    case CreateModel(d) => Ok(d.name)
    case UpdateModel(_, d) => Ok(d.name)
    case DeleteProvider(id, _) =>
      var found := FindProvider(doc, id);
      if found.None? then Err(NotFound) else Named(EntryName(doc.providers[found.value]))
    case DeleteModel(id) =>
      var found := FindModel(doc, id);
      if found.None? then Err(NotFound) else Named(ModelName(doc.models[found.value]))
  }

  function Named(name: Option<string>): Result<string, Error> {
    if name.None? || name == Some("") then Err(InvalidRequest) else Ok(name.value)
  }

  predicate Verified(c: Configuration, change: Change, target: string) {
    match change
    case CreateProvider(d) => FirstProviderMatches(c.providers, d)
    case UpdateProvider(_, d) => FirstProviderMatches(c.providers, d)
    case CreateModel(d) => FirstModelMatches(c.models, d)
    case UpdateModel(_, d) => FirstModelMatches(c.models, d)
    case DeleteProvider(_, cascade) =>
      && (forall i :: 0 <= i < |c.providers| ==> c.providers[i].name != target)
      && (cascade ==> forall i :: 0 <= i < |c.models| ==>
            !(c.models[i].mode == "reference" && c.models[i].reference == target))
    case DeleteModel(_) => forall i :: 0 <= i < |c.models| ==> c.models[i].name != target
  }
}
