/** The LLM section of the gateway configuration: its entries, the drafts a client may send, and what the
    console reads back out of an entry. Text lengths are counted in characters. */
module LlmModel {
  import opened Text
  import opened JsonTrees

  /** URL parsing, Go's %q quoting, and the catalogue of provider types and custom formats. */
  datatype Env = Env(
    urlOk: string -> bool, quote: string -> string, providerTypes: set<string>, providerFormats: set<string>)

  /** No catalogue lists a type it would not print back. */
  predicate SaneEnv(env: Env) {
    "" !in env.providerTypes && "openAI" !in env.providerTypes
  }

  /** What %q promises of its result: at most ten characters for one, two quotes, and no NUL. */
  ghost predicate QuotesLikeGo(env: Env) {
    forall s :: |env.quote(s)| <= 10 * |s| + 2 && '\0' !in env.quote(s)
  }

  datatype Mode =
    | Preserve | Ambient | Environment | File | GcpFile | Literal | AwsStatic | AzureManagedIdentity
    | OtherMode(name: string)

  datatype Credential = Credential(
    mode: Mode, reference: string, secret: string,
    accessKeyId: string, secretAccessKey: string, sessionToken: string, clientId: string)

  /** What the console shows of a credential: none, or that one of some kind is configured. */
  datatype CredentialState = Unconfigured | ConfiguredAs(kind: Mode)

  const OTHER_KIND := OtherMode("other")

  datatype Params = Params(
    model: string, baseUrl: string, awsRegion: string, vertexRegion: string, vertexProject: string,
    azureResourceName: string, azureResourceType: string, azureApiVersion: string, azureProjectName: string,
    tokenize: bool)

  const NO_PARAMS := Params("", "", "", "", "", "", "", "", "", false)

  datatype Format = Format(kind: string, path: string)

  datatype ProviderDraft = ProviderDraft(
    name: string, providerType: string, params: Params, formats: seq<Format>, credential: Credential)

  datatype ModelDraft = ModelDraft(
    name: string, mode: string, providerType: string, reference: string, params: Params,
    formats: seq<Format>, visibility: string, upstream: string, expression: string, credential: Credential)

  datatype ProviderSetting = ProviderSetting(
    name: string, providerType: string, params: Params, formats: seq<Format>, credential: CredentialState)

  datatype ModelSetting = ModelSetting(
    name: string, mode: string, providerType: string, reference: string, params: Params,
    formats: seq<Format>, visibility: string, upstream: string, expression: string, credential: CredentialState)

  /** The managed keys that are strings, in declaration order. */
  const STRING_KEYS: seq<string> := [
    "model", "baseUrl", "awsRegion", "vertexRegion", "vertexProject", "azureResourceName", "azureResourceType",
    "azureApiVersion", "azureProjectName" ]

  const MANAGED_KEYS := (set key | key in STRING_KEYS) + {"tokenize"}

  // ---- Reading an entry ----

  /** The shape both editableProvider and editableModel are decoded through: an object with a string name. */
  function EntryFields(entry: Json): Option<Fields> {
    match entry
    case Null => Some(map[])
    case Obj(f) => if AsString(Field(f, "name")).Some? then Some(f) else None
    case _ => None
  }

  function EntryName(entry: Json): Option<string> {
    match EntryFields(entry)
    case None => None
    case Some(f) => AsString(Field(f, "name"))
  }

  /** editableModel also decodes a string visibility. */
  function ModelFields(entry: Json): Option<Fields> {
    match EntryFields(entry)
    case None => None
    case Some(f) => if AsString(Field(f, "visibility")).Some? then Some(f) else None
  }

  function ModelName(entry: Json): Option<string> {
    match ModelFields(entry)
    case None => None
    case Some(f) => AsString(Field(f, "name"))
  }

  /** The provider a model entry refers to by name; empty when it embeds its own. */
  function ModelReference(entry: Json): Option<string> {
    match ModelFields(entry)
    case None => None
    case Some(f) =>
      match KindOf(Field(f, "provider"))
      case None => None
      case Some(ReferenceKind(target)) => Some(target)
      case Some(_) => Some("")
  }

  datatype ProviderKind = BuiltinKind(name: string) | ReferenceKind(target: string) | CustomKind

  /** providerKind; None stands for its contract error. */
  function KindOf(raw: Raw): Option<ProviderKind> {
    match raw
    case Some(Str(s)) => if s == "" then None else Some(BuiltinKind(s))
    case Some(Obj(f)) =>
      (match AsString(Field(f, "reference"))
       case None => None
       case Some(reference) =>
         if reference != "" then Some(ReferenceKind(reference))
         else if AsObject(Field(f, "custom")).Some? then Some(CustomKind)
         else None)
    case _ => None
  }

  function CanonicalType(name: string): string {
    if name == "openAI" then "openai" else name
  }

  /** The provider type an entry shows: its name, `custom`, or nothing for a reference. */
  function TypeOf(kind: ProviderKind): string {
    match kind
    case BuiltinKind(name) => CanonicalType(name)
    case ReferenceKind(_) => ""
    case CustomKind => "custom"
  }

  function DecodeFormat(j: Json): Option<Format> {
    match j
    case Null => Some(Format("", ""))
    case Obj(f) =>
      (match (AsString(Field(f, "type")), AsString(Field(f, "path")))
       case (Some(kind), Some(path)) => Some(Format(kind, path))
       case _ => None)
    case _ => None
  }

  function DecodeFormats(items: seq<Json>): Option<seq<Format>> {
    if items == [] then Some([])
    else
      match (DecodeFormat(items[0]), DecodeFormats(items[1..]))
      case (Some(f), Some(rest)) => Some([f] + rest)
      case _ => None
  }

  /** customFormats. */
  function FormatsOf(raw: Raw): Option<seq<Format>> {
    match raw
    case Some(Str(s)) => if s != "" then Some([]) else None
    case Some(Null) => Some([])
    case Some(Obj(f)) =>
      (match AsString(Field(f, "reference"))
       case None => None
       case Some(reference) =>
         match Field(f, "custom")
         case None => Some([])
         case Some(Null) => Some([])
         case Some(Obj(custom)) =>
           var formats :=
             (match Field(custom, "formats")
              case Some(Arr(items)) => DecodeFormats(items)
              case _ => None);
           if formats.None? && Field(custom, "formats") !in {None, Some(Null)} then None
           else if reference != "" then Some([])
           else formats
         case _ => None)
    case _ => None
  }

  predicate ValidFormats(env: Env, providerType: string, formats: seq<Format>) {
    if providerType != "custom" then formats == []
    else
      && 0 < |formats| <= |env.providerFormats|
      && (forall i :: 0 <= i < |formats| ==>
            && formats[i].kind in env.providerFormats
            && |formats[i].path| <= 512 && !Contains(formats[i].path, {'\r', '\n'})
            && (formats[i].path != "" ==> HasPrefix(formats[i].path, "/")))
      && (forall i, j :: 0 <= i < j < |formats| ==> formats[i].kind != formats[j].kind)
  }

  function StringParam(f: Fields, i: nat): string
    requires i < |STRING_KEYS|
  {
    match AsString(Field(f, STRING_KEYS[i])) case Some(s) => s case None => ""
  }

  function DecodeParams(f: Fields): Option<Params> {
    if (exists key :: key in STRING_KEYS && AsString(Field(f, key)).None?) || AsBool(Field(f, "tokenize")).None?
    then None
    else
      Some(Params(
        StringParam(f, 0), StringParam(f, 1), StringParam(f, 2), StringParam(f, 3), StringParam(f, 4),
        StringParam(f, 5), StringParam(f, 6), StringParam(f, 7), StringParam(f, 8),
        AsBool(Field(f, "tokenize")).value))
  }

  function ApiKeyState(raw: Raw): CredentialState {
    if !Configured(raw) then Unconfigured
    else
      match raw.value
      case Str(s) => ConfiguredAs(if HasPrefix(s, "$") then Environment else Literal)
      case Obj(f) =>
        (match AsString(Field(f, "file"))
         case Some(path) => if path != "" then ConfiguredAs(File) else ConfiguredAs(OTHER_KIND)
         case None => ConfiguredAs(OTHER_KIND))
      case _ => ConfiguredAs(OTHER_KIND)
  }

  /** A member of a value, absent unless the value is an object. */
  function Member(raw: Raw, key: string): Raw {
    match raw
    case Some(Obj(f)) => Field(f, key)
    case _ => None
  }

  predicate IsString(raw: Raw) {
    raw.Some? && raw.value.Str?
  }

  /** authCredentialState. */
  function AuthState(raw: Raw): CredentialState {
    if !Configured(raw) then Unconfigured
    else if IsString(Member(Member(raw, "aws"), "accessKeyId")) then ConfiguredAs(AwsStatic)
    else if IsString(Member(Member(Member(raw, "gcp"), "credential"), "file")) then ConfiguredAs(GcpFile)
    else if AsObject(Member(Member(Member(raw, "azure"), "explicitConfig"), "managedIdentity")).Some?
    then ConfiguredAs(AzureManagedIdentity)
    else ConfiguredAs(OTHER_KIND)
  }

  function Combined(left: CredentialState, right: CredentialState): CredentialState {
    if left.Unconfigured? then right
    else if right.Unconfigured? then left
    else ConfiguredAs(OTHER_KIND)
  }

  /** sanitizedParams. */
  function ParamsOf(raw: Raw): Option<(Params, CredentialState)> {
    match raw
    case None => Some((NO_PARAMS, Unconfigured))
    case Some(Null) => Some((NO_PARAMS, Unconfigured))
    case Some(Obj(f)) =>
      (match DecodeParams(f)
       case None => None
       case Some(p) => Some((p, ApiKeyState(Field(f, "apiKey")))))
    case _ => None
  }

  /** The setting made of an entry's decoded parts; None when a part is missing or unsupported. */
  function ProviderFrom(
    env: Env, name: string, kind: Option<ProviderKind>, params: Option<(Params, CredentialState)>,
    formats: Option<seq<Format>>, auth: CredentialState): Option<ProviderSetting>
  {
    if name == "" || kind.None? || params.None? || formats.None? || kind.value.ReferenceKind? then None
    else if TypeOf(kind.value) !in env.providerTypes || !ValidFormats(env, TypeOf(kind.value), formats.value) then None
    else
      Some(ProviderSetting(
        name, TypeOf(kind.value), params.value.0, formats.value, Combined(params.value.1, auth)))
  }

  /** providerSetting. */
  function ReadProvider(env: Env, entry: Json): Option<ProviderSetting> {
    match EntryFields(entry)
    case None => None
    case Some(f) =>
      ProviderFrom(
        env, AsString(Field(f, "name")).value, KindOf(Field(f, "provider")), ParamsOf(Field(f, "params")),
        FormatsOf(Field(f, "provider")), AuthState(Member(Field(f, "defaults"), "auth")))
  }

  /** stripPrefixExpression; empty when the name has no slash. */
  function StripExpression(env: Env, name: string): string {
    if '/' !in name then "" else "llmRequest.model.stripPrefix(" + env.quote(FirstPrefix(name)) + ")"
  }

  function FirstPrefix(name: string): string {
    if name == "" then "" else if name[0] == '/' then "/" else [name[0]] + FirstPrefix(name[1..])
  }

  /** modelUpstreamMode: the mode and the custom expression. */
  function UpstreamOf(env: Env, name: string, model: string, transformation: Raw): Option<(string, string)> {
    if model != "" then Some(("explicit", ""))
    else if !Configured(transformation) then Some(("incoming", ""))
    else
      match transformation.value
      case Obj(f) =>
        if !Configured(Field(f, "model")) then Some(("incoming", ""))
        else
          (match f["model"]
           case Str(e) => if e == StripExpression(env, name) then Some(("strip", "")) else Some(("custom", e))
           case _ => None)
      case _ => None
  }

  function ModeOf(kind: ProviderKind): string {
    match kind
    case ReferenceKind(_) => "reference"
    case CustomKind => "custom"
    case BuiltinKind(name) => if CanonicalType(name) == "custom" then "custom" else "builtin"
  }

  /** The setting made of a model entry's decoded parts. */
  function ModelFrom(
    env: Env, name: string, shown: string, kind: Option<ProviderKind>, params: Option<(Params, CredentialState)>,
    formats: Option<seq<Format>>, transformation: Raw, auth: CredentialState): Option<ModelSetting>
  {
    var visibility := if shown == "" then "public" else shown;
    if name == "" || kind.None? || params.None? || formats.None? then None
    else if ModeOf(kind.value) == "builtin" && TypeOf(kind.value) !in env.providerTypes then None
    else if !ValidFormats(env, TypeOf(kind.value), formats.value) || visibility !in {"public", "internal"} then None
    else
      match UpstreamOf(env, name, params.value.0.model, transformation)
      case None => None
      case Some(upstream) =>
        Some(ModelSetting(
          name, ModeOf(kind.value), TypeOf(kind.value),
          if kind.value.ReferenceKind? then kind.value.target else "",
          params.value.0, formats.value, visibility, upstream.0, upstream.1,
          Combined(params.value.1, auth)))
  }

  /** modelSetting. */
  function ReadModel(env: Env, entry: Json): Option<ModelSetting> {
    match ModelFields(entry)
    case None => None
    case Some(f) =>
      ModelFrom(
        env, AsString(Field(f, "name")).value, AsString(Field(f, "visibility")).value, KindOf(Field(f, "provider")),
        ParamsOf(Field(f, "params")), FormatsOf(Field(f, "provider")), Field(f, "transformation"),
        AuthState(Field(f, "auth")))
  }

  // ---- Virtual models ----

  function DecodeTargets(items: seq<Json>): Option<seq<string>> {
    if items == [] then Some([])
    else
      var first :=
        (match items[0]
         case Null => Some("")
         case Obj(f) => AsString(Field(f, "model"))
         case _ => None);
      match (first, DecodeTargets(items[1..]))
      case (Some(t), Some(rest)) => Some([t] + rest)
      case _ => None
  }

  /** One routing strategy: outer None is a decoding error, inner None an absent strategy. */
  function Strategy(raw: Raw): Option<Option<seq<string>>> {
    match raw
    case None => Some(None)
    case Some(Null) => Some(None)
    case Some(Obj(f)) =>
      (match AsArray(Field(f, "targets"))
       case None => None
       case Some(items) =>
         match DecodeTargets(items)
         case None => None
         case Some(targets) => Some(Some(targets)))
    case _ => None
  }

  datatype Virtual = Virtual(name: string, strategies: seq<seq<string>>)

  function Present(s: Option<seq<string>>): seq<seq<string>> {
    match s case None => [] case Some(t) => [t]
  }

  function DecodeVirtual(entry: Json): Option<Virtual> {
    match EntryFields(entry)
    case None => None
    case Some(f) =>
      var routing :=
        (match Field(f, "routing")
         case None => Some(map[])
         case Some(Null) => Some(map[])
         case Some(Obj(r)) => Some(r)
         case _ => None);
      match routing
      case None => None
      case Some(r) =>
        match (Strategy(Field(r, "weighted")), Strategy(Field(r, "failover")), Strategy(Field(r, "conditional")))
        case (Some(w), Some(v), Some(c)) =>
          Some(Virtual(AsString(Field(f, "name")).value, Present(w) + Present(v) + Present(c)))
        case _ => None
  }

  /** Sanitizing asks for a name and exactly one strategy. */
  predicate ReadableVirtual(entry: Json) {
    var v := DecodeVirtual(entry);
    v.Some? && v.value.name != "" && |v.value.strategies| == 1
  }

  predicate TargetsModel(entry: Json, name: string) {
    var v := DecodeVirtual(entry);
    v.Some? && exists s :: s in v.value.strategies && name in s
  }
}
