/** What the console reads back from an entry it has just built, and when the read-back verifier accepts it. */
module LlmReadBack {
  import opened Text
  import opened JsonTrees
  import opened LlmModel
  import opened LlmConfig

  // ---- Parameters ----

  predicate Distinct(keys: seq<string>) {
    forall i, j :: 0 <= i < j < |keys| ==> keys[i] != keys[j]
  }

  lemma {:induction false} StringsAreStored(f: Fields, p: Params, keys: seq<string>, count: nat, i: nat)
    requires i < |keys| && count <= |keys| && Distinct(keys)
    ensures Field(WithStrings(f, p, keys, count), keys[i]) ==
            if i < count && ParamAt(p, i) != "" then Some(Str(ParamAt(p, i))) else Field(f, keys[i])
  {
    if count > 0 { StringsAreStored(f, p, keys, count - 1, i); }
  }

  lemma {:induction false} StringsKeepOtherKeys(f: Fields, p: Params, keys: seq<string>, count: nat, key: string)
    requires count <= |keys| && key !in keys
    ensures Field(WithStrings(f, p, keys, count), key) == Field(f, key)
  {
    if count > 0 { StringsKeepOtherKeys(f, p, keys, count - 1, key); }
  }

  lemma KeysHaveOtherLengths()
    ensures forall key :: key in STRING_KEYS ==> |key| != 8 && |key| != 6
  {
  }

  lemma KeysAreDistinct()
    ensures Distinct(STRING_KEYS)
  {
    assert STRING_KEYS[5][13] == 'N' && STRING_KEYS[6][13] == 'T';
  }

  lemma OtherKeysAreUnmanaged()
    ensures "tokenize" !in STRING_KEYS && "apiKey" !in MANAGED_KEYS
  {
    KeysHaveOtherLengths();
  }

  /** Writing the managed parameters touches no other key. */
  lemma ParamsKeepOtherKeys(f: Fields, p: Params, key: string)
    requires key !in MANAGED_KEYS
    ensures Field(WithParams(f, p), key) == Field(f, key)
  {
    StringsKeepOtherKeys(f - MANAGED_KEYS, p, STRING_KEYS, |STRING_KEYS|, key);
  }

  lemma StringIsStored(f: Fields, p: Params, i: nat)
    requires i < |STRING_KEYS|
    ensures AsString(Field(WithParams(f, p), STRING_KEYS[i])) == Some(ParamAt(p, i))
  {
    KeysAreDistinct();
    StringsAreStored(f - MANAGED_KEYS, p, STRING_KEYS, |STRING_KEYS|, i);
  }

  lemma TokenizeIsStored(f: Fields, p: Params)
    ensures AsBool(Field(WithParams(f, p), "tokenize")) == Some(p.tokenize)
  {
    OtherKeysAreUnmanaged();
    StringsKeepOtherKeys(f - MANAGED_KEYS, p, STRING_KEYS, |STRING_KEYS|, "tokenize");
  }

  lemma ParamsAreStored(f: Fields, p: Params)
    ensures DecodeParams(WithParams(f, p)) == Some(p)
  {
    forall i: nat | i < |STRING_KEYS|
      ensures AsString(Field(WithParams(f, p), STRING_KEYS[i])) == Some(ParamAt(p, i))
    {
      StringIsStored(f, p, i);
    }
    TokenizeIsStored(f, p);
  }

  // ---- Credentials ----

  /** A literal secret the console cannot tell from the name of an environment variable. */
  predicate DollarLiteral(c: Credential) {
    c.mode == Literal && HasPrefix(c.secret, "$")
  }

  /** What a written credential shows as, in the API key and in the authentication member. */
  function KeyCredential(c: Credential): CredentialState {
    match c.mode
    case Environment => ConfiguredAs(Environment)
    case File => ConfiguredAs(File)
    case Literal => ConfiguredAs(if DollarLiteral(c) then Environment else Literal)
    case _ => Unconfigured
  }

  function AuthCredential(c: Credential): CredentialState {
    match c.mode
    case AwsStatic => ConfiguredAs(AwsStatic)
    case GcpFile => ConfiguredAs(GcpFile)
    case AzureManagedIdentity => ConfiguredAs(AzureManagedIdentity)
    case _ => Unconfigured
  }

  lemma ApiKeyIsStored(f: Fields, c: Credential, updating: bool)
    requires ValidCredential(c, updating) && c.mode != Preserve
    ensures ApiKeyState(Field(WithApiKey(f, c), "apiKey")) == KeyCredential(c)
  {
    if c.mode == Environment { assert ("$" + c.reference)[0] == '$'; }
    if c.mode == File {
      var file := map["file" := Str(Trim(c.reference))];
      assert "file" in file && file != map[];
    }
  }

  lemma AuthIsStored(c: Credential)
    requires c.mode != Preserve
    ensures AuthState(CredentialAuth(c)) == AuthCredential(c)
  {
    var auth := CredentialAuth(c);
    if auth.Some? {
      var f := auth.value.fields;
      assert c.mode == AwsStatic ==> "aws" in f;
      assert c.mode == GcpFile ==> "gcp" in f && "aws" !in f;
      assert c.mode == AzureManagedIdentity ==> "azure" in f && "gcp" !in f && "aws" !in f;
      assert f != map[];
    }
  }

  /** A credential that is not preserved shows as it was asked for, unless it is a dollar literal. */
  lemma CredentialReadsBack(c: Credential, updating: bool)
    requires ValidCredential(c, updating) && c.mode != Preserve
    ensures CredentialMatches(Combined(KeyCredential(c), AuthCredential(c)), c) <==> !DollarLiteral(c)
  {
  }

  lemma ParamsIgnoreApiKey(f: Fields, c: Credential)
    ensures DecodeParams(WithApiKey(f, c)) == DecodeParams(f)
  {
    OtherKeysAreUnmanaged();
    forall key | key in MANAGED_KEYS ensures Field(WithApiKey(f, c), key) == Field(f, key) {}
    assert forall i :: 0 <= i < |STRING_KEYS| ==> STRING_KEYS[i] in MANAGED_KEYS;
  }

  /** Dropping an empty parameter object loses nothing. */
  lemma EmptyParamsReadAlike(f: Fields)
    ensures ParamsOf(if f == map[] then None else Some(Obj(f))) ==
            if DecodeParams(f).None? then None else Some((DecodeParams(f).value, ApiKeyState(Field(f, "apiKey"))))
  {
  }

  lemma WrittenKeyShows(base: Fields, p: Params, c: Credential, updating: bool)
    requires ValidCredential(c, updating)
    ensures ApiKeyState(Field(WithApiKey(WithParams(base, p), c), "apiKey")) ==
            if c.mode == Preserve then ApiKeyState(Field(base, "apiKey")) else KeyCredential(c)
  {
    if c.mode == Preserve {
      OtherKeysAreUnmanaged();
      ParamsKeepOtherKeys(base, p, "apiKey");
    } else {
      ApiKeyIsStored(WithParams(base, p), c, updating);
    }
  }

  /** The merged parameters read back as the draft's, and show the written key or the one already there. */
  lemma MergedParamsReadBack(existing: Raw, p: Params, c: Credential, updating: bool)
    requires ValidCredential(c, updating) && MergeParams(existing, p, c, updating).Ok?
    ensures ParamsOf(MergeParams(existing, p, c, updating).value) ==
            Some((p, if c.mode == Preserve then ApiKeyState(Member(existing, "apiKey")) else KeyCredential(c)))
  {
    var base := if Configured(existing) then existing.value.fields else map[];
    ParamsAreStored(base, p);
    ParamsIgnoreApiKey(WithParams(base, p), c);
    WrittenKeyShows(base, p, c, updating);
    EmptyParamsReadAlike(WithApiKey(WithParams(base, p), c));
  }

  // ---- Formats and provider values ----

  lemma {:induction false} FormatsAreStored(formats: seq<Format>)
    ensures DecodeFormats(EncodeFormats(formats)) == Some(formats)
  {
    if formats != [] {
      FormatsAreStored(formats[1..]);
      var encoded := EncodeFormats(formats);
      assert encoded[1..] == EncodeFormats(formats[1..]);
      assert formats == [formats[0]] + formats[1..];
    }
  }

  /** A custom provider value, whatever of the old one it kept. */
  lemma CustomReadsBack(existing: Raw, formats: seq<Format>)
    ensures var value := Some(ProviderValue(existing, "custom", formats));
            KindOf(value) == Some(CustomKind) && FormatsOf(value) == Some(formats)
  {
    FormatsAreStored(formats);
    var f := ProviderValue(existing, "custom", formats).fields;
    assert "custom" in f && "reference" !in f;
  }

  lemma BuiltinReadsBack(env: Env, name: string)
    requires SaneEnv(env) && name in env.providerTypes
    ensures KindOf(Some(Str(name))) == Some(BuiltinKind(name)) && CanonicalType(name) == name
    ensures FormatsOf(Some(Str(name))) == Some([])
  {
  }

  lemma ReferenceReadsBack(name: string)
    requires name != ""
    ensures var value := Some(Obj(map["reference" := Str(name)]));
            KindOf(value) == Some(ReferenceKind(name)) && FormatsOf(value) == Some([])
  {
    var f := map["reference" := Str(name)];
    assert "reference" in f && "custom" !in f;
  }

  lemma ProviderValueReadsBack(env: Env, existing: Raw, d: ProviderDraft, updating: bool)
    requires SaneEnv(env) && ValidProviderDraft(env, d, updating)
    ensures var value := Some(ProviderValue(existing, d.providerType, d.formats));
            && KindOf(value).Some? && !KindOf(value).value.ReferenceKind?
            && TypeOf(KindOf(value).value) == d.providerType && FormatsOf(value) == Some(d.formats)
  {
    if d.providerType == "custom" {
      CustomReadsBack(existing, d.formats);
    } else {
      BuiltinReadsBack(env, d.providerType);
    }
  }

  // ---- A provider entry ----

  lemma PutAt(f: Fields, key: string, value: Raw, other: string)
    ensures Field(Put(f, key, value), other) == if other == key then value else Field(f, other)
  {
  }

  /** A member written into an object that is dropped when it becomes empty. */
  lemma NestedPutAt(values: Fields, value: Raw)
    ensures var after := Put(values, "auth", value);
            Member(if after == map[] then None else Some(Obj(after)), "auth") == value
  {
    PutAt(values, "auth", value, "auth");
  }

  /** The authentication member shows the written credential, or what it showed before. */
  lemma ProviderAuthReadsBack(f: Fields, c: Credential)
    requires WithProviderAuth(f, c).Ok?
    ensures var g := WithProviderAuth(f, c).value;
            && AuthState(Member(Field(g, "defaults"), "auth")) ==
               (if c.mode == Preserve then AuthState(Member(Field(f, "defaults"), "auth")) else AuthCredential(c))
            && forall key :: key != "defaults" ==> Field(g, key) == Field(f, key)
  {
    if c.mode != Preserve {
      AuthIsStored(c);
      var defaults := Field(f, "defaults");
      var values := if Configured(defaults) then defaults.value.fields else map[];
      NestedPutAt(values, CredentialAuth(c));
    }
  }

  /** The setting an accepted draft must read back as; `kept` is the credential shown when it is preserved. */
  function ExpectedProvider(d: ProviderDraft, kept: CredentialState): ProviderSetting {
    ProviderSetting(d.name, d.providerType, d.params, d.formats, ExpectedCredential(d.credential, kept))
  }

  function ExpectedCredential(c: Credential, kept: CredentialState): CredentialState {
    if c.mode == Preserve then kept else Combined(KeyCredential(c), AuthCredential(c))
  }

  /** What an entry shows of its credential. */
  function ProviderCredential(f: Fields): CredentialState {
    Combined(ApiKeyState(Member(Field(f, "params"), "apiKey")), AuthState(Member(Field(f, "defaults"), "auth")))
  }

  lemma ProviderPartsRead(
    env: Env, d: ProviderDraft, kind: Option<ProviderKind>, shown: CredentialState, auth: CredentialState)
    requires d.name != "" && d.providerType in env.providerTypes && ValidFormats(env, d.providerType, d.formats)
    requires kind.Some? && !kind.value.ReferenceKind? && TypeOf(kind.value) == d.providerType
    ensures ProviderFrom(env, d.name, kind, Some((d.params, shown)), Some(d.formats), auth) ==
            Some(ProviderSetting(d.name, d.providerType, d.params, d.formats, Combined(shown, auth)))
  {
  }

  /** What the fields of a built provider entry hold. */
  lemma ProviderEntryFields(existing: Fields, d: ProviderDraft, updating: bool)
    requires ProviderEntry(existing, d, updating).Ok?
    ensures var entry, c := ProviderEntry(existing, d, updating).value, d.credential;
            var params := MergeParams(Field(existing, "params"), d.params, c, updating);
            && entry.Obj? && params.Ok?
            && Field(entry.fields, "name") == Some(Str(d.name))
            && Field(entry.fields, "provider") ==
               Some(ProviderValue(Field(existing, "provider"), d.providerType, d.formats))
            && Field(entry.fields, "params") == params.value
            && AuthState(Member(Field(entry.fields, "defaults"), "auth")) ==
               if c.mode == Preserve then AuthState(Member(Field(existing, "defaults"), "auth")) else AuthCredential(c)
  {
    var value := ProviderValue(Field(existing, "provider"), d.providerType, d.formats);
    var named := existing["name" := Str(d.name)]["provider" := value];
    var params := MergeParams(Field(existing, "params"), d.params, d.credential, updating).value;
    ProviderAuthReadsBack(Put(named, "params", params), d.credential);
    PutAt(named, "params", params, "defaults");
    PutAt(named, "params", params, "name");
    PutAt(named, "params", params, "provider");
    PutAt(named, "params", params, "params");
  }

  lemma ReadProviderOfParts(
    env: Env, f: Fields, d: ProviderDraft, kind: Option<ProviderKind>, shown: CredentialState, auth: CredentialState)
    requires Field(f, "name") == Some(Str(d.name)) && KindOf(Field(f, "provider")) == kind
    requires FormatsOf(Field(f, "provider")) == Some(d.formats)
    requires ParamsOf(Field(f, "params")) == Some((d.params, shown))
    requires AuthState(Member(Field(f, "defaults"), "auth")) == auth
    ensures ReadProvider(env, Obj(f)) == ProviderFrom(env, d.name, kind, Some((d.params, shown)), Some(d.formats), auth)
  {
    assert EntryFields(Obj(f)) == Some(f);
  }

  /** An accepted provider draft is read back field for field from the entry built for it. */
  lemma ProviderEntryReadsBack(env: Env, existing: Fields, d: ProviderDraft, updating: bool)
    requires SaneEnv(env) && ValidProviderDraft(env, d, updating) && ProviderEntry(existing, d, updating).Ok?
    ensures ReadProvider(env, ProviderEntry(existing, d, updating).value) ==
            Some(ExpectedProvider(d, ProviderCredential(existing)))
  {
    var value, c := ProviderValue(Field(existing, "provider"), d.providerType, d.formats), d.credential;
    var shown := if c.mode == Preserve then ApiKeyState(Member(Field(existing, "params"), "apiKey")) else KeyCredential(c);
    var auth := if c.mode == Preserve then AuthState(Member(Field(existing, "defaults"), "auth")) else AuthCredential(c);
    ProviderEntryFields(existing, d, updating);
    ProviderValueReadsBack(env, Field(existing, "provider"), d, updating);
    MergedParamsReadBack(Field(existing, "params"), d.params, c, updating);
    ReadProviderOfParts(env, ProviderEntry(existing, d, updating).value.fields, d, KindOf(Some(value)), shown, auth);
    ProviderPartsRead(env, d, KindOf(Some(value)), shown, auth);
  }

  // ---- A model entry ----

  /** A custom expression the console cannot tell from the one it writes to strip a name's prefix. */
  predicate StripLookalike(env: Env, d: ModelDraft) {
    d.upstream == "custom" && d.expression == StripExpression(env, d.name)
  }

  function ExpectedUpstream(env: Env, d: ModelDraft): (string, string) {
    if StripLookalike(env, d) then ("strip", "") else (d.upstream, d.expression)
  }

  lemma ModelProviderReadsBack(env: Env, doc: Document, existing: Raw, d: ModelDraft, updating: bool)
    requires SaneEnv(env) && ValidModelDraft(env, doc, d, updating)
    ensures var value := Some(ModelProviderValue(existing, d));
            && KindOf(value).Some? && FormatsOf(value) == Some(d.formats)
            && ModeOf(KindOf(value).value) == d.mode && TypeOf(KindOf(value).value) == d.providerType
            && (KindOf(value).value.ReferenceKind? <==> d.mode == "reference")
            && (d.mode == "reference" ==> KindOf(value).value.target == d.reference)
  {
    if d.mode == "reference" {
      ReferenceReadsBack(d.reference);
    } else if d.mode == "custom" {
      CustomReadsBack(existing, d.formats);
    } else {
      BuiltinReadsBack(env, d.providerType);
    }
  }

  lemma TransformationReadsBack(env: Env, existing: Raw, d: ModelDraft)
    requires ValidUpstream(env, d) && MergeTransformation(env, existing, d).Ok?
    ensures UpstreamOf(env, d.name, d.params.model, MergeTransformation(env, existing, d).value) ==
            Some(ExpectedUpstream(env, d))
  {
    var base := (if Configured(existing) then existing.value.fields else map[]) - {"model"};
    if d.upstream == "strip" {
      ExpressionReadsBack(env, d.name, base, StripExpression(env, d.name));
    } else if d.upstream == "custom" {
      ExpressionReadsBack(env, d.name, base, d.expression);
    } else {
      NoExpressionReadsBack(env, d.name, base);
    }
  }

  lemma ExpressionReadsBack(env: Env, name: string, base: Fields, expression: string)
    requires expression != ""
    ensures UpstreamOf(env, name, "", Some(Obj(base["model" := Str(expression)]))) ==
            Some(if expression == StripExpression(env, name) then ("strip", "") else ("custom", expression))
  {
    var f := base["model" := Str(expression)];
    assert "model" in f && f != map[];
  }

  lemma NoExpressionReadsBack(env: Env, name: string, base: Fields)
    requires "model" !in base
    ensures UpstreamOf(env, name, "", if base == map[] then None else Some(Obj(base))) == Some(("incoming", ""))
  {
  }

  lemma ModelPartsRead(
    env: Env, d: ModelDraft, kind: Option<ProviderKind>, shown: CredentialState, transformation: Raw, auth: CredentialState)
    requires d.name != "" && d.visibility in {"public", "internal"} && kind.Some?
    requires ModeOf(kind.value) == d.mode && TypeOf(kind.value) == d.providerType
    requires d.mode == "builtin" ==> d.providerType in env.providerTypes
    requires ValidFormats(env, d.providerType, d.formats)
    requires UpstreamOf(env, d.name, d.params.model, transformation) == Some(ExpectedUpstream(env, d))
    ensures ModelFrom(env, d.name, d.visibility, kind, Some((d.params, shown)), Some(d.formats), transformation, auth) ==
            Some(ModelSetting(
              d.name, d.mode, d.providerType, if kind.value.ReferenceKind? then kind.value.target else "",
              d.params, d.formats, d.visibility, ExpectedUpstream(env, d).0, ExpectedUpstream(env, d).1,
              Combined(shown, auth)))
  {
  }

  lemma ModelAuthReadsBack(f: Fields, c: Credential)
    ensures AuthState(Field(WithModelAuth(f, c), "auth")) ==
            if c.mode == Preserve then AuthState(Field(f, "auth")) else AuthCredential(c)
    ensures forall key :: key != "auth" ==> Field(WithModelAuth(f, c), key) == Field(f, key)
  {
    if c.mode != Preserve { AuthIsStored(c); }
  }

  /** The entry before its credential and visibility are written. */
  lemma ModelBodyFields(existing: Fields, name: Json, value: Json, params: Raw, transformation: Raw, key: string)
    ensures var body := Put(Put(existing["name" := name]["provider" := value], "params", params),
                            "transformation", transformation);
            Field(body, key) ==
            if key == "transformation" then transformation
            else if key == "params" then params
            else if key == "provider" then Some(value)
            else if key == "name" then Some(name)
            else Field(existing, key)
  {
  }

  /** What the fields of a built model entry hold. */
  lemma ModelEntryFields(existing: Fields, d: ModelDraft, params: Raw, transformation: Raw)
    ensures var f, c := BuiltModel(existing, d, params, transformation), d.credential;
            && Field(f, "name") == Some(Str(d.name)) && Field(f, "visibility") == Some(Str(d.visibility))
            && Field(f, "provider") == Some(ModelProviderValue(Field(existing, "provider"), d))
            && Field(f, "params") == params && Field(f, "transformation") == transformation
            && AuthState(Field(f, "auth")) ==
               if c.mode == Preserve then AuthState(Field(existing, "auth")) else AuthCredential(c)
  {
    var value := ModelProviderValue(Field(existing, "provider"), d);
    var named := existing["name" := Str(d.name)]["provider" := value];
    var body := Put(Put(named, "params", params), "transformation", transformation);
    ModelAuthReadsBack(body, d.credential);
    ModelBodyFields(existing, Str(d.name), value, params, transformation, "name");
    ModelBodyFields(existing, Str(d.name), value, params, transformation, "provider");
    ModelBodyFields(existing, Str(d.name), value, params, transformation, "params");
    ModelBodyFields(existing, Str(d.name), value, params, transformation, "transformation");
    ModelBodyFields(existing, Str(d.name), value, params, transformation, "auth");
  }

  lemma ReadModelOfParts(
    env: Env, f: Fields, d: ModelDraft, kind: Option<ProviderKind>, shown: CredentialState, auth: CredentialState)
    requires Field(f, "name") == Some(Str(d.name)) && KindOf(Field(f, "provider")) == kind
    requires Field(f, "visibility") == Some(Str(d.visibility))
    requires FormatsOf(Field(f, "provider")) == Some(d.formats)
    requires ParamsOf(Field(f, "params")) == Some((d.params, shown))
    requires AuthState(Field(f, "auth")) == auth
    ensures ReadModel(env, Obj(f)) ==
            ModelFrom(env, d.name, d.visibility, kind, Some((d.params, shown)), Some(d.formats),
                      Field(f, "transformation"), auth)
  {
    assert ModelFields(Obj(f)) == Some(f);
  }

  function ModelCredential(f: Fields): CredentialState {
    Combined(ApiKeyState(Member(Field(f, "params"), "apiKey")), AuthState(Field(f, "auth")))
  }

  function ExpectedModel(env: Env, d: ModelDraft, kept: CredentialState): ModelSetting {
    ModelSetting(
      d.name, d.mode, d.providerType, if d.mode == "reference" then d.reference else "", d.params, d.formats,
      d.visibility, ExpectedUpstream(env, d).0, ExpectedUpstream(env, d).1, ExpectedCredential(d.credential, kept))
  }

  /** An accepted model draft is read back field for field, but for a look-alike of the strip expression. */
  lemma ModelEntryReadsBack(env: Env, doc: Document, existing: Fields, d: ModelDraft, updating: bool)
    requires SaneEnv(env) && ValidModelDraft(env, doc, d, updating) && ModelEntry(env, existing, d, updating).Ok?
    ensures ReadModel(env, ModelEntry(env, existing, d, updating).value) ==
            Some(ExpectedModel(env, d, ModelCredential(existing)))
  {
    var value, c := ModelProviderValue(Field(existing, "provider"), d), d.credential;
    var shown := if c.mode == Preserve then ApiKeyState(Member(Field(existing, "params"), "apiKey")) else KeyCredential(c);
    var auth := if c.mode == Preserve then AuthState(Field(existing, "auth")) else AuthCredential(c);
    var params := MergeParams(Field(existing, "params"), d.params, c, updating).value;
    var transformation := MergeTransformation(env, Field(existing, "transformation"), d).value;
    ModelEntryFields(existing, d, params, transformation);
    ModelProviderReadsBack(env, doc, Field(existing, "provider"), d, updating);
    MergedParamsReadBack(Field(existing, "params"), d.params, c, updating);
    TransformationReadsBack(env, Field(existing, "transformation"), d);
    ReadModelOfParts(env, BuiltModel(existing, d, params, transformation), d, KindOf(Some(value)), shown, auth);
    ModelPartsRead(env, d, KindOf(Some(value)), shown, transformation, auth);
  }
}
