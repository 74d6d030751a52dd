/** What an accepted change leaves alone: everything the console does not manage. */
module LlmUnowned {
  import opened Text
  import opened JsonTrees
  import opened LlmModel
  import opened LlmConfig
  import opened LlmReadBack
  import opened LlmVerifier

  const PROVIDER_KEYS := {"name", "provider", "params", "defaults"}
  const MODEL_KEYS := {"name", "provider", "params", "transformation", "auth", "visibility"}

  /** A parameter this credential mode and the managed list leave alone. */
  predicate UnownedParam(key: string, c: Credential) {
    key !in MANAGED_KEYS && (key != "apiKey" || c.mode == Preserve)
  }

  /** Writing an object back, or dropping it when empty, shows the same members. */
  lemma MemberOfMerged(f: Fields, key: string)
    ensures Member(if f == map[] then None else Some(Obj(f)), key) == Field(f, key)
  {
  }

  lemma ApiKeyWritesOneKey(f: Fields, c: Credential, key: string)
    requires key != "apiKey" || c.mode == Preserve
    ensures Field(WithApiKey(f, c), key) == Field(f, key)
  {
  }

  lemma UnownedParamsSurvive(existing: Raw, p: Params, c: Credential, updating: bool, key: string)
    requires MergeParams(existing, p, c, updating).Ok? && UnownedParam(key, c)
    ensures Member(MergeParams(existing, p, c, updating).value, key) == Member(existing, key)
  {
    var base := if Configured(existing) then existing.value.fields else map[];
    ParamsKeepOtherKeys(base, p, key);
    ApiKeyWritesOneKey(WithParams(base, p), c, key);
    MemberOfMerged(WithApiKey(WithParams(base, p), c), key);
  }

  lemma TransformationKeysSurvive(env: Env, existing: Raw, d: ModelDraft, key: string)
    requires MergeTransformation(env, existing, d).Ok? && key != "model"
    ensures Member(MergeTransformation(env, existing, d).value, key) == Member(existing, key)
  {
    var base := (if Configured(existing) then existing.value.fields else map[]) - {"model"};
    assert Field(base, key) == Member(existing, key);
    MemberOfMerged(base, key);
    MemberOfMerged(base["model" := Str(StripExpression(env, d.name))], key);
    MemberOfMerged(base["model" := Str(d.expression)], key);
  }

  /** A custom provider keeps every other member of its definition. */
  lemma CustomKeysSurvive(existing: Raw, formats: seq<Format>, key: string)
    requires key != "formats"
    ensures Member(Member(Some(ProviderValue(existing, "custom", formats)), "custom"), key) ==
            Member(Member(existing, "custom"), key)
  {
    var f := ProviderValue(existing, "custom", formats).fields;
    assert "custom" in f;
  }

  lemma ProviderAuthWritesOneKey(f: Fields, c: Credential, key: string)
    requires WithProviderAuth(f, c).Ok? && (key != "auth" || c.mode == Preserve)
    ensures Member(Field(WithProviderAuth(f, c).value, "defaults"), key) == Member(Field(f, "defaults"), key)
  {
    if c.mode != Preserve {
      var defaults := Field(f, "defaults");
      var values := if Configured(defaults) then defaults.value.fields else map[];
      PutAt(values, "auth", CredentialAuth(c), key);
      MemberOfMerged(Put(values, "auth", CredentialAuth(c)), key);
    }
  }

  // ---- One entry ----

  /** How an updated entry agrees with the one it replaces. */
  ghost predicate ProviderSurvives(f: Fields, g: Fields, d: ProviderDraft) {
    && (forall key :: key !in PROVIDER_KEYS ==> Field(g, key) == Field(f, key))
    && (forall key :: UnownedParam(key, d.credential) ==>
          Member(Field(g, "params"), key) == Member(Field(f, "params"), key))
    && (forall key :: key != "auth" || d.credential.mode == Preserve ==>
          Member(Field(g, "defaults"), key) == Member(Field(f, "defaults"), key))
    && (d.providerType == "custom" ==> forall key :: key != "formats" ==>
          Member(Member(Field(g, "provider"), "custom"), key) == Member(Member(Field(f, "provider"), "custom"), key))
  }

  ghost predicate ModelSurvives(f: Fields, g: Fields, d: ModelDraft) {
    && (forall key :: key !in MODEL_KEYS ==> Field(g, key) == Field(f, key))
    && (forall key :: UnownedParam(key, d.credential) ==>
          Member(Field(g, "params"), key) == Member(Field(f, "params"), key))
    && (forall key :: key != "model" ==>
          Member(Field(g, "transformation"), key) == Member(Field(f, "transformation"), key))
    && (d.credential.mode == Preserve ==> Field(g, "auth") == Field(f, "auth"))
    && (d.mode == "custom" ==> forall key :: key != "formats" ==>
          Member(Member(Field(g, "provider"), "custom"), key) == Member(Member(Field(f, "provider"), "custom"), key))
  }

  lemma ProviderEntryKeepsOtherKeys(f: Fields, d: ProviderDraft, updating: bool, key: string)
    requires ProviderEntry(f, d, updating).Ok? && key !in PROVIDER_KEYS
    ensures Field(ProviderEntry(f, d, updating).value.fields, key) == Field(f, key)
  {
    var params := MergeParams(Field(f, "params"), d.params, d.credential, updating).value;
    var named := f["name" := Str(d.name)]["provider" := ProviderValue(Field(f, "provider"), d.providerType, d.formats)];
    ProviderAuthReadsBack(Put(named, "params", params), d.credential);
    PutAt(named, "params", params, key);
  }

  lemma ProviderEntryKeepsDefaults(f: Fields, d: ProviderDraft, updating: bool, key: string)
    requires ProviderEntry(f, d, updating).Ok? && (key != "auth" || d.credential.mode == Preserve)
    ensures Member(Field(ProviderEntry(f, d, updating).value.fields, "defaults"), key) == Member(Field(f, "defaults"), key)
  {
    var params := MergeParams(Field(f, "params"), d.params, d.credential, updating).value;
    var named := f["name" := Str(d.name)]["provider" := ProviderValue(Field(f, "provider"), d.providerType, d.formats)];
    ProviderAuthWritesOneKey(Put(named, "params", params), d.credential, key);
    PutAt(named, "params", params, "defaults");
  }

  lemma ProviderEntrySurvives(f: Fields, d: ProviderDraft)
    requires ProviderEntry(f, d, true).Ok?
    ensures ProviderSurvives(f, ProviderEntry(f, d, true).value.fields, d)
  {
    var g := ProviderEntry(f, d, true).value.fields;
    ProviderEntryFields(f, d, true);
    forall key | key !in PROVIDER_KEYS ensures Field(g, key) == Field(f, key) {
      ProviderEntryKeepsOtherKeys(f, d, true, key);
    }
    forall key | UnownedParam(key, d.credential)
      ensures Member(Field(g, "params"), key) == Member(Field(f, "params"), key)
    {
      UnownedParamsSurvive(Field(f, "params"), d.params, d.credential, true, key);
    }
    forall key | key != "auth" || d.credential.mode == Preserve
      ensures Member(Field(g, "defaults"), key) == Member(Field(f, "defaults"), key)
    {
      ProviderEntryKeepsDefaults(f, d, true, key);
    }
    if d.providerType == "custom" {
      forall key | key != "formats"
        ensures Member(Member(Field(g, "provider"), "custom"), key) == Member(Member(Field(f, "provider"), "custom"), key)
      {
        CustomKeysSurvive(Field(f, "provider"), d.formats, key);
      }
    }
  }

  lemma ModelEntryKeepsOtherKeys(f: Fields, d: ModelDraft, params: Raw, transformation: Raw, key: string)
    requires key !in MODEL_KEYS || (key == "auth" && d.credential.mode == Preserve)
    ensures Field(BuiltModel(f, d, params, transformation), key) == Field(f, key)
  {
    var value := ModelProviderValue(Field(f, "provider"), d);
    ModelBodyFields(f, Str(d.name), value, params, transformation, key);
  }

  lemma ModelEntrySurvives(env: Env, f: Fields, d: ModelDraft)
    requires ModelEntry(env, f, d, true).Ok?
    ensures ModelSurvives(f, ModelEntry(env, f, d, true).value.fields, d)
  {
    var params := MergeParams(Field(f, "params"), d.params, d.credential, true).value;
    var transformation := MergeTransformation(env, Field(f, "transformation"), d).value;
    var g := BuiltModel(f, d, params, transformation);
    ModelEntryFields(f, d, params, transformation);
    forall key | key !in MODEL_KEYS || (key == "auth" && d.credential.mode == Preserve)
      ensures Field(g, key) == Field(f, key)
    {
      ModelEntryKeepsOtherKeys(f, d, params, transformation, key);
    }
    forall key | UnownedParam(key, d.credential)
      ensures Member(Field(g, "params"), key) == Member(Field(f, "params"), key)
    {
      UnownedParamsSurvive(Field(f, "params"), d.params, d.credential, true, key);
    }
    forall key | key != "model"
      ensures Member(Field(g, "transformation"), key) == Member(Field(f, "transformation"), key)
    {
      TransformationKeysSurvive(env, Field(f, "transformation"), d, key);
    }
    if d.mode == "custom" {
      forall key | key != "formats"
        ensures Member(Member(Field(g, "provider"), "custom"), key) == Member(Member(Field(f, "provider"), "custom"), key)
      {
        CustomKeysSurvive(Field(f, "provider"), d.formats, key);
      }
    }
  }

  // ---- The document ----

  /** An accepted provider update rewrites one entry, and of that only what the console manages. */
  lemma UpdateProviderKeepsUnowned(env: Env, doc: Document, id: string, d: ProviderDraft, after: Document)
    returns (i: nat, f: Fields, g: Fields)
    requires ApplyUpdateProvider(env, doc, id, d) == Ok(after)
    ensures FindProvider(doc, id) == Some(i) && i < |doc.providers| && EntryFields(doc.providers[i]) == Some(f)
    ensures after == doc.(providers := doc.providers[i := Obj(g)])
    ensures ProviderSurvives(f, g, d)
  {
    i, f := UpdatedProvider(env, doc, id, d, after);
    g := ProviderEntry(f, d, true).value.fields;
    ProviderEntrySurvives(f, d);
  }

  lemma UpdateModelKeepsUnowned(env: Env, doc: Document, id: string, d: ModelDraft, after: Document)
    returns (i: nat, f: Fields, g: Fields)
    requires ApplyUpdateModel(env, doc, id, d) == Ok(after)
    ensures FindModel(doc, id) == Some(i) && i < |doc.models| && ModelFields(doc.models[i]) == Some(f)
    ensures after == doc.(models := doc.models[i := Obj(g)])
    ensures ModelSurvives(f, g, d)
  {
    i, f := UpdatedModel(env, doc, id, d, after);
    g := ModelEntry(env, f, d, true).value.fields;
    ModelEntrySurvives(env, f, d);
  }

  /** No change of any kind touches another section of the file, another member of the LLM section, or a
      virtual model. */
  lemma OtherSectionsSurvive(env: Env, doc: Document, change: Change, after: Document, key: string)
    requires Apply(env, doc, change) == Ok(after)
    ensures after.virtuals == doc.virtuals
    ensures var written, before := Encode(after).fields, Encode(doc).fields;
            && (key != "llm" ==> Field(written, key) == Field(before, key))
            && (key !in {"providers", "models"} ==>
                  Member(Field(written, "llm"), key) == Member(Field(before, "llm"), key))
  {
    FrameOf(env, doc, change, after);
    EncodedKey(doc, key);
    EncodedKey(after, key);
  }

  lemma FrameOf(env: Env, doc: Document, change: Change, after: Document)
    requires Apply(env, doc, change) == Ok(after)
    ensures after.root == doc.root && after.llm == doc.llm && after.virtuals == doc.virtuals
  {
    match change
    case CreateProvider(d) => CreatedProvider(env, doc, d, after);
    case UpdateProvider(id, d) => var i, f := UpdatedProvider(env, doc, id, d, after);
    case CreateModel(d) => CreatedModel(env, doc, d, after);
    case UpdateModel(id, d) => var i, f := UpdatedModel(env, doc, id, d, after);
    case DeleteProvider(id, cascade) => var i, name := DeletedProvider(doc, id, cascade, after);
    case DeleteModel(id) => var i, name := DeletedModel(doc, id, after);
  }

  lemma EncodedKey(doc: Document, key: string)
    ensures key != "llm" ==> Field(Encode(doc).fields, key) == Field(doc.root, key)
    ensures Member(Field(Encode(doc).fields, "llm"), key) ==
            if key == "virtualModels" then Some(Arr(doc.virtuals))
            else if key == "models" then Some(Arr(doc.models))
            else if key == "providers" then Some(Arr(doc.providers))
            else Field(doc.llm, key)
  {
  }
}
