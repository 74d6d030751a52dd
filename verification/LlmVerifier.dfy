/** The read-back verifier against the six operations: for which accepted changes does it confirm the write? */
module LlmVerifier {
  import opened Text
  import opened JsonTrees
  import opened LlmModel
  import opened LlmConfig
  import opened LlmReadBack
  import opened Decimal
  import opened Paths
  import opened Collections

  // ---- IDs ----

  lemma IdsAreDistinct(list: string, i: nat, j: nat)
    requires SlashFree(list) && PathId(["llm", list, Digits(i)]) == PathId(["llm", list, Digits(j)])
    ensures i == j
  {
    var a, b := ["llm", list, Digits(i)], ["llm", list, Digits(j)];
    DigitsAreSlashFree(i);
    DigitsAreSlashFree(j);
    PathIdIsInjective(a, b);
    assert a[2] == b[2];
    DigitsAreInjective(i, j);
  }

  /** The ID shown for a provider leads back to that provider. */
  lemma ProviderIsLocated(doc: Document, i: nat)
    requires i < |doc.providers|
    ensures FindProvider(doc, ProviderId(i)) == Some(i)
  {
    var found := FindProvider(doc, ProviderId(i));
    if found.Some? { IdsAreDistinct("providers", found.value, i); }
  }

  lemma ModelIsLocated(doc: Document, i: nat)
    requires i < |doc.models|
    ensures FindModel(doc, ModelId(i)) == Some(i)
  {
    var found := FindModel(doc, ModelId(i));
    if found.Some? { IdsAreDistinct("models", found.value, i); }
  }

  // ---- What an accepted change did ----

  lemma CreatedProvider(env: Env, doc: Document, d: ProviderDraft, after: Document)
    requires ApplyCreateProvider(env, doc, d) == Ok(after)
    ensures ValidProviderDraft(env, d, false) && !NameExists(doc.providers, d.name, -1)
    ensures ProviderEntry(map[], d, false).Ok?
    ensures after == doc.(providers := doc.providers + [ProviderEntry(map[], d, false).value])
  {
  }

  lemma UpdatedProvider(env: Env, doc: Document, id: string, d: ProviderDraft, after: Document)
    returns (i: nat, f: Fields)
    requires ApplyUpdateProvider(env, doc, id, d) == Ok(after)
    ensures FindProvider(doc, id) == Some(i) && i < |doc.providers|
    ensures EntryFields(doc.providers[i]) == Some(f)
    ensures ValidProviderDraft(env, d, true) && !NameExists(doc.providers, d.name, i)
    ensures ProviderEntry(f, d, true).Ok?
    ensures after == doc.(providers := doc.providers[i := ProviderEntry(f, d, true).value])
    ensures EntryName(doc.providers[i]) != Some(d.name) ==>
              !ProviderReferenced(doc.models, EntryName(doc.providers[i]).value)
  {
    i := FindProvider(doc, id).value;
    f := EntryFields(doc.providers[i]).value;
  }

  lemma DeletedProvider(doc: Document, id: string, cascade: bool, after: Document)
    returns (i: nat, name: string)
    requires ApplyDeleteProvider(doc, id, cascade) == Ok(after)
    ensures FindProvider(doc, id) == Some(i) && i < |doc.providers| && EntryName(doc.providers[i]) == Some(name)
    ensures !CascadeBlocked(doc, name) && (ProviderReferenced(doc.models, name) ==> cascade)
    ensures after == doc.(models := WithoutReferences(doc.models, name), providers := Without(doc.providers, i))
  {
    i := FindProvider(doc, id).value;
    name := EntryName(doc.providers[i]).value;
  }

  lemma CreatedModel(env: Env, doc: Document, d: ModelDraft, after: Document)
    requires ApplyCreateModel(env, doc, d) == Ok(after)
    ensures ValidModelDraft(env, doc, d, false) && !ModelNameExists(doc.models, d.name, -1)
    ensures ModelEntry(env, map[], d, false).Ok?
    ensures after == doc.(models := doc.models + [ModelEntry(env, map[], d, false).value])
  {
  }

  lemma UpdatedModel(env: Env, doc: Document, id: string, d: ModelDraft, after: Document)
    returns (i: nat, f: Fields)
    requires ApplyUpdateModel(env, doc, id, d) == Ok(after)
    ensures FindModel(doc, id) == Some(i) && i < |doc.models|
    ensures ReadModel(env, doc.models[i]).Some? && ModelFields(doc.models[i]) == Some(f)
    ensures var current := ReadModel(env, doc.models[i]).value;
            && current.mode == d.mode && current.providerType == d.providerType && current.reference == d.reference
            && (current.name != d.name ==> !ModelReferenced(doc.virtuals, current.name))
    ensures ValidModelDraft(env, doc, d, true) && !ModelNameExists(doc.models, d.name, i)
    ensures ModelEntry(env, f, d, true).Ok?
    ensures after == doc.(models := doc.models[i := ModelEntry(env, f, d, true).value])
  {
    i := FindModel(doc, id).value;
    f := ModelFields(doc.models[i]).value;
  }

  lemma DeletedModel(doc: Document, id: string, after: Document) returns (i: nat, name: string)
    requires ApplyDeleteModel(doc, id) == Ok(after)
    ensures FindModel(doc, id) == Some(i) && i < |doc.models| && ModelName(doc.models[i]) == Some(name)
    ensures !ModelReferenced(doc.virtuals, name)
    ensures after == doc.(models := Without(doc.models, i))
  {
    i := FindModel(doc, id).value;
    name := ModelName(doc.models[i]).value;
  }

  // ---- Names of readable entries ----

  lemma ProviderNameRead(env: Env, entry: Json)
    requires ReadProvider(env, entry).Some?
    ensures EntryName(entry) == Some(ReadProvider(env, entry).value.name) && EntryName(entry) != Some("")
  {
  }

  lemma ModelNameRead(env: Env, entry: Json)
    requires ReadModel(env, entry).Some?
    ensures ModelName(entry) == Some(ReadModel(env, entry).value.name) && ModelName(entry) != Some("")
  {
  }

  lemma ModelReferenceRead(env: Env, entry: Json)
    requires ReadModel(env, entry).Some?
    ensures ModelReference(entry) == Some(ReadModel(env, entry).value.reference)
    ensures ReadModel(env, entry).value.reference != "" ==> ReadModel(env, entry).value.mode == "reference"
  {
  }

  lemma {:induction false} OnlyProviderMatches(items: seq<ProviderSetting>, d: ProviderDraft, i: nat)
    requires i < |items| && items[i].name == d.name
    requires forall j :: 0 <= j < i ==> items[j].name != d.name
    ensures FirstProviderMatches(items, d) <==> ProviderMatches(items[i], d)
  {
    if i > 0 { OnlyProviderMatches(items[1..], d, i - 1); }
  }

  lemma {:induction false} OnlyModelMatches(items: seq<ModelSetting>, d: ModelDraft, i: nat)
    requires i < |items| && items[i].name == d.name
    requires forall j :: 0 <= j < i ==> items[j].name != d.name
    ensures FirstModelMatches(items, d) <==> ModelMatches(items[i], d)
  {
    if i > 0 { OnlyModelMatches(items[1..], d, i - 1); }
  }

  // ---- Creating and updating ----

  /** `after` is `before` with `entry` written at `i`, which may be one past the end. */
  predicate WrittenAt(before: seq<Json>, after: seq<Json>, i: nat, entry: Json) {
    && i < |after| && |before| <= |after| <= |before| + 1 && (|after| > |before| ==> i == |before|)
    && after[i] == entry && forall j :: 0 <= j < |after| && j != i ==> after[j] == before[j]
  }

  lemma WrittenProviderReads(env: Env, doc: Document, after: Document, i: nat, entry: Json)
    requires Readable(env, doc) && after == doc.(providers := after.providers)
    requires WrittenAt(doc.providers, after.providers, i, entry) && ReadProvider(env, entry).Some?
    ensures Readable(env, after)
  {
  }

  lemma WrittenModelReads(env: Env, doc: Document, after: Document, i: nat, entry: Json)
    requires Readable(env, doc) && after == doc.(models := after.models)
    requires WrittenAt(doc.models, after.models, i, entry) && ReadModel(env, entry).Some?
    ensures Readable(env, after)
  {
  }

  /** The one provider of the draft's name verifies unless its secret looks like a variable's name. */
  lemma ProviderAtVerifies(
    env: Env, doc: Document, i: nat, d: ProviderDraft, kept: CredentialState, updating: bool)
    requires Readable(env, doc) && i < |doc.providers|
    requires ReadProvider(env, doc.providers[i]) == Some(ExpectedProvider(d, kept))
    requires !NameExists(doc.providers, d.name, i) && ValidCredential(d.credential, updating)
    ensures FirstProviderMatches(Sanitize(env, doc).value.providers, d) <==> !DollarLiteral(d.credential)
  {
    var items := Sanitize(env, doc).value.providers;
    forall j | 0 <= j < i ensures items[j].name != d.name {
      ProviderNameRead(env, doc.providers[j]);
    }
    OnlyProviderMatches(items, d, i);
    if d.credential.mode != Preserve { CredentialReadsBack(d.credential, updating); }
  }

  lemma CreateProviderVerifies(env: Env, doc: Document, d: ProviderDraft, after: Document)
    requires SaneEnv(env) && Readable(env, doc) && ApplyCreateProvider(env, doc, d) == Ok(after)
    ensures Readable(env, after)
    ensures FirstProviderMatches(Sanitize(env, after).value.providers, d) <==> !DollarLiteral(d.credential)
  {
    CreatedProvider(env, doc, d, after);
    ProviderEntryReadsBack(env, map[], d, false);
    WrittenProviderReads(env, doc, after, |doc.providers|, ProviderEntry(map[], d, false).value);
    ProviderAtVerifies(env, after, |doc.providers|, d, ProviderCredential(map[]), false);
  }

  lemma UpdateProviderVerifies(env: Env, doc: Document, id: string, d: ProviderDraft, after: Document)
    requires SaneEnv(env) && Readable(env, doc) && ApplyUpdateProvider(env, doc, id, d) == Ok(after)
    ensures Readable(env, after)
    ensures FirstProviderMatches(Sanitize(env, after).value.providers, d) <==> !DollarLiteral(d.credential)
  {
    var i, f := UpdatedProvider(env, doc, id, d, after);
    ProviderEntryReadsBack(env, f, d, true);
    WrittenProviderReads(env, doc, after, i, ProviderEntry(f, d, true).value);
    ProviderAtVerifies(env, after, i, d, ProviderCredential(f), true);
  }

  /** A reference the verifier compares but an embedded provider has no place for. */
  predicate StrayReference(d: ModelDraft) {
    d.mode != "reference" && d.reference != ""
  }

  predicate ModelAmbiguous(env: Env, d: ModelDraft) {
    DollarLiteral(d.credential) || StripLookalike(env, d) || StrayReference(d)
  }

  lemma ModelAtVerifies(
    env: Env, doc: Document, i: nat, d: ModelDraft, kept: CredentialState, updating: bool)
    requires Readable(env, doc) && i < |doc.models|
    requires ReadModel(env, doc.models[i]) == Some(ExpectedModel(env, d, kept))
    requires !ModelNameExists(doc.models, d.name, i) && ValidCredential(d.credential, updating)
    ensures FirstModelMatches(Sanitize(env, doc).value.models, d) <==> !ModelAmbiguous(env, d)
  {
    var items := Sanitize(env, doc).value.models;
    forall j | 0 <= j < i ensures items[j].name != d.name {
      ModelNameRead(env, doc.models[j]);
    }
    OnlyModelMatches(items, d, i);
    if d.credential.mode != Preserve { CredentialReadsBack(d.credential, updating); }
  }

  /** A model entry written where no other model has its name. */
  lemma WrittenModelVerifies(
    env: Env, doc: Document, after: Document, i: nat, existing: Fields, d: ModelDraft, updating: bool)
    requires SaneEnv(env) && Readable(env, doc) && after == doc.(models := after.models)
    requires ValidModelDraft(env, doc, d, updating) && ModelEntry(env, existing, d, updating).Ok?
    requires WrittenAt(doc.models, after.models, i, ModelEntry(env, existing, d, updating).value)
    requires !ModelNameExists(doc.models, d.name, i)
    ensures Readable(env, after)
    ensures FirstModelMatches(Sanitize(env, after).value.models, d) <==> !ModelAmbiguous(env, d)
  {
    ModelEntryReadsBack(env, doc, existing, d, updating);
    WrittenModelReads(env, doc, after, i, ModelEntry(env, existing, d, updating).value);
    ModelAtVerifies(env, after, i, d, ModelCredential(existing), updating);
  }

  lemma CreateModelVerifies(env: Env, doc: Document, d: ModelDraft, after: Document)
    requires SaneEnv(env) && Readable(env, doc) && ApplyCreateModel(env, doc, d) == Ok(after)
    ensures Readable(env, after)
    ensures FirstModelMatches(Sanitize(env, after).value.models, d) <==> !ModelAmbiguous(env, d)
  {
    CreatedModel(env, doc, d, after);
    WrittenModelVerifies(env, doc, after, |doc.models|, map[], d, false);
  }

  lemma UpdateModelVerifies(env: Env, doc: Document, id: string, d: ModelDraft, after: Document)
    requires SaneEnv(env) && Readable(env, doc) && ApplyUpdateModel(env, doc, id, d) == Ok(after)
    ensures Readable(env, after)
    ensures FirstModelMatches(Sanitize(env, after).value.models, d) <==> !ModelAmbiguous(env, d)
  {
    var i, f := UpdatedModel(env, doc, id, d, after);
    WrittenModelVerifies(env, doc, after, i, f, d, true);
  }

  // ---- Deleting ----

  lemma {:induction false} WithoutReferencesKeeps(models: seq<Json>, name: string)
    ensures forall m :: m in WithoutReferences(models, name) <==> m in models && !RefersTo(m, name)
  {
    if models != [] {
      WithoutReferencesKeeps(models[1..], name);
      assert models == [models[0]] + models[1..];
    }
  }

  lemma WithoutKeeps<T>(s: seq<T>, i: nat)
    requires i < |s|
    ensures forall x :: x in Without(s, i) <==> exists j :: 0 <= j < |s| && j != i && s[j] == x
  {
    var rest := Without(s, i);
    forall j | 0 <= j < |s| && j != i ensures s[j] in rest {
      assert rest[if j < i then j else j - 1] == s[j];
    }
    forall k | 0 <= k < |rest| ensures exists j :: 0 <= j < |s| && j != i && s[j] == rest[k] {
      assert s[if k < i then k else k + 1] == rest[k];
    }
  }

  predicate ProvidersRead(env: Env, entries: seq<Json>) {
    forall e :: e in entries ==> ReadProvider(env, e).Some?
  }

  predicate ModelsRead(env: Env, entries: seq<Json>) {
    forall e :: e in entries ==> ReadModel(env, e).Some?
  }

  lemma ReadableEntries(env: Env, doc: Document)
    ensures Readable(env, doc) <==>
            ProvidersRead(env, doc.providers) && ModelsRead(env, doc.models)
            && forall i :: 0 <= i < |doc.virtuals| ==> ReadableVirtual(doc.virtuals[i])
  {
  }

  /** No provider listed has the name, exactly when no entry has it. */
  lemma ProviderNamesListed(env: Env, doc: Document, name: string)
    requires Readable(env, doc)
    ensures (forall j :: 0 <= j < |doc.providers| ==> Sanitize(env, doc).value.providers[j].name != name) <==>
            (forall e :: e in doc.providers ==> EntryName(e) != Some(name))
  {
    var items := Sanitize(env, doc).value.providers;
    forall j | 0 <= j < |doc.providers| ensures EntryName(doc.providers[j]) == Some(items[j].name) {
      ProviderNameRead(env, doc.providers[j]);
    }
  }

  lemma ModelNamesListed(env: Env, doc: Document, name: string)
    requires Readable(env, doc)
    ensures (forall j :: 0 <= j < |doc.models| ==> Sanitize(env, doc).value.models[j].name != name) <==>
            (forall e :: e in doc.models ==> ModelName(e) != Some(name))
  {
    var items := Sanitize(env, doc).value.models;
    forall j | 0 <= j < |doc.models| ensures ModelName(doc.models[j]) == Some(items[j].name) {
      ModelNameRead(env, doc.models[j]);
    }
  }

  lemma NoReferenceListed(env: Env, doc: Document, name: string)
    requires Readable(env, doc) && forall m :: m in doc.models ==> !RefersTo(m, name)
    ensures forall j :: 0 <= j < |doc.models| ==> Sanitize(env, doc).value.models[j].reference != name
  {
    forall j | 0 <= j < |doc.models| ensures Sanitize(env, doc).value.models[j].reference != name {
      assert doc.models[j] in doc.models;
      ModelReferenceRead(env, doc.models[j]);
    }
  }

  /** What is left once a provider and every model that refers to its name are gone. */
  lemma RemovedProviderVerifies(env: Env, doc: Document, i: nat, name: string)
    requires Readable(env, doc) && i < |doc.providers|
    ensures var after := doc.(models := WithoutReferences(doc.models, name), providers := Without(doc.providers, i));
            && Readable(env, after)
            && ((forall j :: 0 <= j < |after.providers| ==> Sanitize(env, after).value.providers[j].name != name) <==>
                !NameExists(doc.providers, name, i))
            && forall j :: 0 <= j < |after.models| ==> Sanitize(env, after).value.models[j].reference != name
  {
    var after := doc.(models := WithoutReferences(doc.models, name), providers := Without(doc.providers, i));
    WithoutReferencesKeeps(doc.models, name);
    WithoutKeeps(doc.providers, i);
    ReadableEntries(env, doc);
    ReadableEntries(env, after);
    NoReferenceListed(env, after, name);
    ProviderNamesListed(env, after, name);
  }

  lemma DeleteProviderVerifies(env: Env, doc: Document, id: string, cascade: bool, after: Document)
    returns (i: nat, name: string)
    requires Readable(env, doc) && ApplyDeleteProvider(doc, id, cascade) == Ok(after)
    ensures FindProvider(doc, id) == Some(i) && i < |doc.providers| && EntryName(doc.providers[i]) == Some(name)
    ensures Readable(env, after) && name != ""
    ensures Verified(Sanitize(env, after).value, DeleteProvider(id, cascade), name) <==>
            !NameExists(doc.providers, name, i)
  {
    i, name := DeletedProvider(doc, id, cascade, after);
    ProviderNameRead(env, doc.providers[i]);
    RemovedProviderVerifies(env, doc, i, name);
  }

  lemma RemovedModelVerifies(env: Env, doc: Document, i: nat, name: string)
    requires Readable(env, doc) && i < |doc.models|
    ensures var after := doc.(models := Without(doc.models, i));
            && Readable(env, after)
            && ((forall j :: 0 <= j < |after.models| ==> Sanitize(env, after).value.models[j].name != name) <==>
                !ModelNameExists(doc.models, name, i))
  {
    var after := doc.(models := Without(doc.models, i));
    WithoutKeeps(doc.models, i);
    ReadableEntries(env, doc);
    ReadableEntries(env, after);
    ModelNamesListed(env, after, name);
  }

  lemma DeleteModelVerifies(env: Env, doc: Document, id: string, after: Document) returns (i: nat, name: string)
    requires Readable(env, doc) && ApplyDeleteModel(doc, id) == Ok(after)
    ensures FindModel(doc, id) == Some(i) && i < |doc.models| && ModelName(doc.models[i]) == Some(name)
    ensures Readable(env, after) && name != ""
    ensures Verified(Sanitize(env, after).value, DeleteModel(id), name) <==> !ModelNameExists(doc.models, name, i)
  {
    i, name := DeletedModel(doc, id, after);
    ModelNameRead(env, doc.models[i]);
    RemovedModelVerifies(env, doc, i, name);
  }

  /** An accepted update cannot carry a stray reference: the entry it replaces has none. */
  lemma UpdatesHaveNoStrayReference(env: Env, doc: Document, id: string, d: ModelDraft, after: Document)
    requires ApplyUpdateModel(env, doc, id, d) == Ok(after)
    ensures !StrayReference(d)
  {
    var i, f := UpdatedModel(env, doc, id, d, after);
    ModelReferenceRead(env, doc.models[i]);
  }

  // ---- The theorem ----

  /** The accepted changes the verifier cannot confirm, decided by the change and the document alone. */
  predicate Ambiguous(env: Env, doc: Document, change: Change) {
    match change
    case CreateProvider(d) => DollarLiteral(d.credential)
    case UpdateProvider(_, d) => DollarLiteral(d.credential)
    case CreateModel(d) => DollarLiteral(d.credential) || StripLookalike(env, d) || StrayReference(d)
    case UpdateModel(_, d) => DollarLiteral(d.credential) || StripLookalike(env, d)
    case DeleteProvider(id, _) =>
      var i := FindProvider(doc, id);
      i.Some? && EntryName(doc.providers[i.value]).Some?
      && NameExists(doc.providers, EntryName(doc.providers[i.value]).value, i.value)
    case DeleteModel(id) =>
      var i := FindModel(doc, id);
      i.Some? && ModelName(doc.models[i.value]).Some?
      && ModelNameExists(doc.models, ModelName(doc.models[i.value]).value, i.value)
  }

  lemma DeletedProviderTarget(env: Env, doc: Document, id: string, cascade: bool, i: nat, name: string)
    requires FindProvider(doc, id) == Some(i) && i < |doc.providers|
    requires EntryName(doc.providers[i]) == Some(name) && name != ""
    ensures TargetName(doc, DeleteProvider(id, cascade)) == Ok(name)
    ensures Ambiguous(env, doc, DeleteProvider(id, cascade)) <==> NameExists(doc.providers, name, i)
  {
  }

  lemma DeletedModelTarget(env: Env, doc: Document, id: string, i: nat, name: string)
    requires FindModel(doc, id) == Some(i) && i < |doc.models|
    requires ModelName(doc.models[i]) == Some(name) && name != ""
    ensures TargetName(doc, DeleteModel(id)) == Ok(name)
    ensures Ambiguous(env, doc, DeleteModel(id)) <==> ModelNameExists(doc.models, name, i)
  {
  }

  /** Every accepted change to a readable document leaves a readable one, and the verifier confirms it exactly
      when it is not one of the ambiguous ones. */
  lemma ChangeVerifiesUnlessAmbiguous(env: Env, doc: Document, change: Change, after: Document)
    requires SaneEnv(env) && Readable(env, doc) && Apply(env, doc, change) == Ok(after)
    ensures TargetName(doc, change).Ok? && Readable(env, after)
    ensures Verified(Sanitize(env, after).value, change, TargetName(doc, change).value) <==> !Ambiguous(env, doc, change)
  {
    match change
    case CreateProvider(d) => CreateProviderVerifies(env, doc, d, after);
    case UpdateProvider(id, d) => UpdateProviderVerifies(env, doc, id, d, after);
    case CreateModel(d) => CreateModelVerifies(env, doc, d, after);
    case UpdateModel(id, d) =>
      UpdateModelVerifies(env, doc, id, d, after);
      UpdatesHaveNoStrayReference(env, doc, id, d, after);
    case DeleteProvider(id, cascade) =>
      var i, name := DeleteProviderVerifies(env, doc, id, cascade, after);
      DeletedProviderTarget(env, doc, id, cascade, i, name);
    case DeleteModel(id) =>
      var i, name := DeleteModelVerifies(env, doc, id, after);
      DeletedModelTarget(env, doc, id, i, name);
  }

  /** The whole round trip: the document is written, decoded again, sanitized and compared with the change. */
  lemma ReadBackIsComplete(env: Env, doc: Document, change: Change, after: Document)
    requires SaneEnv(env) && Readable(env, doc) && Apply(env, doc, change) == Ok(after)
    ensures var back := Decode(Encode(after));
            && back.Some? && Sanitize(env, back.value).Some? && TargetName(doc, change).Ok?
            && (Verified(Sanitize(env, back.value).value, change, TargetName(doc, change).value) <==>
                !Ambiguous(env, doc, change))
  {
    ChangeVerifiesUnlessAmbiguous(env, doc, change, after);
    EncodeThenDecode(after);
    SanitizeSeesEntries(env, after, Decode(Encode(after)).value);
  }

  lemma SanitizeSeesEntries(env: Env, a: Document, b: Document)
    requires a.providers == b.providers && a.models == b.models && a.virtuals == b.virtuals
    ensures Sanitize(env, a) == Sanitize(env, b)
  {
    if Readable(env, a) {
      assert Sanitize(env, a).value.providers == Sanitize(env, b).value.providers;
      assert Sanitize(env, a).value.models == Sanitize(env, b).value.models;
    }
  }

  lemma StrayReferenceIsIgnored(env: Env, d: ModelDraft, stray: string)
    requires d.mode != "reference"
    ensures ModelEntry(env, map[], d.(reference := stray), false) == ModelEntry(env, map[], d, false)
  {
  }

  /** The operation never looks at a stray reference, so it accepts what its verifier will refuse. */
  lemma StrayReferenceIsAccepted(env: Env, doc: Document, d: ModelDraft, stray: string)
    requires ApplyCreateModel(env, doc, d).Ok? && d.mode != "reference" && stray != ""
    ensures ApplyCreateModel(env, doc, d.(reference := stray)).Ok?
    ensures Ambiguous(env, doc, CreateModel(d.(reference := stray)))
  {
    StrayReferenceIsIgnored(env, d, stray);
    assert ValidModelDraft(env, doc, d.(reference := stray), false);
  }

  lemma DollarIsValid(providerType: string, c: Credential)
    requires ValidProviderCredential(providerType, c, false) && c.mode == Literal
    ensures ValidProviderCredential(providerType, c.(secret := "$"), false)
  {
    assert TrimLeft("$") == "$" && TrimRight("$") == "$";
  }

  lemma DollarEntryIsBuilt(d: ProviderDraft)
    requires ProviderEntry(map[], d, false).Ok? && d.credential.mode == Literal
    ensures ProviderEntry(map[], d.(credential := d.credential.(secret := "$")), false).Ok?
  {
  }

  lemma DollarLiteralIsAccepted(env: Env, doc: Document, d: ProviderDraft)
    requires ApplyCreateProvider(env, doc, d).Ok? && d.credential.mode == Literal
    ensures var dollar := d.(credential := d.credential.(secret := "$"));
            ApplyCreateProvider(env, doc, dollar).Ok? && Ambiguous(env, doc, CreateProvider(dollar))
  {
    DollarIsValid(d.providerType, d.credential);
    var dollar := d.(credential := d.credential.(secret := "$"));
    assert ValidProviderDraft(env, dollar, false);
    CreatedProvider(env, doc, d, ApplyCreateProvider(env, doc, d).value);
    DollarEntryIsBuilt(d);
  }

  lemma LookalikeIsBuilt(env: Env, d: ModelDraft)
    requires ModelEntry(env, map[], d, false).Ok?
    ensures ModelEntry(env, map[], d.(upstream := "custom", expression := StripExpression(env, d.name)), false).Ok?
  {
  }

  lemma {:induction false} FirstPrefixIsShort(name: string)
    ensures |FirstPrefix(name)| <= |name|
  {
    if name != "" && name[0] != '/' { FirstPrefixIsShort(name[1..]); }
  }

  lemma StripExpressionIsPlain(env: Env, name: string)
    requires QuotesLikeGo(env) && |name| <= 256 && StripExpression(env, name) != ""
    ensures var e := StripExpression(env, name); Trim(e) == e && |e| <= 4096 && '\0' !in e
  {
    FirstPrefixIsShort(name);
    var e, quoted := StripExpression(env, name), env.quote(FirstPrefix(name));
    var head := "llmRequest.model.stripPrefix(";
    assert e == head + quoted + ")";
    assert e[0] == 'l' && e[|e| - 1] == ')';
    assert '\0' !in head && '\0' !in ")" && '\0' !in quoted;
  }

  /** Whoever may strip a prefix may as well write that expression as a custom one, which then reads back as strip. */
  lemma LookalikeIsAccepted(env: Env, doc: Document, d: ModelDraft)
    requires QuotesLikeGo(env) && ApplyCreateModel(env, doc, d).Ok? && d.upstream == "strip"
    ensures var lookalike := d.(upstream := "custom", expression := StripExpression(env, d.name));
            ApplyCreateModel(env, doc, lookalike).Ok? && Ambiguous(env, doc, CreateModel(lookalike))
  {
    var lookalike := d.(upstream := "custom", expression := StripExpression(env, d.name));
    CreatedModel(env, doc, d, ApplyCreateModel(env, doc, d).value);
    LookalikeIsBuilt(env, d);
    StripExpressionIsPlain(env, d.name);
    assert ValidUpstream(env, lookalike);
    assert ValidModelDraft(env, doc, lookalike, false);
  }

  // ---- Concrete changes ----

  const NOTHING := Document(map[], map[], [], [], [])
  const AMBIENT := Credential(Ambient, "", "", "", "", "", "")
  const PROVIDER := ProviderDraft("p", "openai", NO_PARAMS, [], AMBIENT)
  const DOLLAR := PROVIDER.(credential := AMBIENT.(mode := Literal, secret := "$key"))
  const MODEL := ModelDraft("m", "builtin", "openai", "", NO_PARAMS, [], "public", "incoming", "", AMBIENT)
  const STRAY := MODEL.(reference := "p")

  lemma SampleNames()
    ensures ValidName("p") && ValidName("m") && Trim("$key") == "$key"
  {
    assert TrimLeft("p") == "p" && TrimRight("p") == "p";
    assert TrimLeft("m") == "m" && TrimRight("m") == "m";
    assert TrimLeft("$key") == "$key" && TrimRight("$key") == "$key";
  }

  lemma SampleDrafts(env: Env)
    requires "openai" in env.providerTypes
    ensures ValidProviderDraft(env, PROVIDER, false) && ValidProviderDraft(env, DOLLAR, false)
  {
    SampleNames();
    assert ValidProviderCredential("openai", DOLLAR.credential, false);
  }

  lemma SampleEntries()
    ensures ProviderEntry(map[], PROVIDER, false).Ok? && ProviderEntry(map[], DOLLAR, false).Ok?
  {
  }

  /** An ordinary provider is accepted and confirmed; the same one with a dollar literal is accepted and not. */
  lemma SampleProviders(env: Env)
    requires SaneEnv(env) && "openai" in env.providerTypes
    ensures Readable(env, NOTHING)
    ensures ApplyCreateProvider(env, NOTHING, PROVIDER).Ok? && !Ambiguous(env, NOTHING, CreateProvider(PROVIDER))
    ensures ApplyCreateProvider(env, NOTHING, DOLLAR).Ok? && Ambiguous(env, NOTHING, CreateProvider(DOLLAR))
  {
    SampleDrafts(env);
    SampleEntries();
  }

  /** An ordinary model is accepted and confirmed; the same one with a stray reference is accepted and not. */
  lemma SampleModels(env: Env)
    requires SaneEnv(env) && "openai" in env.providerTypes
    ensures ApplyCreateModel(env, NOTHING, MODEL).Ok? && !Ambiguous(env, NOTHING, CreateModel(MODEL))
    ensures ApplyCreateModel(env, NOTHING, STRAY).Ok? && Ambiguous(env, NOTHING, CreateModel(STRAY))
  {
    SampleNames();
    assert ValidModelDraft(env, NOTHING, MODEL, false);
    StrayReferenceIsAccepted(env, NOTHING, MODEL, "p");
  }
}
