/** Referential integrity of the LLM section over any sequence of changes. */
module LlmIntegrity {
  import opened Text
  import opened JsonTrees
  import opened LlmModel
  import opened LlmConfig
  import opened LlmReadBack
  import opened LlmVerifier
  import opened Collections

  type Names = seq<Option<string>>

  function ProviderNames(entries: seq<Json>): Names {
    seq(|entries|, i requires 0 <= i < |entries| => EntryName(entries[i]))
  }

  function ModelNames(entries: seq<Json>): Names {
    seq(|entries|, i requires 0 <= i < |entries| => ModelName(entries[i]))
  }

  predicate Unique(names: Names) {
    forall i, j :: 0 <= i < j < |names| && names[i].Some? ==> names[i] != names[j]
  }

  /** A model entry that embeds its provider, cannot be read, or names one of these providers. */
  predicate Resolves(reference: Option<string>, providers: Names) {
    reference.None? || reference == Some("") || reference in providers
  }

  predicate ReferencesResolve(models: seq<Json>, providers: Names) {
    forall m :: m in models ==> Resolves(ModelReference(m), providers)
  }

  /** Every target of every virtual model names a model. */
  ghost predicate TargetsResolve(virtuals: seq<Json>, models: Names) {
    forall v, t :: v in virtuals && TargetsModel(v, t) ==> Some(t) in models
  }

  ghost predicate Integrity(doc: Document) {
    && Unique(ProviderNames(doc.providers)) && Unique(ModelNames(doc.models))
    && ReferencesResolve(doc.models, ProviderNames(doc.providers))
    && TargetsResolve(doc.virtuals, ModelNames(doc.models))
  }

  // ---- Lists of names ----

  lemma NameIsListed(entries: seq<Json>, name: string, except: int)
    ensures NameExists(entries, name, except) <==>
            exists i :: 0 <= i < |entries| && i != except && ProviderNames(entries)[i] == Some(name)
  {
    var names := ProviderNames(entries);
    assert forall i :: 0 <= i < |entries| ==> names[i] == EntryName(entries[i]);
  }

  lemma ModelNameIsListed(entries: seq<Json>, name: string, except: int)
    ensures ModelNameExists(entries, name, except) <==>
            exists i :: 0 <= i < |entries| && i != except && ModelNames(entries)[i] == Some(name)
  {
    var names := ModelNames(entries);
    assert forall i :: 0 <= i < |entries| ==> names[i] == ModelName(entries[i]);
  }

  lemma UniqueCons(first: Option<string>, rest: Names)
    ensures Unique([first] + rest) <==> Unique(rest) && (first.Some? ==> first !in rest)
  {
    var names := [first] + rest;
    assert forall i :: 0 <= i < |rest| ==> names[i + 1] == rest[i];
    if Unique(names) {
      forall i, j | 0 <= i < j < |rest| && rest[i].Some? ensures rest[i] != rest[j] {
        assert names[i + 1] != names[j + 1];
      }
      forall j | 0 <= j < |rest| && first.Some? ensures rest[j] != first {
        assert names[0] != names[j + 1];
      }
    }
  }

  lemma UniqueAppend(names: Names, name: string)
    requires Unique(names) && Some(name) !in names
    ensures Unique(names + [Some(name)])
  {
  }

  lemma UniqueUpdate(names: Names, i: nat, name: string)
    requires Unique(names) && i < |names| && forall j :: 0 <= j < |names| && j != i ==> names[j] != Some(name)
    ensures Unique(names[i := Some(name)])
  {
  }

  lemma UniqueWithout(names: Names, i: nat)
    requires Unique(names) && i < |names|
    ensures Unique(Without(names, i))
    ensures forall n :: n in names && n.Some? ==> (n in Without(names, i) <==> n != names[i])
  {
    WithoutKeeps(names, i);
    var rest := Without(names, i);
    assert forall k :: 0 <= k < |rest| ==> rest[k] == names[if k < i then k else k + 1];
  }

  lemma NamesWritten(before: seq<Json>, i: nat, entry: Json)
    requires i < |before|
    ensures ProviderNames(before[i := entry]) == ProviderNames(before)[i := EntryName(entry)]
    ensures ProviderNames(Without(before, i)) == Without(ProviderNames(before), i)
    ensures ModelNames(before[i := entry]) == ModelNames(before)[i := ModelName(entry)]
    ensures ModelNames(Without(before, i)) == Without(ModelNames(before), i)
  {
  }

  lemma NamesAppended(before: seq<Json>, entry: Json)
    ensures ProviderNames(before + [entry]) == ProviderNames(before) + [EntryName(entry)]
    ensures ModelNames(before + [entry]) == ModelNames(before) + [ModelName(entry)]
  {
  }

  lemma NamesCons(first: Json, rest: seq<Json>)
    ensures ModelNames([first] + rest) == [ModelName(first)] + ModelNames(rest)
  {
  }

  // ---- Providers ----

  lemma CreateProviderKeeps(env: Env, doc: Document, d: ProviderDraft, after: Document)
    requires SaneEnv(env) && Integrity(doc) && ApplyCreateProvider(env, doc, d) == Ok(after)
    ensures Integrity(after)
  {
    CreatedProvider(env, doc, d, after);
    var entry := ProviderEntry(map[], d, false).value;
    ProviderEntryReadsBack(env, map[], d, false);
    ProviderNameRead(env, entry);
    NameIsListed(doc.providers, d.name, -1);
    NamesAppended(doc.providers, entry);
    UniqueAppend(ProviderNames(doc.providers), d.name);
  }

  lemma UpdateProviderKeeps(env: Env, doc: Document, id: string, d: ProviderDraft, after: Document)
    requires SaneEnv(env) && Integrity(doc) && ApplyUpdateProvider(env, doc, id, d) == Ok(after)
    ensures Integrity(after)
  {
    var i, f := UpdatedProvider(env, doc, id, d, after);
    var entry := ProviderEntry(f, d, true).value;
    ProviderEntryReadsBack(env, f, d, true);
    ProviderNameRead(env, entry);
    NameIsListed(doc.providers, d.name, i);
    NamesWritten(doc.providers, i, entry);
    var names := ProviderNames(doc.providers);
    UniqueUpdate(names, i, d.name);
    RenamedProviderUnreferenced(doc.models, names, i, d.name);
  }

  /** Renaming a provider no model refers to leaves every reference resolved. */
  lemma RenamedProviderUnreferenced(models: seq<Json>, names: Names, i: nat, name: string)
    requires i < |names| && names[i].Some? && ReferencesResolve(models, names)
    requires names[i] != Some(name) ==> !ProviderReferenced(models, names[i].value)
    ensures ReferencesResolve(models, names[i := Some(name)])
  {
    var after := names[i := Some(name)];
    forall k | 0 <= k < |names| && k != i ensures names[k] in after { assert after[k] == names[k]; }
    assert after[i] in after;
    forall m | m in models ensures Resolves(ModelReference(m), after) {
      var j :| 0 <= j < |models| && models[j] == m;
      assert RefersTo(m, names[i].value) <==> ModelReference(m) == names[i];
    }
  }

  // ---- Deleting a provider ----

  lemma CascadeStep(models: seq<Json>, name: string)
    requires models != []
    ensures ModelNames(models) == [ModelName(models[0])] + ModelNames(models[1..])
    ensures ModelNames(WithoutReferences(models, name)) ==
            (if RefersTo(models[0], name) then [] else [ModelName(models[0])])
            + ModelNames(WithoutReferences(models[1..], name))
  {
    assert models == [models[0]] + models[1..];
    NamesCons(models[0], models[1..]);
    NamesCons(models[0], WithoutReferences(models[1..], name));
  }

  lemma {:induction false} CascadeNames(models: seq<Json>, name: string)
    requires Unique(ModelNames(models))
    ensures Unique(ModelNames(WithoutReferences(models, name)))
    ensures forall n :: n in ModelNames(WithoutReferences(models, name)) ==> n in ModelNames(models)
  {
    if models != [] {
      CascadeStep(models, name);
      UniqueCons(ModelName(models[0]), ModelNames(models[1..]));
      CascadeNames(models[1..], name);
      UniqueCons(ModelName(models[0]), ModelNames(WithoutReferences(models[1..], name)));
    }
  }

  /** A name the cascade drops belonged to a model that refers to the provider. */
  lemma {:induction false} CascadeDropsReferences(models: seq<Json>, name: string, n: Option<string>)
    requires n in ModelNames(models) && n !in ModelNames(WithoutReferences(models, name))
    ensures exists k :: 0 <= k < |models| && ModelName(models[k]) == n && RefersTo(models[k], name)
  {
    CascadeStep(models, name);
    if n != ModelName(models[0]) {
      CascadeDropsReferences(models[1..], name, n);
      var k :| 0 <= k < |models[1..]| && ModelName(models[1..][k]) == n && RefersTo(models[1..][k], name);
      assert models[k + 1] == models[1..][k];
    } else if !RefersTo(models[0], name) {
      assert false;
    }
  }

  /** No virtual model loses a target to the cascade. */
  lemma CascadeKeepsTargets(doc: Document, name: string)
    requires TargetsResolve(doc.virtuals, ModelNames(doc.models))
    requires !CascadeBlocked(doc, name)
    ensures TargetsResolve(doc.virtuals, ModelNames(WithoutReferences(doc.models, name)))
  {
    var left := ModelNames(WithoutReferences(doc.models, name));
    forall v, t | v in doc.virtuals && TargetsModel(v, t) ensures Some(t) in left {
      var j :| 0 <= j < |doc.virtuals| && doc.virtuals[j] == v;
      assert ModelReferenced(doc.virtuals, t);
      if Some(t) !in left { CascadeDropsReferences(doc.models, name, Some(t)); }
    }
  }

  lemma DeleteProviderKeeps(doc: Document, id: string, cascade: bool, after: Document)
    requires Integrity(doc) && ApplyDeleteProvider(doc, id, cascade) == Ok(after)
    ensures Integrity(after)
  {
    var i, name := DeletedProvider(doc, id, cascade, after);
    var names := ProviderNames(doc.providers);
    NamesWritten(doc.providers, i, Null);
    UniqueWithout(names, i);
    CascadeNames(doc.models, name);
    CascadeKeepsTargets(doc, name);
    WithoutReferencesKeeps(doc.models, name);
    forall m | m in after.models ensures Resolves(ModelReference(m), Without(names, i)) {
      assert !RefersTo(m, name);
    }
  }

  // ---- Models ----

  lemma WrittenReferenceResolves(
    env: Env, doc: Document, existing: Fields, d: ModelDraft, updating: bool)
    requires SaneEnv(env) && ValidModelDraft(env, doc, d, updating) && ModelEntry(env, existing, d, updating).Ok?
    ensures var entry := ModelEntry(env, existing, d, updating).value;
            ModelName(entry) == Some(d.name) && Resolves(ModelReference(entry), ProviderNames(doc.providers))
  {
    var entry := ModelEntry(env, existing, d, updating).value;
    ModelEntryReadsBack(env, doc, existing, d, updating);
    ModelNameRead(env, entry);
    ModelReferenceRead(env, entry);
    NameIsListed(doc.providers, d.reference, -1);
    if d.mode == "reference" {
      var k :| 0 <= k < |doc.providers| && ProviderNames(doc.providers)[k] == Some(d.reference);
    }
  }

  lemma CreateModelKeeps(env: Env, doc: Document, d: ModelDraft, after: Document)
    requires SaneEnv(env) && Integrity(doc) && ApplyCreateModel(env, doc, d) == Ok(after)
    ensures Integrity(after)
  {
    CreatedModel(env, doc, d, after);
    WrittenReferenceResolves(env, doc, map[], d, false);
    ModelNameIsListed(doc.models, d.name, -1);
    NamesAppended(doc.models, ModelEntry(env, map[], d, false).value);
    UniqueAppend(ModelNames(doc.models), d.name);
  }

  /** Renaming a model no virtual model targets leaves every target resolved. */
  lemma RenamedModelUntargeted(virtuals: seq<Json>, names: Names, i: nat, name: string)
    requires i < |names| && names[i].Some? && TargetsResolve(virtuals, names)
    requires names[i] != Some(name) ==> !ModelReferenced(virtuals, names[i].value)
    ensures TargetsResolve(virtuals, names[i := Some(name)])
  {
    var after := names[i := Some(name)];
    forall k | 0 <= k < |names| && k != i ensures names[k] in after { assert after[k] == names[k]; }
    assert after[i] in after;
    forall v, t | v in virtuals && TargetsModel(v, t) ensures Some(t) in after {
      var j :| 0 <= j < |virtuals| && virtuals[j] == v;
    }
  }

  lemma UpdateModelKeeps(env: Env, doc: Document, id: string, d: ModelDraft, after: Document)
    requires SaneEnv(env) && Integrity(doc) && ApplyUpdateModel(env, doc, id, d) == Ok(after)
    ensures Integrity(after)
  {
    var i, f := UpdatedModel(env, doc, id, d, after);
    var entry := ModelEntry(env, f, d, true).value;
    ModelNameRead(env, doc.models[i]);
    WrittenReferenceResolves(env, doc, f, d, true);
    ModelNameIsListed(doc.models, d.name, i);
    NamesWritten(doc.models, i, entry);
    UniqueUpdate(ModelNames(doc.models), i, d.name);
    RenamedModelUntargeted(doc.virtuals, ModelNames(doc.models), i, d.name);
  }

  lemma DeleteModelKeeps(doc: Document, id: string, after: Document)
    requires Integrity(doc) && ApplyDeleteModel(doc, id) == Ok(after)
    ensures Integrity(after)
  {
    var i, name := DeletedModel(doc, id, after);
    var names := ModelNames(doc.models);
    NamesWritten(doc.models, i, Null);
    UniqueWithout(names, i);
    WithoutKeeps(doc.models, i);
    forall v, t | v in doc.virtuals && TargetsModel(v, t) ensures Some(t) in Without(names, i) {
      var j :| 0 <= j < |doc.virtuals| && doc.virtuals[j] == v;
      assert names[i] == Some(name);
    }
  }

  // ---- Runs ----

  lemma ChangeKeepsIntegrity(env: Env, doc: Document, change: Change, after: Document)
    requires SaneEnv(env) && Integrity(doc) && Apply(env, doc, change) == Ok(after)
    ensures Integrity(after)
  {
    match change
    case CreateProvider(d) => CreateProviderKeeps(env, doc, d, after);
    case UpdateProvider(id, d) => UpdateProviderKeeps(env, doc, id, d, after);
    case CreateModel(d) => CreateModelKeeps(env, doc, d, after);
    case UpdateModel(id, d) => UpdateModelKeeps(env, doc, id, d, after);
    case DeleteProvider(id, cascade) => DeleteProviderKeeps(doc, id, cascade, after);
    case DeleteModel(id) => DeleteModelKeeps(doc, id, after);
  }

  /** A sequence of requests; a refused one leaves the document as it was. */
  function ApplyAll(env: Env, doc: Document, changes: seq<Change>): Document
    decreases |changes|
  {
    if changes == [] then doc
    else
      match Apply(env, doc, changes[0])
      case Err(_) => ApplyAll(env, doc, changes[1..])
      case Ok(after) => ApplyAll(env, after, changes[1..])
  }

  /** Names stay unique and every reference and target resolves, through any sequence of changes. */
  lemma {:induction false} IntegrityOverAnyRun(env: Env, doc: Document, changes: seq<Change>)
    requires SaneEnv(env) && Integrity(doc)
    ensures Integrity(ApplyAll(env, doc, changes))
    decreases |changes|
  {
    if changes != [] {
      match Apply(env, doc, changes[0])
      case Err(_) => IntegrityOverAnyRun(env, doc, changes[1..]);
      case Ok(after) =>
        ChangeKeepsIntegrity(env, doc, changes[0], after);
        IntegrityOverAnyRun(env, after, changes[1..]);
    }
  }

  /** So does readability: the console can always show what it has written. */
  lemma {:induction false} ReadableOverAnyRun(env: Env, doc: Document, changes: seq<Change>)
    requires SaneEnv(env) && Readable(env, doc)
    ensures Readable(env, ApplyAll(env, doc, changes))
    decreases |changes|
  {
    if changes != [] {
      match Apply(env, doc, changes[0])
      case Err(_) => ReadableOverAnyRun(env, doc, changes[1..]);
      case Ok(after) =>
        ChangeVerifiesUnlessAmbiguous(env, doc, changes[0], after);
        ReadableOverAnyRun(env, after, changes[1..]);
    }
  }
}
