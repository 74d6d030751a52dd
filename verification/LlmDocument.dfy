/** The editable LLM document as the gateway client holds it, changed in place by its operations, and the write
    protocol around it. Each operation refines its function on document values. */
module LlmDocument {
  import opened Text
  import opened JsonTrees
  import opened LlmModel
  import opened LlmConfig
  import opened LlmVerifier
  import opened Paths
  import opened GatewayReplies

  /** mergeParams, key by key. */
  method Merge(existing: Raw, p: Params, c: Credential, updating: bool) returns (r: Result<Raw, Error>)
    ensures r == MergeParams(existing, p, c, updating)
  {
    if Configured(existing) && !existing.value.Obj? {
      return Err(InvalidRequest);
    }
    var base := if Configured(existing) then existing.value.fields else map[];
    var params := base;
    var keys := STRING_KEYS + ["tokenize"];
    for i := 0 to |keys|
      invariant params == base - set key | key in keys[..i]
    {
      params := params - {keys[i]};
      assert keys[..i + 1] == keys[..i] + [keys[i]];
    }
    assert keys[..|keys|] == keys;
    assert params == base - MANAGED_KEYS;
    for i := 0 to |STRING_KEYS|
      invariant params == WithStrings(base - MANAGED_KEYS, p, STRING_KEYS, i)
    {
      params := PutString(params, STRING_KEYS[i], ParamAt(p, i));
    }
    if p.tokenize {
      params := params["tokenize" := Bool(true)];
    }
    if c.mode.OtherMode? || (c.mode == Preserve && !updating) || (c.mode == Environment && !EnvironmentName(c.reference))
       || (c.mode == File && !(Trim(c.reference) != "" && Bounded(Trim(c.reference), 1024)))
    {
      return Err(InvalidRequest);
    }
    params := WithApiKey(params, c);
    r := Ok(if params == map[] then None else Some(Obj(params)));
  }

  /** `kept` is what the filter has kept of the models before `i`. */
  predicate KeptBefore(models: seq<Json>, name: string, i: nat, kept: seq<Json>)
    requires i <= |models|
  {
    kept + WithoutReferences(models[i..], name) == WithoutReferences(models, name)
  }

  lemma KeepNext(models: seq<Json>, name: string, i: nat, kept: seq<Json>)
    requires i < |models| && KeptBefore(models, name, i, kept)
    ensures KeptBefore(models, name, i + 1, kept + if RefersTo(models[i], name) then [] else [models[i]])
  {
    var rest := models[i..];
    assert rest[0] == models[i] && rest[1..] == models[i + 1..];
    var next := if RefersTo(rest[0], name) then [] else [rest[0]];
    assert WithoutReferences(rest, name) == next + WithoutReferences(rest[1..], name);
    assert (kept + next) + WithoutReferences(rest[1..], name) == kept + (next + WithoutReferences(rest[1..], name));
  }

  lemma KeptAll(models: seq<Json>, name: string, kept: seq<Json>)
    ensures KeptBefore(models, name, 0, [])
    ensures KeptBefore(models, name, |models|, kept) <==> kept == WithoutReferences(models, name)
  {
    assert models[0..] == models && models[|models|..] == [];
    assert kept + [] == kept && [] + WithoutReferences(models, name) == WithoutReferences(models, name);
  }

  class ConfigDocument {
    const env: Env
    const root: Fields
    const llm: Fields
    const virtuals: seq<Json>
    var providers: seq<Json>
    var models: seq<Json>

    constructor (env: Env, doc: Document)
      ensures this.env == env && Contents() == doc
    {
      this.env := env;
      root, llm, virtuals := doc.root, doc.llm, doc.virtuals;
      providers, models := doc.providers, doc.models;
    }

    function Contents(): Document
      reads this
    {
      Document(root, llm, providers, models, virtuals)
    }

    method ProviderNameExists(name: string, except: int) returns (found: bool)
      ensures found == NameExists(providers, name, except)
    {
      for i := 0 to |providers|
        invariant !NameExists(providers[..i], name, except)
      {
        if i != except && EntryName(providers[i]) == Some(name) {
          return true;
        }
      }
      assert providers[..|providers|] == providers;
      found := false;
    }

    method ModelTaken(name: string, except: int) returns (found: bool)
      ensures found == ModelNameExists(models, name, except)
    {
      for i := 0 to |models|
        invariant !ModelNameExists(models[..i], name, except)
      {
        if i != except && ModelName(models[i]) == Some(name) {
          return true;
        }
      }
      assert models[..|models|] == models;
      found := false;
    }

    method ProviderInUse(name: string) returns (found: bool)
      ensures found == ProviderReferenced(models, name)
    {
      for i := 0 to |models|
        invariant !ProviderReferenced(models[..i], name)
      {
        if RefersTo(models[i], name) {
          return true;
        }
      }
      assert models[..|models|] == models;
      found := false;
    }

    method ModelInUse(name: string) returns (found: bool)
      ensures found == ModelReferenced(virtuals, name)
    {
      for i := 0 to |virtuals|
        invariant !ModelReferenced(virtuals[..i], name)
      {
        if TargetsModel(virtuals[i], name) {
          return true;
        }
      }
      assert virtuals[..|virtuals|] == virtuals;
      found := false;
    }

    method ProviderById(id: string) returns (found: Option<nat>)
      ensures found == FindProvider(Contents(), id)
    {
      for i := 0 to |providers|
        invariant FindProvider(Contents(), id) == Find(id, ProviderId, i, |providers|)
      {
        if ProviderId(i) == id {
          return Some(i);
        }
      }
      found := None;
    }

    method ModelById(id: string) returns (found: Option<nat>)
      ensures found == FindModel(Contents(), id)
    {
      for i := 0 to |models|
        invariant FindModel(Contents(), id) == Find(id, ModelId, i, |models|)
      {
        if ModelId(i) == id {
          return Some(i);
        }
      }
      found := None;
    }

    method CreateProvider(d: ProviderDraft) returns (e: Option<Error>)
      modifies this`providers
      ensures match ApplyCreateProvider(env, old(Contents()), d)
              case Ok(after) => e.None? && Contents() == after
              case Err(error) => e == Some(error) && Contents() == old(Contents())
    {
      if !ValidProviderDraft(env, d, false) {
        return Some(InvalidRequest);
      }
      var taken := ProviderNameExists(d.name, -1);
      if taken {
        return Some(Conflict);
      }
      match ProviderEntry(map[], d, false)
      case Err(error) => return Some(error);
      case Ok(entry) =>
        providers := providers + [entry];
        return None;
    }

    method UpdateProvider(id: string, d: ProviderDraft) returns (e: Option<Error>)
      modifies this`providers
      ensures match ApplyUpdateProvider(env, old(Contents()), id, d)
              case Ok(after) => e.None? && Contents() == after
              case Err(error) => e == Some(error) && Contents() == old(Contents())
    {
      if !ValidProviderDraft(env, d, true) {
        return Some(InvalidRequest);
      }
      var found := ProviderById(id);
      if found.None? {
        return Some(NotFound);
      }
      var current := EntryFields(providers[found.value]);
      if current.None? {
        return Some(InvalidRequest);
      }
      var name, kind := AsString(Field(current.value, "name")).value, KindOf(Field(current.value, "provider"));
      if kind.None? {
        return Some(Contract);
      }
      if kind.value.ReferenceKind? || TypeOf(kind.value) != d.providerType {
        return Some(InvalidRequest);
      }
      var taken := ProviderNameExists(d.name, found.value);
      if taken {
        return Some(Conflict);
      }
      var inUse := ProviderInUse(name);
      if name != d.name && inUse {
        return Some(Referenced);
      }
      match ProviderEntry(current.value, d, true)
      case Err(error) => return Some(error);
      case Ok(entry) =>
        providers := providers[found.value := entry];
        return None;
    }

    /** The scan for models that refer to a provider: the first error it meets, or their positions and names. */
    method ReferencingModels(name: string) returns (e: Option<Error>, referencing: map<nat, string>)
      ensures e == ScanError(models)
      ensures e.None? ==>
                && (forall i :: i in referencing <==> 0 <= i < |models| && RefersTo(models[i], name))
                && (forall i :: i in referencing ==> ModelName(models[i]) == Some(referencing[i]))
                && (referencing == map[] <==> !ProviderReferenced(models, name))
    {
      referencing := map[];
      for i := 0 to |models|
        invariant ScanError(models) == ScanError(models[i..])
        invariant forall k :: k in referencing <==> 0 <= k < i && RefersTo(models[k], name)
        invariant forall k :: k in referencing ==> ModelName(models[k]) == Some(referencing[k])
      {
        var itemName := ModelName(models[i]);
        if itemName.None? || itemName == Some("") {
          return Some(InvalidRequest), referencing;
        }
        if ModelReference(models[i]).None? {
          return Some(Contract), referencing;
        }
        if RefersTo(models[i], name) {
          referencing := referencing[i := itemName.value];
        }
        assert models[i..][1..] == models[i + 1..];
      }
      assert referencing != map[] ==> exists i :: i in referencing;
      e := None;
    }

    /** Is any of these models a target of a virtual model? */
    method AnyInUse(referencing: map<nat, string>, ghost name: string) returns (blocked: bool)
      requires forall i :: i in referencing <==> 0 <= i < |models| && RefersTo(models[i], name)
      requires forall i :: i in referencing ==> ModelName(models[i]) == Some(referencing[i])
      ensures blocked <==> CascadeBlocked(Contents(), name)
    {
      var left := referencing.Keys;
      while left != {}
        invariant left <= referencing.Keys
        invariant forall i :: i in referencing && i !in left ==> !ModelReferenced(virtuals, referencing[i])
        decreases left
      {
        var i :| i in left;
        var inUse := ModelInUse(referencing[i]);
        if inUse {
          return true;
        }
        left := left - {i};
      }
      blocked := false;
    }

    method Keep(referencing: map<nat, string>, ghost name: string) returns (kept: seq<Json>)
      requires forall i :: 0 <= i < |models| ==> (i in referencing <==> RefersTo(models[i], name))
      ensures kept == WithoutReferences(models, name)
    {
      kept := [];
      KeptAll(models, name, kept);
      for i := 0 to |models|
        invariant KeptBefore(models, name, i, kept)
      {
        KeepNext(models, name, i, kept);
        if i !in referencing {
          kept := kept + [models[i]];
        } else {
          assert kept + [] == kept;
        }
      }
      KeptAll(models, name, kept);
    }

    method DeleteProvider(id: string, cascade: bool) returns (e: Option<Error>)
      modifies this`providers, this`models
      ensures match ApplyDeleteProvider(old(Contents()), id, cascade)
              case Ok(after) => e.None? && Contents() == after
              case Err(error) => e == Some(error) && Contents() == old(Contents())
    {
      var found := ProviderById(id);
      if found.None? {
        return Some(NotFound);
      }
      var name := EntryName(providers[found.value]);
      if name.None? {
        return Some(InvalidRequest);
      }
      var error, referencing := ReferencingModels(name.value);
      if error.Some? {
        return error;
      }
      if referencing != map[] && !cascade {
        return Some(Referenced);
      }
      var blocked := AnyInUse(referencing, name.value);
      if blocked {
        return Some(Referenced);
      }
      var kept := Keep(referencing, name.value);
      models := kept;
      providers := providers[..found.value] + providers[found.value + 1..];
      e := None;
    }

    method CreateModel(d: ModelDraft) returns (e: Option<Error>)
      modifies this`models
      ensures match ApplyCreateModel(env, old(Contents()), d)
              case Ok(after) => e.None? && Contents() == after
              case Err(error) => e == Some(error) && Contents() == old(Contents())
    {
      if !ValidModelDraft(env, Contents(), d, false) {
        return Some(InvalidRequest);
      }
      var taken := ModelTaken(d.name, -1);
      if taken {
        return Some(Conflict);
      }
      match ModelEntry(env, map[], d, false)
      case Err(error) => return Some(error);
      case Ok(entry) =>
        models := models + [entry];
        return None;
    }

    method UpdateModel(id: string, d: ModelDraft) returns (e: Option<Error>)
      modifies this`models
      ensures match ApplyUpdateModel(env, old(Contents()), id, d)
              case Ok(after) => e.None? && Contents() == after
              case Err(error) => e == Some(error) && Contents() == old(Contents())
    {
      if !ValidModelDraft(env, Contents(), d, true) {
        return Some(InvalidRequest);
      }
      var found := ModelById(id);
      if found.None? {
        return Some(NotFound);
      }
      var setting := ReadModel(env, models[found.value]);
      if setting.None? {
        return Some(Contract);
      }
      var current := setting.value;
      if current.mode != d.mode || current.providerType != d.providerType || current.reference != d.reference {
        return Some(InvalidRequest);
      }
      var taken := ModelTaken(d.name, found.value);
      if taken {
        return Some(Conflict);
      }
      var inUse := ModelInUse(current.name);
      if current.name != d.name && inUse {
        return Some(Referenced);
      }
      match ModelEntry(env, ModelFields(models[found.value]).value, d, true)
      case Err(error) => return Some(error);
      case Ok(entry) =>
        models := models[found.value := entry];
        return None;
    }

    method DeleteModel(id: string) returns (e: Option<Error>)
      modifies this`models
      ensures match ApplyDeleteModel(old(Contents()), id)
              case Ok(after) => e.None? && Contents() == after
              case Err(error) => e == Some(error) && Contents() == old(Contents())
    {
      var found := ModelById(id);
      if found.None? {
        return Some(NotFound);
      }
      var name := ModelName(models[found.value]);
      if name.None? {
        return Some(InvalidRequest);
      }
      var inUse := ModelInUse(name.value);
      if inUse {
        return Some(Referenced);
      }
      models := models[..found.value] + models[found.value + 1..];
      e := None;
    }

    method ApplyChange(change: Change) returns (e: Option<Error>)
      modifies this`providers, this`models
      ensures match Apply(env, old(Contents()), change)
              case Ok(after) => e.None? && Contents() == after
              case Err(error) => e == Some(error) && Contents() == old(Contents())
    {
      match change
      case CreateProvider(d) => e := CreateProvider(d);
      case UpdateProvider(id, d) => e := UpdateProvider(id, d);
      case DeleteProvider(id, cascade) => e := DeleteProvider(id, cascade);
      case CreateModel(d) => e := CreateModel(d);
      case UpdateModel(id, d) => e := UpdateModel(id, d);
      case DeleteModel(id) => e := DeleteModel(id);
    }
  }

  // ---- Verifying and writing ----

  method FirstProvider(items: seq<ProviderSetting>, d: ProviderDraft) returns (matched: bool)
    ensures matched == FirstProviderMatches(items, d)
  {
    for i := 0 to |items|
      invariant FirstProviderMatches(items, d) == FirstProviderMatches(items[i..], d)
    {
      if items[i].name == d.name {
        return ProviderMatches(items[i], d);
      }
      assert items[i..][1..] == items[i + 1..];
    }
    matched := false;
  }

  method FirstModel(items: seq<ModelSetting>, d: ModelDraft) returns (matched: bool)
    ensures matched == FirstModelMatches(items, d)
  {
    for i := 0 to |items|
      invariant FirstModelMatches(items, d) == FirstModelMatches(items[i..], d)
    {
      if items[i].name == d.name {
        return ModelMatches(items[i], d);
      }
      assert items[i..][1..] == items[i + 1..];
    }
    matched := false;
  }

  /** changeVerified. */
  method ChangeVerified(c: Configuration, change: Change, target: string) returns (verified: bool)
    ensures verified == Verified(c, change, target)
  {
    match change
    case CreateProvider(d) => verified := FirstProvider(c.providers, d);
    case UpdateProvider(_, d) => verified := FirstProvider(c.providers, d);
    case CreateModel(d) => verified := FirstModel(c.models, d);
    case UpdateModel(_, d) => verified := FirstModel(c.models, d);
    case DeleteProvider(_, cascade) =>
      for i := 0 to |c.providers|
        invariant forall k :: 0 <= k < i ==> c.providers[k].name != target
      {
        if c.providers[i].name == target {
          return false;
        }
      }
      if cascade {
        for i := 0 to |c.models|
          invariant forall k :: 0 <= k < i ==> !(c.models[k].mode == "reference" && c.models[k].reference == target)
        {
          if c.models[i].mode == "reference" && c.models[i].reference == target {
            return false;
          }
        }
      }
      verified := true;
    case DeleteModel(_) =>
      for i := 0 to |c.models|
        invariant forall k :: 0 <= k < i ==> c.models[k].name != target
      {
        if c.models[i].name == target {
          return false;
        }
      }
      verified := true;
  }

  datatype WriteError = UpstreamFailed | ConfigurationChanged | Refused(reason: Error) | Unverified

  class Client {
    const env: Env
    /** What the gateway holds. */
    var remote: Json

    constructor (env: Env, remote: Json)
      ensures this.env == env && this.remote == remote
    {
      this.env, this.remote := env, remote;
    }

    /** ApplyLLMChange, with no one else editing meanwhile. The revision is compared by what it digests. On a
        readable document a confirmed write is reported as verified exactly when the change is not ambiguous. */
    method ApplyLLMChange(expected: Json, change: Change, reply: Reply, rereads: bool)
      returns (result: Result<string, WriteError>)
      modifies this`remote
      ensures var doc := Decode(old(remote));
              if doc.None? || Encode(doc.value) != expected then
                result == Err(if doc.None? then UpstreamFailed else ConfigurationChanged) && remote == old(remote)
              else if TargetName(doc.value, change).Err? then
                result == Err(Refused(TargetName(doc.value, change).error)) && remote == old(remote)
              else
                match Apply(env, doc.value, change)
                case Err(reason) => result == Err(Refused(reason)) && remote == old(remote)
                case Ok(after) =>
                  && (remote == old(remote) || remote == Encode(after))
                  && (result.Ok? ==> remote == Encode(after) && result.value == TargetName(doc.value, change).value)
                  && (SaneEnv(env) && Readable(env, doc.value) && reply.Confirmed? && rereads ==>
                        (result.Ok? <==> !Ambiguous(env, doc.value, change)))
    {
      var doc := Decode(remote);
      if doc.None? {
        return Err(UpstreamFailed);
      }
      if Encode(doc.value) != expected {
        return Err(ConfigurationChanged);
      }
      var target := TargetName(doc.value, change);
      if target.Err? {
        return Err(Refused(target.error));
      }
      var editable := new ConfigDocument(env, doc.value);
      var refused := editable.ApplyChange(change);
      if SaneEnv(env) && Readable(env, doc.value) && refused.None? {
        ReadBackIsComplete(env, doc.value, change, editable.Contents());
      }
      if refused.Some? {
        return Err(Refused(refused.value));
      }
      if reply.Confirmed? || reply.stored {
        remote := Encode(editable.Contents());
      }
      if !reply.Confirmed? {
        return Err(UpstreamFailed);
      }
      var again := if rereads then Decode(remote) else None;
      if again.None? || Sanitize(env, again.value).None? {
        return Err(Unverified);
      }
      var verified := ChangeVerified(Sanitize(env, again.value).value, change, target.value);
      if !verified {
        return Err(Unverified);
      }
      result := Ok(target.value);
    }
  }
}
