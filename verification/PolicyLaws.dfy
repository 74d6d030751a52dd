/** The laws of reading and writing policies, and what no sequence of changes can do to a model. */
module PolicyLaws {
  import opened Text
  import opened JsonTrees
  import opened Paths
  import opened PolicyModel

  // ---- Sections ----

  lemma SectionKeysDiffer()
    ensures "llm" != "mcp" && "policies" != "models" && "policies" != "targets" && "models" != "targets"
  {
  }

  /** The array a section must have is as it was, or was missing and is now empty. */
  predicate KeptOrCreated(before: Raw, after: Raw) {
    after == before || (before in {None, Some(Null)} && after == Some(Arr([])))
  }

  /** What writing one gateway policy does to the sections. */
  lemma SetGlobalIs(root: Fields, section: string, list: string, key: string, value: Json)
    requires list != "policies"
    ensures var after := SetGlobal(root, section, list, key, value);
            && (forall other :: other != section ==> Field(after, other) == Field(root, other))
            && Policies(after, section) == Policies(root, section)[key := value]
            && KeptOrCreated(Field(Owner(root, section), list), Field(Owner(after, section), list))
            && (forall other :: other != "policies" && other != list ==>
                  Field(Owner(after, section), other) == Field(Owner(root, section), other))
            && OptionalObject(Field(after, section)) && OptionalObject(Field(Owner(after, section), "policies"))
  {
  }

  lemma StorePoliciesIs(root: Fields, section: string, policies: Fields)
    ensures var after := StorePolicies(root, section, policies);
            && (forall other :: other != section ==> Field(after, other) == Field(root, other))
            && Policies(after, section) == policies
            && (forall other :: other != "policies" ==>
                  Field(Owner(after, section), other) == Field(Owner(root, section), other))
            && OptionalObject(Field(after, section)) && OptionalObject(Field(Owner(after, section), "policies"))
  {
  }

  lemma StoreModelIs(root: Fields, index: nat, f: Fields)
    requires index < |Models(root)|
    ensures var after := StoreModel(root, index, f);
            && (forall other :: other != "llm" ==> Field(after, other) == Field(root, other))
            && Models(after) == Models(root)[index := Obj(f)]
            && (forall other :: other != "models" ==>
                  Field(Owner(after, "llm"), other) == Field(Owner(root, "llm"), other))
            && OptionalObject(Field(after, "llm")) && AsArray(Field(Owner(after, "llm"), "models")).Some?
  {
  }

  // ---- Agreement elsewhere ----

  /** Both documents hold the same at every place but `p`, and list the same places. */
  ghost predicate AgreeBut(root: Fields, after: Fields, p: Place) {
    && (forall q: Place :: q != p ==> Get(after, q) == Get(root, q))
    && (forall q: Place :: q != p ==> (Listed(after, q) <==> Listed(root, q)))
  }

  lemma LlmWriteAgrees(root: Fields, after: Fields, key: string, policies: Fields)
    requires forall other :: other != "llm" ==> Field(after, other) == Field(root, other)
    requires Policies(after, "llm") == policies && Models(after) == Models(root)
    requires forall other :: other != key ==> Field(policies, other) == Field(Policies(root, "llm"), other)
    ensures AgreeBut(root, after, LlmPolicy(key))
  {
    SectionKeysDiffer();
    forall q: Place | q != LlmPolicy(key)
      ensures Get(after, q) == Get(root, q) && (Listed(after, q) <==> Listed(root, q))
    {
      if q.LlmPolicy? { assert Field(policies, q.key) == Field(Policies(root, "llm"), q.key); }
    }
  }

  lemma McpWriteAgrees(root: Fields, after: Fields, key: string, policies: Fields)
    requires forall other :: other != "mcp" ==> Field(after, other) == Field(root, other)
    requires Policies(after, "mcp") == policies
    requires forall other :: other != key ==> Field(policies, other) == Field(Policies(root, "mcp"), other)
    ensures AgreeBut(root, after, McpPolicy(key))
  {
    SectionKeysDiffer();
    forall q: Place | q != McpPolicy(key)
      ensures Get(after, q) == Get(root, q) && (Listed(after, q) <==> Listed(root, q))
    {
      if q.McpPolicy? { assert Field(policies, q.key) == Field(Policies(root, "mcp"), q.key); }
    }
  }

  lemma ModelWriteAgrees(root: Fields, after: Fields, index: nat, key: string, f: Fields)
    requires index < |Models(root)| && Models(root)[index].Obj?
    requires forall other :: other != "llm" ==> Field(after, other) == Field(root, other)
    requires Models(after) == Models(root)[index := Obj(f)] && Policies(after, "llm") == Policies(root, "llm")
    requires forall other :: other != key ==> Field(f, other) == Field(Models(root)[index].fields, other)
    ensures AgreeBut(root, after, ModelPolicy(index, key))
  {
    SectionKeysDiffer();
    forall q: Place | q != ModelPolicy(index, key)
      ensures Get(after, q) == Get(root, q) && (Listed(after, q) <==> Listed(root, q))
    {
      if q.ModelPolicy? && q.index == index { assert Field(f, q.key) == Field(Models(root)[index].fields, q.key); }
    }
  }

  // ---- Setting ----

  lemma SetLlmAgrees(root: Fields, key: string, value: Json)
    ensures AgreeBut(root, SetGlobal(root, "llm", "models", key, value), LlmPolicy(key))
  {
    SectionKeysDiffer();
    SetGlobalIs(root, "llm", "models", key, value);
    LlmWriteAgrees(root, SetGlobal(root, "llm", "models", key, value), key, Policies(root, "llm")[key := value]);
  }

  lemma SetMcpAgrees(root: Fields, key: string, value: Json)
    ensures AgreeBut(root, SetGlobal(root, "mcp", "targets", key, value), McpPolicy(key))
  {
    SectionKeysDiffer();
    SetGlobalIs(root, "mcp", "targets", key, value);
    McpWriteAgrees(root, SetGlobal(root, "mcp", "targets", key, value), key, Policies(root, "mcp")[key := value]);
  }

  lemma SetModelAgrees(root: Fields, index: nat, f: Fields, key: string)
    requires index < |Models(root)| && Models(root)[index].Obj?
    requires forall other :: other != key ==> Field(f, other) == Field(Models(root)[index].fields, other)
    ensures AgreeBut(root, StoreModel(root, index, f), ModelPolicy(index, key))
  {
    SectionKeysDiffer();
    StoreModelIs(root, index, f);
    ModelWriteAgrees(root, StoreModel(root, index, f), index, key, f);
  }

  /** Writing a policy and reading it gives the value written; nothing else changes. */
  lemma SetThenGet(root: Fields, p: Place, value: Json)
    requires Set(root, p, value).Ok?
    ensures var after := Set(root, p, value).value;
            Get(after, p) == Some(value) && AgreeBut(root, after, p)
  {
    match p
    case LlmPolicy(key) =>
      SectionKeysDiffer();
      SetGlobalIs(root, "llm", "models", key, value);
      SetLlmAgrees(root, key, value);
    case McpPolicy(key) =>
      SectionKeysDiffer();
      SetGlobalIs(root, "mcp", "targets", key, value);
      SetMcpAgrees(root, key, value);
    case ModelPolicy(index, key) =>
      var f := Models(root)[index].fields[key := value];
      StoreModelIs(root, index, f);
      SetModelAgrees(root, index, f, key);
  }

  // ---- Removing ----

  /** What reads back where a policy was removed: two LLM policies go, the others are left null. */
  function Disabled(p: Place): Raw {
    if p.LlmPolicy? && p.key != "localRateLimit" && p.key != "guardrails" then Some(Null) else None
  }

  lemma RemoveLlmThenGet(root: Fields, key: string)
    requires Get(root, LlmPolicy(key)).Some?
    ensures var after := DisableLlm(root, key);
            Get(after, LlmPolicy(key)) == Disabled(LlmPolicy(key)) && AgreeBut(root, after, LlmPolicy(key))
  {
    var policies := Policies(root, "llm");
    var left := if key == "localRateLimit" || key == "guardrails" then policies - {key} else policies[key := Null];
    SectionKeysDiffer();
    StorePoliciesIs(root, "llm", left);
    LlmWriteAgrees(root, StorePolicies(root, "llm", left), key, left);
  }

  lemma RemoveMcpThenGet(root: Fields, key: string)
    requires Get(root, McpPolicy(key)).Some?
    ensures var after := DeleteMcp(root, key);
            Get(after, McpPolicy(key)) == None && AgreeBut(root, after, McpPolicy(key))
  {
    var left := Policies(root, "mcp") - {key};
    SectionKeysDiffer();
    StorePoliciesIs(root, "mcp", left);
    McpWriteAgrees(root, StorePolicies(root, "mcp", left), key, left);
  }

  /** Removing a configured policy and reading it gives nothing, or null; nothing else changes. */
  lemma RemoveThenGet(root: Fields, p: Place)
    requires Remove(root, p).Ok? && Get(root, p).Some?
    ensures var after := Remove(root, p).value;
            Get(after, p) == Disabled(p) && AgreeBut(root, after, p)
  {
    match p
    case LlmPolicy(key) => RemoveLlmThenGet(root, key);
    case McpPolicy(key) => RemoveMcpThenGet(root, key);
    case ModelPolicy(index, key) =>
      var f := Models(root)[index].fields - {key};
      StoreModelIs(root, index, f);
      SetModelAgrees(root, index, f, key);
  }

  // ---- The configuration stays readable ----

  lemma NamesAreNoPolicies()
    ensures "name" !in MODEL_CATALOG
  {
    assert forall key :: key in MODEL_CATALOG && |key| == 4 ==> key[0] == 'a';
  }

  lemma SectionsDecide(root: Fields, after: Fields)
    requires Readable(root) && SectionReadable(after, "llm") && SectionReadable(after, "mcp")
    requires AsArray(Field(Owner(after, "llm"), "models")).Some?
    requires |Models(after)| == |Models(root)|
    requires forall i :: 0 <= i < |Models(root)| ==>
               && Models(after)[i].Obj?
               && (Models(root)[i].Obj? ==>
                     Field(Models(after)[i].fields, "name") == Field(Models(root)[i].fields, "name"))
    ensures Readable(after)
  {
    forall i | 0 <= i < |Models(after)| ensures ModelReadable(Models(after)[i]) {
      assert ModelReadable(Models(root)[i]);
    }
  }

  lemma SetGlobalReads(root: Fields, section: string, list: string, key: string, value: Json)
    requires Readable(root) && ((section == "llm" && list == "models") || (section == "mcp" && list == "targets"))
    ensures Readable(SetGlobal(root, section, list, key, value))
  {
    SectionKeysDiffer();
    SetGlobalIs(root, section, list, key, value);
    SectionsDecide(root, SetGlobal(root, section, list, key, value));
  }

  lemma StorePoliciesReads(root: Fields, section: string, policies: Fields)
    requires Readable(root) && (section == "llm" || section == "mcp")
    ensures Readable(StorePolicies(root, section, policies))
  {
    SectionKeysDiffer();
    StorePoliciesIs(root, section, policies);
    SectionsDecide(root, StorePolicies(root, section, policies));
  }

  lemma StoreModelReads(root: Fields, index: nat, f: Fields)
    requires Readable(root) && index < |Models(root)|
    requires Field(f, "name") == Field(Models(root)[index].fields, "name")
    ensures Readable(StoreModel(root, index, f))
  {
    SectionKeysDiffer();
    StoreModelIs(root, index, f);
    SectionsDecide(root, StoreModel(root, index, f));
  }

  lemma ChangeReads(root: Fields, p: Place, op: Operation)
    requires Readable(root) && Change(root, p, op).Ok?
    ensures Readable(Change(root, p, op).value)
  {
    match p
    case LlmPolicy(key) =>
      if op.Upsert? {
        SetGlobalReads(root, "llm", "models", key, op.value);
      } else {
        var policies := Policies(root, "llm");
        StorePoliciesReads(root, "llm", policies - {key});
        StorePoliciesReads(root, "llm", policies[key := Null]);
      }
    case McpPolicy(key) =>
      if op.Upsert? {
        SetGlobalReads(root, "mcp", "targets", key, op.value);
      } else {
        StorePoliciesReads(root, "mcp", Policies(root, "mcp") - {key});
      }
    case ModelPolicy(index, key) =>
      NamesAreNoPolicies();
      var f := Models(root)[index].fields;
      if op.Upsert? {
        StoreModelReads(root, index, f[key := op.value]);
      } else {
        StoreModelReads(root, index, f - {key});
      }
  }

  // ---- The laws, by ID ----

  /** An editable place is listed whatever the document holds. */
  lemma EditableStaysListed(root: Fields, after: Fields, p: Place)
    requires Editable(p) && Listed(root, p) && |Models(after)| == |Models(root)|
    ensures Listed(after, p)
  {
  }

  // ---- What is no policy ----

  function SectionOf(p: Place): string {
    if p.McpPolicy? then "mcp" else "llm"
  }

  /** The array that section must have. */
  function ListOf(p: Place): string {
    if p.McpPolicy? then "targets" else "models"
  }

  /** Besides its policy a change leaves alone: the other sections, every other member of its own section and the
      elements of the section's array; only an upsert may create that array, empty. */
  ghost predicate RestAgrees(root: Fields, after: Fields, p: Place, op: Operation) {
    var owner, owner' := Owner(root, SectionOf(p)), Owner(after, SectionOf(p));
    && (forall other :: other != SectionOf(p) ==> Field(after, other) == Field(root, other))
    && (forall other :: other != "policies" && other != ListOf(p) ==> Field(owner', other) == Field(owner, other))
    && if p.ModelPolicy? then
         && Field(owner', "policies") == Field(owner, "policies")
         && |Models(after)| == |Models(root)|
         && forall i :: 0 <= i < |Models(root)| && i != p.index ==> Models(after)[i] == Models(root)[i]
       else if op.Upsert? then KeptOrCreated(Field(owner, ListOf(p)), Field(owner', ListOf(p)))
       else Field(owner', ListOf(p)) == Field(owner, ListOf(p))
  }

  lemma ChangeKeepsRest(root: Fields, p: Place, op: Operation)
    requires Change(root, p, op).Ok?
    ensures RestAgrees(root, Change(root, p, op).value, p, op)
  {
    SectionKeysDiffer();
    match p
    case LlmPolicy(key) =>
      if op.Upsert? {
        SetGlobalIs(root, "llm", "models", key, op.value);
      } else {
        StorePoliciesIs(root, "llm", Policies(root, "llm") - {key});
        StorePoliciesIs(root, "llm", Policies(root, "llm")[key := Null]);
      }
    case McpPolicy(key) =>
      if op.Upsert? {
        SetGlobalIs(root, "mcp", "targets", key, op.value);
      } else {
        StorePoliciesIs(root, "mcp", Policies(root, "mcp") - {key});
      }
    case ModelPolicy(index, key) =>
      var f := Models(root)[index].fields;
      if op.Upsert? {
        StoreModelIs(root, index, f[key := op.value]);
      } else {
        StoreModelIs(root, index, f - {key});
      }
  }

  lemma RestKeepsModelCount(root: Fields, after: Fields, p: Place, op: Operation)
    requires RestAgrees(root, after, p, op)
    ensures |Models(after)| == |Models(root)|
  {
    if p.McpPolicy? { assert Field(after, "llm") == Field(root, "llm"); }
  }

  /** A changed place is found again by its ID, in a configuration that still reads. */
  lemma ChangedPlaceIsFound(root: Fields, id: string, op: Operation, after: Fields)
    requires Apply(root, id, op) == Ok(after)
    ensures PlaceOf(root, id).Some? && PlaceOf(after, id) == PlaceOf(root, id) && Readable(after)
    ensures RestAgrees(root, after, PlaceOf(root, id).value, op)
  {
    var p := PlaceOf(root, id).value;
    ChangeReads(root, p, op);
    ChangeKeepsRest(root, p, op);
    RestKeepsModelCount(root, after, p, op);
    EditableStaysListed(root, after, p);
    ListedIsFound(after, p);
  }

  /** After an upsert the same ID reads back the value, an empty list counting as disabled, and every other place
      holds what it held and is listed as it was, and so does the document outside the policies. */
  lemma UpsertLaw(root: Fields, id: string, value: Json, after: Fields) returns (p: Place)
    requires Apply(root, id, Upsert(value)) == Ok(after)
    ensures PlaceOf(root, id) == Some(p) && PlaceOf(after, id) == Some(p) && Readable(after)
    ensures Get(after, p) == Some(value) && (Enabled(Get(after, p)) <==> value != Arr([]))
    ensures AgreeBut(root, after, p) && RestAgrees(root, after, p, Upsert(value))
  {
    p := PlaceOf(root, id).value;
    SetThenGet(root, p, value);
    ChangedPlaceIsFound(root, id, Upsert(value), after);
  }

  lemma DisabledIsNotFound(root: Fields, id: string, p: Place)
    requires Trim(id) != "" && Readable(root) && PlaceOf(root, id) == Some(p)
    requires Editable(p) && Get(root, p) == Disabled(p)
    ensures !Enabled(Get(root, p)) && Apply(root, id, Delete) == Err(NotFound)
  {
  }

  /** After a delete the same ID reads back disabled and cannot be deleted again; everything else is as it was. */
  lemma DeleteLaw(root: Fields, id: string, after: Fields) returns (p: Place)
    requires Apply(root, id, Delete) == Ok(after)
    ensures PlaceOf(root, id) == Some(p) && PlaceOf(after, id) == Some(p) && Readable(after)
    ensures Get(after, p) == Disabled(p) && !Enabled(Get(after, p)) && Apply(after, id, Delete) == Err(NotFound)
    ensures AgreeBut(root, after, p) && RestAgrees(root, after, p, Delete)
  {
    p := PlaceOf(root, id).value;
    RemoveThenGet(root, p);
    ChangedPlaceIsFound(root, id, Delete, after);
    DisabledIsNotFound(after, id, p);
  }

  lemma SetGlobalTwice(root: Fields, section: string, list: string, key: string, first: Json, second: Json)
    requires list != "policies"
    ensures SetGlobal(SetGlobal(root, section, list, key, first), section, list, key, second) ==
            SetGlobal(root, section, list, key, second)
  {
    var once := SetGlobal(root, section, list, key, first);
    var owner := Owner(once, section);
    var direct := SetGlobal(root, section, list, key, second);
    assert Policies(once, section)[key := second] == Policies(direct, section);
    assert owner["policies" := Obj(Policies(direct, section))] == Owner(direct, section);
    assert once[section := direct[section]] == direct;
  }

  /** The last upsert wins: what a previous one wrote leaves no trace. */
  lemma SetTwice(root: Fields, p: Place, first: Json, second: Json)
    requires Set(root, p, first).Ok?
    ensures Set(Set(root, p, first).value, p, second) == Set(root, p, second)
  {
    match p
    case LlmPolicy(key) => SectionKeysDiffer(); SetGlobalTwice(root, "llm", "models", key, first, second);
    case McpPolicy(key) => SectionKeysDiffer(); SetGlobalTwice(root, "mcp", "targets", key, first, second);
    case ModelPolicy(index, key) =>
      var f := Models(root)[index].fields;
      var once := StoreModel(root, index, f[key := first]);
      var direct := StoreModel(root, index, f[key := second]);
      StoreModelIs(root, index, f[key := first]);
      assert f[key := first][key := second] == f[key := second];
      assert Models(once)[index := Obj(f[key := second])] == Models(root)[index := Obj(f[key := second])];
      assert Owner(once, "llm")["models" := Arr(Models(direct))] == Owner(direct, "llm");
      assert once["llm" := direct["llm"]] == direct;
  }

  // ---- One spelling of backend TLS ----

  predicate BothTls(root: Fields, index: nat) {
    Get(root, ModelPolicy(index, "tls")).Some? && Get(root, ModelPolicy(index, "backendTLS")).Some?
  }

  lemma AliasesDiffer()
    ensures "tls" != "backendTLS" && Alias("tls") == Some("backendTLS") && Alias("backendTLS") == Some("tls")
  {
  }

  lemma AgreesAt(root: Fields, after: Fields, p: Place, q: Place)
    requires AgreeBut(root, after, p) && q != p
    ensures Get(after, q) == Get(root, q)
  {
  }

  /** Writing one spelling is refused where the other is present. */
  lemma SetNeedsNoAlias(root: Fields, index: nat, key: string, other: string, value: Json)
    requires Alias(key) == Some(other) && Set(root, ModelPolicy(index, key), value).Ok?
    ensures Get(root, ModelPolicy(index, other)) == None
  {
  }

  lemma UpsertAddsNoSecondTls(root: Fields, id: string, value: Json, after: Fields, index: nat)
    requires Apply(root, id, Upsert(value)) == Ok(after) && !BothTls(root, index)
    ensures !BothTls(after, index)
  {
    AliasesDiffer();
    var tls, backend := ModelPolicy(index, "tls"), ModelPolicy(index, "backendTLS");
    var p := UpsertLaw(root, id, value, after);
    if p == tls {
      SetNeedsNoAlias(root, index, "tls", "backendTLS", value);
      AgreesAt(root, after, p, backend);
    } else if p == backend {
      SetNeedsNoAlias(root, index, "backendTLS", "tls", value);
      AgreesAt(root, after, p, tls);
    } else {
      AgreesAt(root, after, p, tls);
      AgreesAt(root, after, p, backend);
    }
  }

  lemma DeleteAddsNoSecondTls(root: Fields, id: string, after: Fields, index: nat)
    requires Apply(root, id, Delete) == Ok(after) && !BothTls(root, index)
    ensures !BothTls(after, index)
  {
    var tls, backend := ModelPolicy(index, "tls"), ModelPolicy(index, "backendTLS");
    var p := DeleteLaw(root, id, after);
    if p != tls { AgreesAt(root, after, p, tls); }
    if p != backend { AgreesAt(root, after, p, backend); }
  }

  /** No change gives a model the second spelling of backend TLS. */
  lemma ChangeAddsNoSecondTls(root: Fields, id: string, op: Operation, after: Fields, index: nat)
    requires Apply(root, id, op) == Ok(after) && !BothTls(root, index)
    ensures !BothTls(after, index)
  {
    match op
    case Upsert(value) => UpsertAddsNoSecondTls(root, id, value, after, index);
    case Delete => DeleteAddsNoSecondTls(root, id, after, index);
  }

  /** A sequence of requests; a refused one leaves the configuration as it was. */
  ghost function ApplyAll(root: Fields, requests: seq<(string, Operation)>): Fields
    decreases |requests|
  {
    if requests == [] then root
    else
      match Apply(root, requests[0].0, requests[0].1)
      case Err(_) => ApplyAll(root, requests[1..])
      case Ok(after) => ApplyAll(after, requests[1..])
  }

  /** Nor does any sequence of them. */
  lemma {:induction false} NoRunAddsSecondTls(root: Fields, requests: seq<(string, Operation)>, index: nat)
    requires !BothTls(root, index)
    ensures !BothTls(ApplyAll(root, requests), index)
    decreases |requests|
  {
    if requests != [] {
      match Apply(root, requests[0].0, requests[0].1)
      case Err(_) => NoRunAddsSecondTls(root, requests[1..], index);
      case Ok(after) =>
        ChangeAddsNoSecondTls(root, requests[0].0, requests[0].1, after, index);
        NoRunAddsSecondTls(after, requests[1..], index);
    }
  }

  /** A policy outside the catalogues is shown but never changed. */
  lemma UnknownPoliciesAreReadOnly(root: Fields, p: Place, op: Operation)
    requires Readable(root) && Listed(root, p) && !Editable(p)
    ensures Apply(root, PlaceId(p), op) == Err(InvalidRequest)
  {
    PathIdIsNotBlank(PlacePath(p));
    ListedIsFound(root, p);
  }
}
