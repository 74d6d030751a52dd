/** The policy configuration as the gateway client holds it: listed, searched by ID and changed in place. */
module PolicyDocument {
  import opened Text
  import opened JsonTrees
  import opened PolicyModel
  import opened Collections

  lemma LlmCatalogIsDuplicateFree()
    ensures NoDuplicates(LLM_CATALOG)
  {
  }

  lemma McpCatalogIsDuplicateFree()
    ensures NoDuplicates(MCP_CATALOG)
  {
  }

  lemma ModelCatalogIsDuplicateFree()
    ensures NoDuplicates(MODEL_CATALOG)
  {
  }

  // ---- The order of the listing ----

  /** Go's order of strings; that of code points is that of their UTF-8 bytes. */
  predicate Before(a: string, b: string) {
    b != "" && (a == "" || a[0] < b[0] || (a[0] == b[0] && Before(a[1..], b[1..])))
  }

  lemma {:induction false} BeforeIsTransitive(a: string, b: string, c: string)
    requires Before(a, b) && Before(b, c)
    ensures Before(a, c)
  {
    if a != "" && a[0] == b[0] == c[0] { BeforeIsTransitive(a[1..], b[1..], c[1..]); }
  }

  lemma {:induction false} BeforeIsTotal(a: string, b: string)
    requires a != b
    ensures Before(a, b) || Before(b, a)
  {
    if a != "" && b != "" && a[0] == b[0] {
      assert a == [a[0]] + a[1..] && b == [b[0]] + b[1..];
      BeforeIsTotal(a[1..], b[1..]);
    }
  }

  predicate Sorted(keys: seq<string>) {
    forall i, j :: 0 <= i < j < |keys| ==> Before(keys[i], keys[j])
  }

  function InsertKey(key: string, keys: seq<string>): (r: seq<string>)
    requires Sorted(keys) && key !in keys
    ensures Sorted(r) && forall k :: k in r <==> k == key || k in keys
  {
    if keys == [] then [key]
    else if Before(key, keys[0]) then
      InsertedFirst(key, keys);
      [key] + keys
    else
      BeforeIsTotal(key, keys[0]);
      InsertedLater(keys[0], InsertKey(key, keys[1..]), key, keys[1..]);
      [keys[0]] + InsertKey(key, keys[1..])
  }

  lemma InsertedFirst(key: string, keys: seq<string>)
    requires Sorted(keys) && (keys != [] ==> Before(key, keys[0]))
    ensures Sorted([key] + keys)
  {
    forall j | 0 < j < |keys| ensures Before(key, keys[j]) { BeforeIsTransitive(key, keys[0], keys[j]); }
  }

  lemma InsertedLater(first: string, inserted: seq<string>, key: string, keys: seq<string>)
    requires Sorted(inserted) && Sorted([first] + keys) && Before(first, key)
    requires forall k :: k in inserted <==> k == key || k in keys
    ensures Sorted([first] + inserted)
  {
    forall j | 0 <= j < |inserted| ensures Before(first, inserted[j]) {
      assert inserted[j] in inserted;
      if inserted[j] != key {
        var i :| 0 <= i < |keys| && keys[i] == inserted[j];
        assert Before(([first] + keys)[0], ([first] + keys)[i + 1]);
      }
    }
  }

  /** The catalogue in its own order, then the others sorted. */
  predicate KeyPrecedes(catalog: seq<string>, a: string, b: string) {
    if a in catalog then b !in catalog || exists i, j :: 0 <= i < j < |catalog| && catalog[i] == a && catalog[j] == b
    else b !in catalog && Before(a, b)
  }

  /** The LLM gateway, the models one by one, the MCP gateway. */
  predicate Precedes(p: Place, q: Place) {
    match p
    case LlmPolicy(key) => !q.LlmPolicy? || KeyPrecedes(LLM_CATALOG, key, q.key)
    case ModelPolicy(index, key) =>
      q.McpPolicy? ||
      (q.ModelPolicy? && (index < q.index || (index == q.index && KeyPrecedes(MODEL_CATALOG, key, q.key))))
    case McpPolicy(key) => q.McpPolicy? && KeyPrecedes(MCP_CATALOG, key, q.key)
  }

  predicate InOrder(places: seq<Place>) {
    forall i, j :: 0 <= i < j < |places| ==> Precedes(places[i], places[j])
  }

  // ---- Listing ----

  /** The catalogue's keys, then those configured outside it. */
  method CatalogKeys(catalog: seq<string>, values: Fields) returns (keys: seq<string>)
    requires NoDuplicates(catalog)
    ensures NoDuplicates(keys) && forall key :: key in keys <==> key in catalog || key in values
    ensures forall i, j :: 0 <= i < j < |keys| ==> KeyPrecedes(catalog, keys[i], keys[j])
  {
    var unknown: seq<string> := [];
    var left := values.Keys;
    while left != {}
      invariant left <= values.Keys && Sorted(unknown)
      invariant forall key :: key in unknown <==> key in values && key !in left && key !in catalog
      decreases left
    {
      var key :| key in left;
      if key !in catalog {
        unknown := InsertKey(key, unknown);
      }
      left := left - {key};
    }
    keys := catalog + unknown;
    KnownThenSorted(catalog, unknown);
  }

  lemma {:induction false} BeforeIsStrict(a: string)
    ensures !Before(a, a)
  {
    if a != "" { BeforeIsStrict(a[1..]); }
  }

  lemma KnownThenSorted(catalog: seq<string>, unknown: seq<string>)
    requires NoDuplicates(catalog) && Sorted(unknown) && forall key :: key in unknown ==> key !in catalog
    ensures var keys := catalog + unknown;
            && NoDuplicates(keys)
            && forall i, j :: 0 <= i < j < |keys| ==> KeyPrecedes(catalog, keys[i], keys[j])
  {
    var keys := catalog + unknown;
    forall i, j | 0 <= i < j < |keys| ensures keys[i] != keys[j] && KeyPrecedes(catalog, keys[i], keys[j]) {
      BeforeIsStrict(keys[i]);
      if j < |catalog| {
        assert catalog[i] == keys[i] && catalog[j] == keys[j];
      } else {
        assert keys[j] in unknown && (i < |catalog| || keys[i] == unknown[i - |catalog|]);
      }
    }
  }

  /** catalogPolicyLocations for one of the two gateways. */
  method GatewayPlaces(catalog: seq<string>, values: Fields, place: string -> Place) returns (places: seq<Place>)
    requires NoDuplicates(catalog) && forall key :: place(key).key == key
    ensures NoDuplicates(places)
    ensures forall p :: p in places <==> (p.key in catalog || p.key in values) && place(p.key) == p
    ensures forall i, j :: 0 <= i < j < |places| ==> KeyPrecedes(catalog, places[i].key, places[j].key)
  {
    var keys := CatalogKeys(catalog, values);
    places := [];
    for i := 0 to |keys|
      invariant |places| == i && forall k :: 0 <= k < i ==> places[k] == place(keys[k])
    {
      places := places + [place(keys[i])];
    }
    forall i, j | 0 <= i < j < |places| ensures places[i] != places[j] {
      assert places[i].key == keys[i] && places[j].key == keys[j];
    }
    forall p ensures p in places <==> (p.key in catalog || p.key in values) && place(p.key) == p {
      if p in places {
        var i :| 0 <= i < |places| && places[i] == p;
        assert p.key == keys[i] && keys[i] in keys;
      } else if p.key in keys {
        var i :| 0 <= i < |keys| && keys[i] == p.key;
        assert places[i] in places;
      }
    }
  }

  lemma JoinedInOrder(llm: seq<Place>, models: seq<Place>, mcp: seq<Place>)
    requires NoDuplicates(llm) && NoDuplicates(models) && NoDuplicates(mcp)
    requires InOrder(llm) && InOrder(models) && InOrder(mcp)
    requires forall p :: p in llm ==> p.LlmPolicy?
    requires forall p :: p in models ==> p.ModelPolicy?
    requires forall p :: p in mcp ==> p.McpPolicy?
    ensures NoDuplicates(llm + models + mcp) && InOrder(llm + models + mcp)
  {
    assert forall i :: 0 <= i < |llm| ==> llm[i].LlmPolicy?;
    assert forall i :: 0 <= i < |models| ==> models[i].ModelPolicy?;
    assert forall i :: 0 <= i < |mcp| ==> mcp[i].McpPolicy?;
  }

  /** The models' policies, numbered through. */
  function ModelPlaceAt(k: nat): Place {
    ModelPolicy(k / |MODEL_CATALOG|, MODEL_CATALOG[k % |MODEL_CATALOG|])
  }

  lemma ModelPlacesInOrder(i: nat, j: nat)
    requires i < j
    ensures ModelPlaceAt(i) != ModelPlaceAt(j) && Precedes(ModelPlaceAt(i), ModelPlaceAt(j))
  {
    ModelCatalogIsDuplicateFree();
    var n := |MODEL_CATALOG|;
    if i / n == j / n {
      assert i % n < j % n;
      assert MODEL_CATALOG[i % n] == ModelPlaceAt(i).key && MODEL_CATALOG[j % n] == ModelPlaceAt(j).key;
    }
  }

  /** The scan of policyByID. */
  method Scan(places: seq<Place>, id: string) returns (r: Option<Place>)
    ensures r.Some? ==> r.value in places && PlaceId(r.value) == id
    ensures r.None? ==> forall p :: p in places ==> PlaceId(p) != id
  {
    for i := 0 to |places|
      invariant forall k :: 0 <= k < i ==> PlaceId(places[k]) != id
    {
      if PlaceId(places[i]) == id {
        return Some(places[i]);
      }
    }
    r := None;
  }

  class ConfigDocument {
    var root: Fields

    constructor (root: Fields)
      ensures this.root == root
    {
      this.root := root;
    }

    /** The policies of the direct models, model by model. */
    method ModelPlaces() returns (places: seq<Place>)
      ensures NoDuplicates(places) && InOrder(places)
      ensures forall p :: p in places <==> p.ModelPolicy? && Listed(root, p)
    {
      var models := Models(root);
      places := [];
      for i := 0 to |models|
        invariant |places| == i * |MODEL_CATALOG|
        invariant forall k :: 0 <= k < |places| ==> places[k] == ModelPlaceAt(k)
      {
        for j := 0 to |MODEL_CATALOG|
          invariant |places| == i * |MODEL_CATALOG| + j
          invariant forall k :: 0 <= k < |places| ==> places[k] == ModelPlaceAt(k)
        {
          places := places + [ModelPolicy(i, MODEL_CATALOG[j])];
        }
      }
      forall i, j | 0 <= i < j < |places| ensures places[i] != places[j] && Precedes(places[i], places[j]) {
        ModelPlacesInOrder(i, j);
      }
      forall p: Place | p.ModelPolicy? && Listed(root, p) ensures p in places {
        var j :| 0 <= j < |MODEL_CATALOG| && MODEL_CATALOG[j] == p.key;
        var k := p.index * |MODEL_CATALOG| + j;
        assert k / |MODEL_CATALOG| == p.index && k % |MODEL_CATALOG| == j;
        assert places[k] == p;
      }
    }

    /** policyLocations. */
    method Places() returns (r: Result<seq<Place>, Error>)
      ensures r.Ok? <==> Readable(root)
      ensures r.Ok? ==> NoDuplicates(r.value) && InOrder(r.value) && forall p :: p in r.value <==> Listed(root, p)
      ensures r.Err? ==> r.error == Contract
    {
      if !SectionReadable(root, "llm") {
        return Err(Contract);
      }
      LlmCatalogIsDuplicateFree();
      McpCatalogIsDuplicateFree();
      var llm := GatewayPlaces(LLM_CATALOG, Policies(root, "llm"), (key: string) => LlmPolicy(key));
      if AsArray(Field(Owner(root, "llm"), "models")).None? {
        return Err(Contract);
      }
      for i := 0 to |Models(root)|
        invariant forall k :: 0 <= k < i ==> ModelReadable(Models(root)[k])
      {
        if !ModelReadable(Models(root)[i]) {
          return Err(Contract);
        }
      }
      var models := ModelPlaces();
      if !SectionReadable(root, "mcp") {
        return Err(Contract);
      }
      var mcp := GatewayPlaces(MCP_CATALOG, Policies(root, "mcp"), (key: string) => McpPolicy(key));
      JoinedInOrder(llm, models, mcp);
      r := Ok(llm + models + mcp);
    }

    /** policyByID. */
    method PolicyById(id: string) returns (r: Result<Place, Error>)
      ensures r == if Trim(id) == "" then Err(InvalidRequest)
                   else if !Readable(root) then Err(Contract)
                   else if PlaceOf(root, id).None? then Err(NotFound)
                   else Ok(PlaceOf(root, id).value)
    {
      if Trim(id) == "" {
        return Err(InvalidRequest);
      }
      var places := Places();
      if places.Err? {
        return Err(places.error);
      }
      var found := Scan(places.value, id);
      if found.None? {
        return Err(NotFound);
      }
      ListedIsFound(root, found.value);
      r := Ok(found.value);
    }

    method SetGlobalPolicy(section: string, list: string, key: string, value: Json)
      modifies this
      ensures root == SetGlobal(old(root), section, list, key, value)
    {
      var owner := Owner(root, section);
      if Field(owner, list) == None || Field(owner, list) == Some(Null) {
        owner := owner[list := Arr([])];
      }
      var policies := FieldsOf(Field(owner, "policies"));
      policies := policies[key := value];
      owner := owner["policies" := Obj(policies)];
      root := root[section := Obj(owner)];
    }

    method DisableLlmPolicy(key: string)
      modifies this
      ensures root == DisableLlm(old(root), key)
    {
      if Field(root, "llm") == None || !root["llm"].Obj? {
        return;
      }
      var owner := Owner(root, "llm");
      if Field(owner, "policies") == None || !owner["policies"].Obj? {
        return;
      }
      var policies := owner["policies"].fields;
      if key == "localRateLimit" || key == "guardrails" {
        policies := policies - {key};
      } else {
        policies := policies[key := Null];
      }
      root := root["llm" := Obj(owner["policies" := Obj(policies)])];
    }

    method DeleteMcpPolicy(key: string)
      modifies this
      ensures root == DeleteMcp(old(root), key)
    {
      if Field(root, "mcp") == None || !root["mcp"].Obj? {
        return;
      }
      var owner := Owner(root, "mcp");
      if Field(owner, "policies") == None || !owner["policies"].Obj? {
        return;
      }
      root := root["mcp" := Obj(owner["policies" := Obj(owner["policies"].fields - {key})])];
    }

    /** setModelPolicy and deleteModelPolicy; a value of None deletes. */
    method ChangeModelPolicy(index: nat, key: string, value: Option<Json>) returns (e: Option<Error>)
      modifies this
      ensures match (if value.Some? then Set(old(root), ModelPolicy(index, key), value.value)
                     else Remove(old(root), ModelPolicy(index, key)))
              case Ok(after) => e.None? && root == after
              case Err(error) => e == Some(error) && root == old(root)
    {
      var models := Models(root);
      if index >= |models| {
        return Some(NotFound);
      }
      if !models[index].Obj? {
        return Some(Contract);
      }
      var f := models[index].fields;
      if value.Some? {
        if key == "tls" && "backendTLS" in f {
          return Some(InvalidRequest);
        }
        if key == "backendTLS" && "tls" in f {
          return Some(InvalidRequest);
        }
        f := f[key := value.value];
      } else {
        f := f - {key};
      }
      root := root["llm" := Obj(Owner(root, "llm")["models" := Arr(models[index := Obj(f)])])];
      e := None;
    }

    /** The lookup by ID and the change. */
    method ApplyChange(id: string, op: Operation) returns (e: Option<Error>)
      modifies this
      ensures match Apply(old(root), id, op)
              case Ok(after) => e.None? && root == after
              case Err(error) => e == Some(error) && root == old(root)
    {
      var found := PolicyById(id);
      if found.Err? {
        return Some(found.error);
      }
      var p := found.value;
      if !Editable(p) {
        return Some(InvalidRequest);
      }
      if op.Upsert? && op.value.Null? {
        return Some(InvalidRequest);
      }
      if op.Delete? && !Enabled(Get(root, p)) {
        return Some(NotFound);
      }
      match p
      case ModelPolicy(index, key) =>
        e := ChangeModelPolicy(index, key, if op.Upsert? then Some(op.value) else None);
      case LlmPolicy(key) =>
        if op.Upsert? {
          SetGlobalPolicy("llm", "models", key, op.value);
        } else {
          DisableLlmPolicy(key);
        }
        e := None;
      case McpPolicy(key) =>
        if op.Upsert? {
          SetGlobalPolicy("mcp", "targets", key, op.value);
        } else {
          DeleteMcpPolicy(key);
        }
        e := None;
    }
  }
}
