/**
 * The strict-mode schema patch of the LLM service and the structured-output
 * directive its chat completion builds around the patched schema.
 *
 * The source deep-copies the schema and then mutates the copy in place; on
 * Json values the copy is the value itself, so the caller's schema cannot be
 * changed and `Patch` returns the patched copy.
 */
module LlmService {
  import opened Wrappers
  import opened Json
  import PyText

  const AdditionalProperties := "additionalProperties"
  const DefaultModel := "gpt-4o-mini-2024-07-18"

  /** `obj.get("type") == "object"`. */
  predicate IsObjectType(m: map<string, Json>) {
    "type" in m && m["type"] == JString("object")
  }

  // ---------------------------------------------------------------------------
  // The traversal of `_fix_schema_for_openai`

  /**
   * `patch(obj)`: a dict whose "type" is "object" gets additionalProperties
   * set to false, and every value of the dict is visited; anything that is not
   * a dict is left alone.
   */
  function Patch(j: Json): Json
    decreases j, 1
  {
    match j
    case JObject(m) =>
      var visited := map k | k in m :: Visit(m[k]);
      JObject(if IsObjectType(m) then visited[AdditionalProperties := JBool(false)] else visited)
    case _ => j
  }

  /**
   * One iteration of the loop over `obj.values()`: a dict value is patched,
   * the dict items of a list value are patched, and nothing else (a list
   * inside a list among them) is looked at.
   */
  function Visit(v: Json): Json
    decreases v, 2
  {
    match v
    case JArray(items) =>
      JArray(seq(|items|, i requires 0 <= i < |items| =>
        if items[i].JObject? then Patch(items[i]) else items[i]))
    case _ => Patch(v)
  }

  /** `_fix_schema_for_openai(schema)`: the patched deep copy. */
  function FixSchemaForOpenai(schema: Json): Json {
    Patch(schema)
  }

  // ---------------------------------------------------------------------------
  // What strict mode demands, stated on its own

  /**
   * Every dict the traversal reaches (through dict values and through dict
   * items of lists) that is object-typed carries additionalProperties: false.
   */
  predicate Strict(j: Json)
    decreases j, 1
  {
    match j
    case JObject(m) =>
      && (IsObjectType(m) ==> AdditionalProperties in m && m[AdditionalProperties] == JBool(false))
      && forall k | k in m :: StrictValue(m[k])
    case _ => true
  }

  predicate StrictValue(v: Json)
    decreases v, 2
  {
    match v
    case JArray(items) => forall i | 0 <= i < |items| :: items[i].JObject? ==> Strict(items[i])
    case _ => Strict(v)
  }

  /**
   * `b` differs from `a` at most in the additionalProperties entry of the
   * object-typed dicts the traversal reaches: same shape, same scalars, same
   * keys except for that one key added to object-typed dicts.
   */
  predicate PatchedFrom(a: Json, b: Json)
    decreases a, 1
  {
    match a
    case JObject(m) =>
      && b.JObject?
      && b.fields.Keys == m.Keys + (if IsObjectType(m) then {AdditionalProperties} else {})
      && forall k | k in m && !(k == AdditionalProperties && IsObjectType(m)) ::
           ValuePatchedFrom(m[k], b.fields[k])
    case _ => b == a
  }

  predicate ValuePatchedFrom(a: Json, b: Json)
    decreases a, 2
  {
    match a
    case JArray(items) =>
      && b.JArray?
      && |b.items| == |items|
      && forall i | 0 <= i < |items| ::
           if items[i].JObject? then PatchedFrom(items[i], b.items[i]) else b.items[i] == items[i]
    case _ => PatchedFrom(a, b)
  }

  // ---------------------------------------------------------------------------
  // Properties of the patch

  /** Visiting keeps the kind of a value, and keeps a scalar as it is. */
  lemma VisitKeepsKind(v: Json)
    ensures Visit(v).JObject? == v.JObject? && Visit(v).JArray? == v.JArray?
    ensures IsScalar(v) ==> Visit(v) == v
  {
  }

  /** The patch never changes whether a dict is object-typed. */
  lemma PatchKeepsType(m: map<string, Json>)
    ensures Patch(JObject(m)).fields.Keys == m.Keys + (if IsObjectType(m) then {AdditionalProperties} else {})
    ensures IsObjectType(Patch(JObject(m)).fields) == IsObjectType(m)
  {
    if "type" in m {
      VisitKeepsKind(m["type"]);
    }
  }

  /** Every object-typed dict the traversal reaches ends with additionalProperties == false. */
  lemma {:induction false} PatchIsStrict(j: Json)
    ensures Strict(Patch(j))
    decreases j, 1
  {
    match j
    case JObject(m) =>
      PatchKeepsType(m);
      var r := Patch(j).fields;
      forall k | k in r ensures StrictValue(r[k]) {
        if k == AdditionalProperties && IsObjectType(m) {
          assert r[k] == JBool(false);
        } else {
          VisitIsStrict(m[k]);
        }
      }
    case _ =>
  }

  lemma {:induction false} VisitIsStrict(v: Json)
    ensures StrictValue(Visit(v))
    decreases v, 2
  {
    match v
    case JArray(items) =>
      var r := Visit(v).items;
      forall i | 0 <= i < |r| && r[i].JObject? ensures Strict(r[i]) {
        PatchIsStrict(items[i]);
      }
    case _ =>
      PatchIsStrict(v);
  }

  /** The patch adds or overwrites additionalProperties and changes nothing else. */
  lemma {:induction false} PatchOnlySetsAdditionalProperties(j: Json)
    ensures PatchedFrom(j, Patch(j))
    decreases j, 1
  {
    match j
    case JObject(m) =>
      PatchKeepsType(m);
      forall k | k in m && !(k == AdditionalProperties && IsObjectType(m))
        ensures ValuePatchedFrom(m[k], Patch(j).fields[k])
      {
        VisitOnlySetsAdditionalProperties(m[k]);
      }
    case _ =>
  }

  lemma {:induction false} VisitOnlySetsAdditionalProperties(v: Json)
    ensures ValuePatchedFrom(v, Visit(v))
    decreases v, 2
  {
    match v
    case JArray(items) =>
      forall i | 0 <= i < |items| && items[i].JObject?
        ensures PatchedFrom(items[i], Visit(v).items[i])
      {
        PatchOnlySetsAdditionalProperties(items[i]);
      }
    case _ =>
      PatchOnlySetsAdditionalProperties(v);
  }

  /** A kind-preserving relative of a scalar is that scalar. */
  lemma ValuePatchedFromScalar(a: Json, b: Json)
    requires ValuePatchedFrom(a, b)
    ensures a.JObject? == b.JObject? && a.JArray? == b.JArray?
    ensures IsScalar(a) ==> b == a
  {
  }

  /**
   * The patch is the only result meeting both demands: a tree that is strict
   * and differs from the schema only in additionalProperties entries is the
   * patched schema.
   */
  lemma {:induction false} PatchIsUnique(a: Json, b: Json)
    requires PatchedFrom(a, b) && Strict(b)
    ensures b == Patch(a)
    decreases a, 1
  {
    match a
    case JObject(m) =>
      var n := b.fields;
      assert IsObjectType(n) == IsObjectType(m) by {
        if "type" in m {
          ValuePatchedFromScalar(m["type"], n["type"]);
        }
      }
      var p := Patch(a).fields;
      PatchKeepsType(m);
      forall k | k in n ensures n[k] == p[k] {
        if k == AdditionalProperties && IsObjectType(m) {
        } else {
          VisitIsUnique(m[k], n[k]);
        }
      }
      assert n == p;
    case _ =>
  }

  lemma {:induction false} VisitIsUnique(a: Json, b: Json)
    requires ValuePatchedFrom(a, b) && StrictValue(b)
    ensures b == Visit(a)
    decreases a, 2
  {
    match a
    case JArray(items) =>
      var r := Visit(a).items;
      forall i | 0 <= i < |items| ensures b.items[i] == r[i] {
        if items[i].JObject? {
          assert b.items[i].JObject?;
          PatchIsUnique(items[i], b.items[i]);
        }
      }
      assert b.items == r;
    case _ =>
      PatchIsUnique(a, b);
  }

  /** A strict tree is left as it is. */
  lemma {:induction false} StrictIsFixedPoint(j: Json)
    requires Strict(j)
    ensures Patch(j) == j
    decreases j, 1
  {
    match j
    case JObject(m) =>
      var p := Patch(j).fields;
      PatchKeepsType(m);
      forall k | k in m ensures p[k] == m[k] {
        if k == AdditionalProperties && IsObjectType(m) {
        } else {
          StrictValueIsFixedPoint(m[k]);
        }
      }
      assert p == m;
    case _ =>
  }

  lemma {:induction false} StrictValueIsFixedPoint(v: Json)
    requires StrictValue(v)
    ensures Visit(v) == v
    decreases v, 2
  {
    match v
    case JArray(items) =>
      var r := Visit(v).items;
      forall i | 0 <= i < |items| ensures r[i] == items[i] {
        if items[i].JObject? {
          StrictIsFixedPoint(items[i]);
        }
      }
      assert r == items;
    case _ =>
      StrictIsFixedPoint(v);
  }

  /** The patch leaves a tree unchanged exactly when the tree is already strict. */
  lemma PatchFixesExactlyStrict(j: Json)
    ensures Patch(j) == j <==> Strict(j)
  {
    PatchIsStrict(j);
    if Strict(j) {
      StrictIsFixedPoint(j);
    }
  }

  /** Patching an already-patched schema gives the same tree. */
  lemma PatchIdempotent(j: Json)
    ensures Patch(Patch(j)) == Patch(j)
  {
    PatchIsStrict(j);
    StrictIsFixedPoint(Patch(j));
  }

  /** An existing additionalProperties of an object-typed dict, even `true`, becomes false. */
  lemma OverwritesAdditionalProperties(m: map<string, Json>)
    requires IsObjectType(m)
    ensures AdditionalProperties in Patch(JObject(m)).fields
    ensures Patch(JObject(m)).fields[AdditionalProperties] == JBool(false)
  {
  }

  /**
   * A dict inside a list inside a list is not visited: even an object-typed
   * dict there keeps its keys and gets no additionalProperties.
   */
  lemma DoublyNestedDictNotVisited(key: string, inner: map<string, Json>)
    requires AdditionalProperties !in inner
    ensures var schema := JObject(map[key := JArray([JArray([JObject(inner)])])]);
            Patch(schema) == schema
  {
    var items := [JArray([JObject(inner)])];
    assert Visit(JArray(items)).items == items;
  }

  /** A top-level list is not patched at all: only dicts are. */
  lemma TopLevelListUntouched(items: seq<Json>)
    ensures Patch(JArray(items)) == JArray(items)
  {
  }

  // ---------------------------------------------------------------------------
  // The structured-output directive of `chat_completion`

  /** A Pydantic model class passed as `response_format`: its `__name__` and its `model_json_schema()`. */
  datatype ResponseModel = ResponseModel(className: string, schema: Json)

  /** A chat message dict as the caller passes it. */
  type Message = Json

  /** The arguments of the one `litellm.completion` call. */
  datatype CompletionRequest = CompletionRequest(
    model: string,
    messages: seq<Message>,
    responseFormat: Option<Json>)

  /** The `response_format_dict` built around the patched schema. */
  function ResponseFormatDirective(rm: ResponseModel): (r: Json)
    ensures r.JObject? && r.fields.Keys == {"type", "json_schema"}
    ensures r.fields["type"] == JString("json_schema")
    ensures var d := r.fields["json_schema"];
            && d.JObject? && d.fields.Keys == {"name", "strict", "schema"}
            && d.fields["name"] == JString(PyText.Lower(rm.className))
            && d.fields["strict"] == JBool(true)
            && d.fields["schema"] == Patch(rm.schema)
            && Strict(d.fields["schema"])
    ensures rm.schema.JObject? ==> Strict(r)
  {
    var inner := map["name" := JString(PyText.Lower(rm.className)),
                     "strict" := JBool(true),
                     "schema" := FixSchemaForOpenai(rm.schema)];
    var directive := map["type" := JString("json_schema"), "json_schema" := JObject(inner)];
    PatchIsStrict(rm.schema);
    assert !IsObjectType(inner) && !IsObjectType(directive);
    assert rm.schema.JObject? ==> StrictValue(inner["schema"]);
    assert StrictValue(inner["name"]) && StrictValue(inner["strict"]);
    assert rm.schema.JObject? ==> StrictValue(JObject(inner));
    JObject(directive)
  }

  /**
   * `chat_completion(messages, model, response_format)`: the request passed
   * to the provider. `model` is `None` when the caller leaves the default.
   * With a response model the directive replaces it; without one,
   * `response_format` is passed through as `None`.
   */
  function ChatCompletion(messages: seq<Message>, model: Option<string>, responseFormat: Option<ResponseModel>): (r: CompletionRequest)
    ensures model.Some? ==> r.model == model.value
    ensures model.None? ==> r.model == DefaultModel
    ensures r.messages == messages
    ensures r.responseFormat.None? <==> responseFormat.None?
    ensures responseFormat.Some? ==> r.responseFormat == Some(ResponseFormatDirective(responseFormat.value))
  {
    match responseFormat
    case Some(rm) => CompletionRequest(model.GetOr(DefaultModel), messages, Some(ResponseFormatDirective(rm)))
    case None => CompletionRequest(model.GetOr(DefaultModel), messages, None)
  }
}
