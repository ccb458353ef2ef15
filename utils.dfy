/** `Utils`: the object test, the recursive merge and the per-provider request headers. */
module Utils {
  import opened Json

  /** `isObject(item)`: a non-null, non-array object. */
  predicate IsObject(v: Json) {
    v.JObject?
  }

  /** `deepMerge(target, source)`: a shallow copy of `target`'s own properties; when both
      are plain objects, every key of `source` is then written over it, recursively for
      an object value whose key `target` already has. */
  function DeepMerge(target: Json, source: Json): Json
    decreases source
  {
    var base := OwnProps(target);
    if IsObject(target) && IsObject(source) then
      JObject(map k | k in base.Keys + source.fields.Keys ::
        if k !in source.fields then base[k]
        else if IsObject(source.fields[k]) && k in target.fields then DeepMerge(target.fields[k], source.fields[k])
        else source.fields[k])
    else JObject(base)
  }

  /** The result is always a plain object; when both sides are objects its keys are
      those of both, and otherwise those of `target` alone (source ignored). */
  lemma DeepMergeKeys(target: Json, source: Json)
    ensures DeepMerge(target, source).JObject?
    ensures IsObject(target) && IsObject(source) ==>
      DeepMerge(target, source).fields.Keys == target.fields.Keys + source.fields.Keys
    ensures !(IsObject(target) && IsObject(source)) ==>
      DeepMerge(target, source).fields == OwnProps(target)
  {
  }

  /** Between two objects, a key only `target` has keeps its value, a non-object source
      value replaces the target's, and an object source value under a key `target` lacks
      is copied as it is. */
  lemma DeepMergeEntries(target: Json, source: Json, k: string)
    requires IsObject(target) && IsObject(source)
    ensures k in target.fields && k !in source.fields ==>
      DeepMerge(target, source).fields[k] == target.fields[k]
    ensures k in source.fields && !IsObject(source.fields[k]) ==>
      DeepMerge(target, source).fields[k] == source.fields[k]
    ensures k in source.fields && k !in target.fields ==>
      DeepMerge(target, source).fields[k] == source.fields[k]
    ensures k in source.fields && k in target.fields && IsObject(source.fields[k]) ==>
      DeepMerge(target, source).fields[k] == DeepMerge(target.fields[k], source.fields[k])
  {
  }

  /** Merging an object into itself gives the same object back. */
  lemma {:induction false} DeepMergeSelf(v: Json)
    requires IsObject(v)
    ensures DeepMerge(v, v) == v
    decreases v
  {
    var m := v.fields;
    forall k | k in m
      ensures DeepMerge(v, v).fields[k] == m[k]
    {
      if IsObject(m[k]) {
        DeepMergeSelf(m[k]);
      }
    }
    assert DeepMerge(v, v).fields == m;
  }

  /** An object value under a key whose target value is not a plain object is not
      copied: the recursive call starts from a copy of the target value's own properties
      and, that value not being an object, stops there. So a number, a boolean or `null`
      under the key becomes `{}` (the merge of `{a: 5}` and `{a: {x: 1}}` is `{a: {}}`),
      and an array or a string becomes the object of its indices. */
  lemma DeepMergeDropsUnderPrimitive(target: Json, source: Json, k: string)
    requires IsObject(target) && IsObject(source)
    requires k in target.fields && !IsObject(target.fields[k])
    requires k in source.fields && IsObject(source.fields[k])
    ensures DeepMerge(target, source).fields[k] == JObject(OwnProps(target.fields[k]))
    ensures target.fields[k].JNull? || target.fields[k].JBool? || target.fields[k].JNum? ==>
      DeepMerge(target, source).fields[k] == EmptyObject
  {
  }

  /** The value of `anthropic-version` sent to Anthropic. */
  const AnthropicVersion: string := "2023-06-01"

  /** `getApiHeaders(apiKey, provider)`. */
  function ApiHeaders(apiKey: string, provider: string): (h: map<string, string>)
    ensures "Content-Type" in h && h["Content-Type"] == "application/json"
    ensures apiKey == "" ==> h == map["Content-Type" := "application/json"]
    ensures apiKey != "" && provider == "anthropic" ==>
      h.Keys == {"Content-Type", "x-api-key", "anthropic-version"}
      && h["x-api-key"] == apiKey && h["anthropic-version"] == AnthropicVersion
    ensures apiKey != "" && provider == "google" ==>
      h.Keys == {"Content-Type", "x-goog-api-key"} && h["x-goog-api-key"] == apiKey
    ensures apiKey != "" && provider != "anthropic" && provider != "google" ==>
      h.Keys == {"Content-Type", "Authorization"} && h["Authorization"] == "Bearer " + apiKey
  {
    var base := map["Content-Type" := "application/json"];
    if apiKey == "" then base
    else if provider == "anthropic" then base["x-api-key" := apiKey]["anthropic-version" := AnthropicVersion]
    else if provider == "google" then base["x-goog-api-key" := apiKey]
    else base["Authorization" := "Bearer " + apiKey]
  }

  /** Every provider gets exactly one way of carrying the key, and none without a key. */
  lemma OneCredentialHeader(apiKey: string, provider: string)
    ensures var h := ApiHeaders(apiKey, provider);
      var carriers := h.Keys * {"x-api-key", "x-goog-api-key", "Authorization"};
      (apiKey == "" <==> carriers == {}) && |carriers| <= 1
  {
    var h := ApiHeaders(apiKey, provider);
    if apiKey != "" && provider == "anthropic" {
      assert h.Keys * {"x-api-key", "x-goog-api-key", "Authorization"} == {"x-api-key"};
    } else if apiKey != "" && provider == "google" {
      assert h.Keys * {"x-api-key", "x-goog-api-key", "Authorization"} == {"x-goog-api-key"};
    } else if apiKey != "" {
      assert h.Keys * {"x-api-key", "x-goog-api-key", "Authorization"} == {"Authorization"};
    } else {
      assert h.Keys * {"x-api-key", "x-goog-api-key", "Authorization"} == {};
    }
  }
}
