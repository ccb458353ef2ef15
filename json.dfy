/** JavaScript values as they come out of `JSON.parse` and go into `JSON.stringify`,
    with the few pieces of JavaScript semantics the app's code relies on when it
    handles them: truthiness, `typeof`, property access, `String(v)`. */
module Json {
  import opened Wrappers
  import opened Strings

  /** A JavaScript value built from JSON. Numbers are integers only; objects are maps,
      so the key order of a JavaScript object is not represented. An array also carries
      the named (non-index) properties a script assigned to it (`arr[id] = x`): they
      are visible to property reads and `Object.keys` during the session, but
      `JSON.stringify` drops them. */
  datatype Json =
    | JNull
    | JBool(b: bool)
    | JNum(n: int)
    | JString(s: string)
    | JArray(items: seq<Json>, named: map<string, Json>)
    | JObject(fields: map<string, Json>)

  /** The empty object `{}`. */
  const EmptyObject: Json := JObject(map[])

  /** An array literal: elements and no named properties. */
  function Arr(items: seq<Json>): Json {
    JArray(items, map[])
  }

  /** The empty array `[]`. */
  const EmptyArray: Json := Arr([])

  /** JavaScript truthiness (`if (v)`, `!v`, `v || w`). */
  predicate Truthy(v: Json) {
    match v
    case JNull => false
    case JBool(b) => b
    case JNum(n) => n != 0
    case JString(s) => s != ""
    case _ => true
  }

  /** Truthiness of a value that may be `undefined`. */
  predicate TruthyOpt(v: Option<Json>) {
    v.Some? && Truthy(v.value)
  }

  /** `typeof v === 'object'`: null, arrays and objects. */
  predicate IsObjectType(v: Json) {
    v.JNull? || v.JArray? || v.JObject?
  }

  /** `v[k]` on a value that is not `null` (reading a property of `null` throws;
      callers decide that case): an own property, which for an array is an index or
      a named property and for a string an index; anything else is `undefined`. */
  function Prop(v: Json, k: string): (r: Option<Json>)
    ensures v.JObject? ==> (r.Some? <==> k in v.fields) && (r.Some? ==> r.value == v.fields[k])
    ensures v.JArray? && k in v.named ==> r == Some(v.named[k])
    ensures v.JNull? || v.JBool? || v.JNum? ==> r.None?
  {
    var props := OwnProps(v);
    if k in props then Some(props[k]) else None
  }

  /** `a || b` where either operand may be `undefined`. */
  function Or(a: Option<Json>, b: Option<Json>): (r: Option<Json>)
    ensures TruthyOpt(a) ==> r == a
    ensures !TruthyOpt(a) ==> r == b
  {
    if TruthyOpt(a) then a else b
  }

  /** `v[k] = x` for a property name that is not an array index: it sets a field of an
      object or a named property of an array; on a primitive a sloppy-mode script
      ignores the assignment (on `null` it throws; callers decide that case). */
  function PutProp(v: Json, k: string, x: Json): (r: Json)
    ensures v.JObject? || v.JArray? ==> Prop(r, k) == Some(x)
    ensures v.JObject? || v.JArray? ==> forall j :: j != k ==> Prop(r, j) == Prop(v, j)
    ensures v.JObject? ==> r == JObject(v.fields[k := x])
    ensures v.JArray? ==> r == JArray(v.items, v.named[k := x])
    ensures !v.JObject? && !v.JArray? ==> r == v
  {
    match v
    case JObject(m) => JObject(m[k := x])
    case JArray(items, named) => JArray(items, named[k := x])
    case _ => v
  }

  /** `delete v[k]`, with the same reading as `PutProp`. */
  function DeleteProp(v: Json, k: string): (r: Json)
    ensures v.JObject? ==> Prop(r, k).None?
    ensures v.JArray? ==> r.JArray? && k !in r.named && r.items == v.items
    ensures forall j :: j != k ==> Prop(r, j) == Prop(v, j)
    ensures v.JObject? ==> r == JObject(v.fields - {k})
    ensures v.JArray? ==> r == JArray(v.items, v.named - {k})
    ensures !v.JObject? && !v.JArray? ==> r == v
  {
    match v
    case JObject(m) => JObject(m - {k})
    case JArray(items, named) => JArray(items, named - {k})
    case _ => v
  }

  /** `arr.push(x)`. */
  function Push(v: Json, x: Json): (r: Json)
    requires v.JArray?
    ensures r.JArray? && r.items == v.items + [x] && r.named == v.named
  {
    JArray(v.items + [x], v.named)
  }

  /** `if (!h[id]) h[id] = []`. */
  function EnsureList(h: Json, id: string): (r: Json)
    ensures h.JObject? || h.JArray? ==> TruthyOpt(Prop(r, id))
    ensures forall j :: j != id ==> Prop(r, j) == Prop(h, j)
    ensures TruthyOpt(Prop(h, id)) ==> r == h
    ensures !TruthyOpt(Prop(h, id)) ==> r == PutProp(h, id, EmptyArray)
  {
    if TruthyOpt(Prop(h, id)) then h else PutProp(h, id, EmptyArray)
  }

  /** `EnsureList` followed by `h[id].push(entry)`: the new object, or `None` on a
      `TypeError` (`h` is `null`, or `h[id]` is not an array). */
  function WithEntry(h: Json, id: string, entry: Json): (r: Option<Json>)
    ensures h.JObject? && !TruthyOpt(Prop(h, id)) ==> r == Some(JObject(h.fields[id := Arr([entry])]))
    ensures h.JArray? && !TruthyOpt(Prop(h, id)) ==> r == Some(JArray(h.items, h.named[id := Arr([entry])]))
    ensures TruthyOpt(Prop(h, id)) && Prop(h, id).value.JArray? ==> r == Some(PutProp(h, id, Push(Prop(h, id).value, entry)))
  {
    if h.JNull? then None
    else
      var h1 := EnsureList(h, id);
      assert h.JObject? ==> h1.fields[id := Arr([entry])] == h.fields[id := Arr([entry])];
      assert h.JArray? ==> h1.named[id := Arr([entry])] == h.named[id := Arr([entry])];
      assert [] + [entry] == [entry];
      match Prop(h1, id)
      case Some(JArray(items, named)) => Some(PutProp(h1, id, JArray(items + [entry], named)))
      case _ => None
  }

  /** On an object whose entry is already an array, `WithEntry` pushes onto that array
      and leaves every other entry, and the set of keys, as they were. */
  lemma WithEntryAppends(h: Json, id: string, entry: Json)
    requires h.JObject? && id in h.fields && h.fields[id].JArray?
    ensures var r := WithEntry(h, id, entry);
      && r.Some? && r.value.JObject? && r.value.fields.Keys == h.fields.Keys
      && r.value.fields[id] == JArray(h.fields[id].items + [entry], h.fields[id].named)
      && forall k :: k in h.fields && k != id ==> r.value.fields[k] == h.fields[k]
  {
  }

  /** `order` lists every key of `keys` exactly once: the order in which `Object.keys`,
      `Object.entries` or `localStorage.key(i)` enumerate them, which is a parameter. */
  predicate Enumerates(order: seq<string>, keys: set<string>) {
    && (forall i, j :: 0 <= i < j < |order| ==> order[i] != order[j])
    && (forall i :: 0 <= i < |order| ==> order[i] in keys)
    && (forall k :: k in keys ==> k in order)
  }

  /** Index keys "0", "1", ... of a sequence, starting at `from`. */
  function IndexProps<T>(xs: seq<T>, from: nat, f: T -> Json): map<string, Json>
    decreases |xs|
  {
    if xs == [] then map[] else IndexProps(xs[1..], from + 1, f)[NatText(from) := f(xs[0])]
  }

  /** Index key `from + i` holds the `i`-th element. */
  lemma {:induction false} IndexPropsAt<T>(xs: seq<T>, from: nat, f: T -> Json, i: nat)
    requires i < |xs|
    decreases i
    ensures NatText(from + i) in IndexProps(xs, from, f)
    ensures IndexProps(xs, from, f)[NatText(from + i)] == f(xs[i])
  {
    if i > 0 {
      var rest := IndexProps(xs[1..], from + 1, f);
      IndexPropsAt(xs[1..], from + 1, f, i - 1);
      assert from + 1 + (i - 1) == from + i;
      assert NatText(from + i) in rest && rest[NatText(from + i)] == f(xs[i]);
      if NatText(from + i) == NatText(from) {
        NatTextInjective(from + i, from);
      }
    }
  }

  /** `k` is the decimal text of an index in `from`, ..., `from + len - 1`. */
  predicate IndexKey(k: string, from: nat, len: nat) {
    exists n: nat :: from <= n < from + len && k == NatText(n)
  }

  /** Every index key is the text of an index `from`, ..., `from + |xs| - 1`. */
  lemma {:induction false} IndexPropsKeys<T>(xs: seq<T>, from: nat, f: T -> Json)
    decreases |xs|
    ensures forall k :: k in IndexProps(xs, from, f) ==> IndexKey(k, from, |xs|)
  {
    if xs != [] {
      IndexPropsKeys(xs[1..], from + 1, f);
      var rest := IndexProps(xs[1..], from + 1, f);
      assert IndexProps(xs, from, f) == rest[NatText(from) := f(xs[0])];
      forall k | k in IndexProps(xs, from, f) ensures IndexKey(k, from, |xs|) {
        if k != NatText(from) {
          assert k in rest && IndexKey(k, from + 1, |xs| - 1);
          var n: nat :| from + 1 <= n < from + |xs| && k == NatText(n);
          assert from <= n < from + |xs|;
        } else {
          assert from <= from < from + |xs|;
        }
      }
    }
  }

  /** The own enumerable properties that `Object.keys`, `Object.entries` and
      `Object.assign` see: an object's fields, an array's indices and named
      properties, a string's characters; numbers, booleans and `null` have none
      (`Object.keys(null)` throws; callers decide that case). */
  function OwnProps(v: Json): map<string, Json> {
    match v
    case JObject(m) => m
    case JArray(items, named) => IndexProps(items, 0, (x: Json) => x) + named
    case JString(s) => IndexProps(s, 0, CharString)
    case _ => map[]
  }

  /** A one-character string, what a string's index property holds. */
  function CharString(c: char): Json {
    JString([c])
  }

  /** `String(v)`: what a template literal or `localStorage.setItem` makes of a value. */
  function Text(v: Json): string {
    match v
    case JNull => "null"
    case JBool(b) => if b then "true" else "false"
    case JNum(n) => IntText(n)
    case JString(s) => s
    case JArray(items, _) => JoinTexts(items)
    case JObject(_) => "[object Object]"
  }

  /** `Array.prototype.join(',')`, which writes `null` elements as the empty string. */
  function JoinTexts(items: seq<Json>): string
    decreases items, 0
  {
    if items == [] then ""
    else
      var first := if items[0].JNull? then "" else Text(items[0]);
      if |items| == 1 then first else first + "," + JoinTexts(items[1..])
  }

  /** `String(v)` for a value that may be `undefined`. */
  function TextOpt(v: Option<Json>): string {
    if v.None? then "undefined" else Text(v.value)
  }

  /** `JSON.parse` and `JSON.stringify`, kept abstract. */
  datatype Codec = Codec(parse: string -> Option<Json>, stringify: Json -> string)

  /** The value `JSON.stringify` writes out: arrays lose their named properties, at
      every depth. */
  function Persisted(v: Json): Json {
    match v
    case JArray(items, _) => JArray(seq(|items|, i requires 0 <= i < |items| => Persisted(items[i])), map[])
    case JObject(m) => JObject(map k | k in m :: Persisted(m[k]))
    case _ => v
  }

  /** A value `JSON.parse` can produce: no array carries named properties. */
  predicate Plain(v: Json) {
    match v
    case JArray(items, named) => named == map[] && forall i :: 0 <= i < |items| ==> Plain(items[i])
    case JObject(m) => forall k :: k in m ==> Plain(m[k])
    case _ => true
  }

  /** What this model relies on about the codec: parsing undoes stringifying up to the
      named properties of arrays, JSON text is never empty, the empty string does not
      parse, and `null`, booleans and numbers are written exactly as `String(v)`
      writes them. */
  ghost predicate Lawful(c: Codec) {
    && (forall v :: c.parse(c.stringify(v)) == Some(Persisted(v)))
    && (forall v :: c.stringify(v) != "")
    && c.parse("") == None
    && (forall v: Json :: (v.JNull? || v.JBool? || v.JNum?) ==> c.stringify(v) == Text(v))
  }

  /** A value without named array properties is written out as it is. */
  lemma {:induction false} PlainIsPersisted(v: Json)
    requires Plain(v)
    ensures Persisted(v) == v
  {
    match v
    case JArray(items, named) =>
      forall i | 0 <= i < |items| ensures Persisted(items[i]) == items[i] {
        PlainIsPersisted(items[i]);
      }
      assert seq(|items|, i requires 0 <= i < |items| => Persisted(items[i])) == items;
    case JObject(m) =>
      forall k | k in m ensures Persisted(m[k]) == m[k] {
        PlainIsPersisted(m[k]);
      }
      assert (map k | k in m :: Persisted(m[k])) == m;
    case _ =>
  }

  /** What `JSON.stringify` writes out has no named array properties. */
  lemma {:induction false} PersistedIsPlain(v: Json)
    ensures Plain(Persisted(v))
  {
    match v
    case JArray(items, named) =>
      forall i | 0 <= i < |items| ensures Plain(Persisted(items[i])) {
        PersistedIsPlain(items[i]);
      }
    case JObject(m) =>
      forall k | k in m ensures Plain(Persisted(m[k])) {
        PersistedIsPlain(m[k]);
      }
    case _ =>
  }

  /** Writing out twice is writing out once. */
  lemma PersistedTwice(v: Json)
    ensures Persisted(Persisted(v)) == Persisted(v)
  {
    PersistedIsPlain(v);
    PlainIsPersisted(Persisted(v));
  }
}
