/** The array operations the app's collections go through: `indexOf`, `splice`, `push`,
    `filter` and `find`, on the elements of JSON arrays. */
module Lists {
  import opened Wrappers
  import opened Json

  /** `xs.indexOf(x)` (strict equality is value equality here). */
  function FirstIndex(xs: seq<Json>, x: Json): (r: int)
    ensures -1 <= r < |xs|
    ensures r >= 0 ==> xs[r] == x && x !in xs[..r]
    ensures r == -1 <==> x !in xs
  {
    if xs == [] then -1
    else if xs[0] == x then 0
    else
      var r := FirstIndex(xs[1..], x);
      assert xs[1..] == xs[1..][..|xs| - 1];
      if r == -1 then -1
      else
        assert xs[..r + 1] == [xs[0]] + xs[1..][..r];
        r + 1
  }

  /** `xs.splice(i, 1)`. */
  function RemoveAt(xs: seq<Json>, i: nat): (r: seq<Json>)
    requires i < |xs|
    ensures |r| == |xs| - 1
    ensures r == xs[..i] + xs[i + 1..]
    ensures multiset(r) == multiset(xs) - multiset{xs[i]}
  {
    assert xs == xs[..i] + [xs[i]] + xs[i + 1..];
    xs[..i] + xs[i + 1..]
  }

  /** The toggle of `togglePinContact` and `toggleLike`: `push` the value when `indexOf`
      does not find it, else `splice` out its first occurrence. */
  function Toggle(xs: seq<Json>, x: Json): (r: seq<Json>)
    ensures x !in xs ==> r == xs + [x]
    ensures x in xs ==> multiset(r) == multiset(xs) - multiset{x} && |r| == |xs| - 1
  {
    var i := FirstIndex(xs, x);
    if i == -1 then xs + [x] else RemoveAt(xs, i)
  }

  /** A value occurring at most once. */
  predicate AtMostOnce(xs: seq<Json>, x: Json) {
    multiset(xs)[x] <= 1
  }

  /** On a list holding the value at most once, a toggle flips whether it is there, and
      the list still holds it at most once. */
  lemma ToggleFlips(xs: seq<Json>, x: Json)
    requires AtMostOnce(xs, x)
    ensures x in Toggle(xs, x) <==> x !in xs
    ensures AtMostOnce(Toggle(xs, x), x)
  {
    var r := Toggle(xs, x);
    if x in xs {
      assert multiset(r)[x] == multiset(xs)[x] - 1 == 0;
    } else {
      assert multiset(r) == multiset(xs) + multiset{x};
    }
  }

  /** Toggling twice, starting from a list without the value, gives the same list back. */
  lemma ToggleTwiceRestores(xs: seq<Json>, x: Json)
    requires x !in xs
    ensures Toggle(Toggle(xs, x), x) == xs
  {
    var ys := xs + [x];
    assert x in ys;
    assert x !in ys[..|xs|] by { assert ys[..|xs|] == xs; }
    assert FirstIndex(ys, x) == |xs|;
    assert ys[..|xs|] + ys[|xs| + 1..] == xs;
  }

  /** `xs.filter(v => v !== x)`. */
  function Without(xs: seq<Json>, x: Json): (r: seq<Json>)
    ensures |r| <= |xs|
    ensures forall y :: y in r <==> y in xs && y != x
    ensures multiset(r) == multiset(xs)[x := 0]
    ensures x !in xs ==> r == xs
  {
    if xs == [] then []
    else
      assert xs == [xs[0]] + xs[1..];
      if xs[0] == x then Without(xs[1..], x)
      else [xs[0]] + Without(xs[1..], x)
  }

  /** Filtering a concatenation filters each part and keeps them in order, so the
      elements kept are those of the input, in their order. */
  lemma {:induction false} WithoutConcat(a: seq<Json>, b: seq<Json>, x: Json)
    ensures Without(a + b, x) == Without(a, x) + Without(b, x)
  {
    if a != [] {
      var ab := a + b;
      assert ab[0] == a[0] && ab[1..] == a[1..] + b;
      WithoutConcat(a[1..], b, x);
      var rest := Without(a[1..], x) + Without(b, x);
      if a[0] == x {
        assert Without(ab, x) == Without(ab[1..], x) == rest;
        assert Without(a, x) == Without(a[1..], x);
      } else {
        assert Without(ab, x) == [a[0]] + Without(ab[1..], x) == [a[0]] + rest;
        assert Without(a, x) == [a[0]] + Without(a[1..], x);
      }
    } else {
      assert a + b == b;
    }
  }

  /** Whether the element has `id` equal to the given string. */
  predicate HasId(x: Json, id: string) {
    Prop(x, "id") == Some(JString(id))
  }

  /** `items.filter(x => x.id !== id)`; a `null` element makes the source throw, which
      callers check with `JNull in items` first. */
  function WithoutId(items: seq<Json>, id: string): (r: seq<Json>)
    ensures |r| <= |items|
    ensures forall x :: x in r <==> x in items && !HasId(x, id)
    ensures forall x {:trigger multiset(r)[x]} :: multiset(r)[x] == if HasId(x, id) then 0 else multiset(items)[x]
  {
    if items == [] then []
    else
      assert items == [items[0]] + items[1..];
      if HasId(items[0], id) then WithoutId(items[1..], id)
      else [items[0]] + WithoutId(items[1..], id)
  }

  /** Filtering a concatenation by id filters each part and keeps them in order. */
  lemma {:induction false} WithoutIdConcat(a: seq<Json>, b: seq<Json>, id: string)
    ensures WithoutId(a + b, id) == WithoutId(a, id) + WithoutId(b, id)
  {
    if a != [] {
      var ab := a + b;
      assert ab[0] == a[0] && ab[1..] == a[1..] + b;
      WithoutIdConcat(a[1..], b, id);
      var rest := WithoutId(a[1..], id) + WithoutId(b, id);
      if HasId(a[0], id) {
        assert WithoutId(ab, id) == WithoutId(ab[1..], id) == rest;
        assert WithoutId(a, id) == WithoutId(a[1..], id);
      } else {
        assert WithoutId(ab, id) == [a[0]] + WithoutId(ab[1..], id) == [a[0]] + rest;
        assert WithoutId(a, id) == [a[0]] + WithoutId(a[1..], id);
      }
    } else {
      assert a + b == b;
    }
  }

  /** Removing the elements with an id keeps every other element in its order. */
  lemma {:induction false} WithoutIdKeepsOthers(items: seq<Json>, id: string)
    requires forall x :: x in items ==> !HasId(x, id)
    ensures WithoutId(items, id) == items
  {
    if items != [] {
      WithoutIdKeepsOthers(items[1..], id);
    }
  }

  /** `i` is where `find` and `findIndex` stop on a match: the element there has the id,
      and every element before it is neither `null` nor has the id. */
  predicate FirstWithId(items: seq<Json>, id: string, i: int) {
    0 <= i < |items| && HasId(items[i], id)
    && forall j :: 0 <= j < i ==> !items[j].JNull? && !HasId(items[j], id)
  }

  /** A `null` element comes before any element with the id, so reading `x.id` throws. */
  predicate NullBeforeId(items: seq<Json>, id: string) {
    exists i :: 0 <= i < |items| && items[i].JNull? && forall j :: 0 <= j < i ==> !HasId(items[j], id)
  }

  /** Past a first element that is neither `null` nor a match, both notions are those of
      the rest of the list, shifted by one. */
  lemma SkipFirst(items: seq<Json>, id: string)
    requires |items| > 0 && !items[0].JNull? && !HasId(items[0], id)
    ensures NullBeforeId(items, id) <==> NullBeforeId(items[1..], id)
    ensures forall i :: FirstWithId(items[1..], id, i) ==> FirstWithId(items, id, i + 1)
  {
    var rest := items[1..];
    if NullBeforeId(items, id) {
      var i :| 0 <= i < |items| && items[i].JNull? && forall j :: 0 <= j < i ==> !HasId(items[j], id);
      assert i > 0;
      assert forall j :: 0 <= j < i - 1 ==> rest[j] == items[j + 1];
      assert rest[i - 1].JNull? && forall j :: 0 <= j < i - 1 ==> !HasId(rest[j], id);
    }
    if NullBeforeId(rest, id) {
      var i :| 0 <= i < |rest| && rest[i].JNull? && forall j :: 0 <= j < i ==> !HasId(rest[j], id);
      assert forall j :: 1 <= j < i + 1 ==> items[j] == rest[j - 1];
      assert items[i + 1].JNull? && forall j :: 0 <= j < i + 1 ==> !HasId(items[j], id);
    }
    forall i | FirstWithId(rest, id, i) ensures FirstWithId(items, id, i + 1) {
      assert forall j :: 1 <= j < i + 1 ==> items[j] == rest[j - 1];
    }
  }

  /** `items.find(x => x.id === id)`: `Some(None)` when nothing matches, `None` when a
      `null` element before the first match makes `x.id` throw. */
  function FindById(items: seq<Json>, id: string): (r: Option<Option<Json>>)
    ensures r == Some(None) <==> JNull !in items && forall x :: x in items ==> !HasId(x, id)
    ensures r.None? <==> NullBeforeId(items, id)
    ensures r.Some? && r.value.Some? ==> exists i :: FirstWithId(items, id, i) && items[i] == r.value.value
  {
    if items == [] then Some(None)
    else if items[0].JNull? then None
    else if HasId(items[0], id) then
      assert FirstWithId(items, id, 0);
      Some(Some(items[0]))
    else
      SkipFirst(items, id);
      var r := FindById(items[1..], id);
      if r.Some? && r.value.Some? then
        var i :| FirstWithId(items[1..], id, i) && items[1..][i] == r.value.value;
        assert FirstWithId(items, id, i + 1);
        r
      else r
  }

  /** `items.findIndex(x => x.id === id)`; `None` when a `null` element before the first
      match makes `x.id` throw. */
  function FindIndexById(items: seq<Json>, id: string): (r: Option<int>)
    ensures r.Some? ==> -1 <= r.value < |items|
    ensures r.Some? && r.value >= 0 ==> FirstWithId(items, id, r.value)
    ensures r == Some(-1) <==> JNull !in items && forall x :: x in items ==> !HasId(x, id)
    ensures r.None? <==> NullBeforeId(items, id)
  {
    if items == [] then Some(-1)
    else if items[0].JNull? then None
    else if HasId(items[0], id) then Some(0)
    else
      SkipFirst(items, id);
      var r := FindIndexById(items[1..], id);
      if r.None? then None else if r.value == -1 then Some(-1) else Some(r.value + 1)
  }
}
