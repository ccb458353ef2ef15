/** The browser's origin-scoped `localStorage`: string keys to string values. */
module Browser {
  import opened Wrappers

  /** Whether the browser accepts a write, decided on the contents the write would
      produce (a write the quota refuses throws `QuotaExceededError` and changes nothing). */
  type Quota = map<string, string> -> bool

  /** The contents after `setItem(key, value)`. */
  function Written(items: map<string, string>, fits: Quota, key: string, value: string): (r: map<string, string>)
    ensures fits(items[key := value]) ==> r == items[key := value]
    ensures !fits(items[key := value]) ==> r == items
  {
    if fits(items[key := value]) then items[key := value] else items
  }

  /** A run of `setItem` writes, in order, that stops at the first write the quota
      refuses (the exception ends the loop): whether every write went through, and the
      contents after the writes that did. */
  function WriteAll(items: map<string, string>, fits: Quota, ws: seq<(string, string)>): (bool, map<string, string>)
    decreases |ws|
  {
    if ws == [] then (true, items)
    else
      var (ok, m) := WriteAll(items, fits, ws[..|ws| - 1]);
      var (k, v) := ws[|ws| - 1];
      if !ok then (false, m)
      else if fits(m[k := v]) then (true, m[k := v])
      else (false, m)
  }

  /** Once a write is refused, the later ones are not attempted. */
  lemma {:induction false} WriteAllStops(items: map<string, string>, fits: Quota, ws: seq<(string, string)>, i: nat)
    requires i <= |ws| && !WriteAll(items, fits, ws[..i]).0
    ensures WriteAll(items, fits, ws) == WriteAll(items, fits, ws[..i])
    decreases |ws|
  {
    if i < |ws| {
      assert ws[..|ws| - 1][..i] == ws[..i];
      WriteAllStops(items, fits, ws[..|ws| - 1], i);
    } else {
      assert ws[..i] == ws;
    }
  }

  /** The keys a run of writes writes to. */
  function KeysWritten(ws: seq<(string, string)>): (r: set<string>)
    ensures forall i :: 0 <= i < |ws| ==> ws[i].0 in r
    ensures forall k :: k in r ==> exists i :: 0 <= i < |ws| && ws[i].0 == k
    decreases |ws|
  {
    if ws == [] then {}
    else
      var init := ws[..|ws| - 1];
      assert forall i :: 0 <= i < |init| ==> init[i] == ws[i];
      KeysWritten(init) + {ws[|ws| - 1].0}
  }

  /** The keys two runs of writes write to, one after the other. */
  lemma KeysWrittenConcat(a: seq<(string, string)>, b: seq<(string, string)>)
    ensures KeysWritten(a + b) == KeysWritten(a) + KeysWritten(b)
  {
    var ws := a + b;
    forall k | k in KeysWritten(ws) ensures k in KeysWritten(a) || k in KeysWritten(b) {
      var i :| 0 <= i < |ws| && ws[i].0 == k;
      if i < |a| {
        assert ws[i] == a[i];
      } else {
        assert ws[i] == b[i - |a|];
      }
    }
    forall k | k in KeysWritten(a) ensures k in KeysWritten(ws) {
      var i :| 0 <= i < |a| && a[i].0 == k;
      assert ws[i] == a[i];
    }
    forall k | k in KeysWritten(b) ensures k in KeysWritten(ws) {
      var i :| 0 <= i < |b| && b[i].0 == k;
      assert ws[|a| + i] == b[i];
    }
  }

  /** With a quota that takes every write, all writes go through: the keys are the old
      ones and the written ones, and every key not written keeps its value. */
  lemma {:induction false} WriteAllUnlimited(items: map<string, string>, fits: Quota, ws: seq<(string, string)>)
    requires forall m :: fits(m)
    ensures WriteAll(items, fits, ws).0
    ensures WriteAll(items, fits, ws).1.Keys == items.Keys + KeysWritten(ws)
    ensures forall k :: k in items && k !in KeysWritten(ws) ==> WriteAll(items, fits, ws).1[k] == items[k]
    decreases |ws|
  {
    if ws != [] {
      var init := ws[..|ws| - 1];
      WriteAllUnlimited(items, fits, init);
      var m := WriteAll(items, fits, init).1;
      var (k, v) := ws[|ws| - 1];
      assert KeysWritten(ws) == KeysWritten(init) + {k};
      assert WriteAll(items, fits, ws).1 == m[k := v];
    }
  }

  /** With a quota that takes every write, a write no later write to the same key
      follows leaves its text. */
  lemma {:induction false} WriteAllUnlimitedValue(items: map<string, string>, fits: Quota,
                                                  ws: seq<(string, string)>, i: nat)
    requires forall m :: fits(m)
    requires i < |ws| && forall j :: i < j < |ws| ==> ws[j].0 != ws[i].0
    ensures ws[i].0 in WriteAll(items, fits, ws).1 && WriteAll(items, fits, ws).1[ws[i].0] == ws[i].1
    decreases |ws|
  {
    var n := |ws| - 1;
    var init := ws[..n];
    WriteAllUnlimited(items, fits, init);
    var m := WriteAll(items, fits, init).1;
    assert WriteAll(items, fits, ws).1 == m[ws[n].0 := ws[n].1];
    if i < n {
      assert init[i] == ws[i];
      WriteAllUnlimitedValue(items, fits, init, i);
    }
  }

  class LocalStorage {
    var items: map<string, string>
    const fits: Quota

    constructor (initial: map<string, string>, fits: Quota)
      ensures items == initial && this.fits == fits
    {
      items := initial;
      this.fits := fits;
    }

    /** `getItem(key)`: `null` (here `None`) for a missing key. */
    function GetItem(key: string): Option<string>
      reads this
    {
      if key in items then Some(items[key]) else None
    }

    /** `setItem(key, value)`; `ok` is false when the quota refused the write. */
    method SetItem(key: string, value: string) returns (ok: bool)
      modifies this
      ensures ok == fits(old(items)[key := value])
      ensures items == Written(old(items), fits, key, value)
    {
      ok := fits(items[key := value]);
      if ok {
        items := items[key := value];
      }
    }

    /** `removeItem(key)`. */
    method RemoveItem(key: string)
      modifies this
      ensures items == old(items) - {key}
    {
      items := items - {key};
    }

    /** `clear()`. */
    method Clear()
      modifies this
      ensures items == map[]
    {
      items := map[];
    }
  }
}
