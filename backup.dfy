/** `BackupModule`: dumping `localStorage` into one object, the local backup file, the
    ring of at most ten cloud backups kept in storage itself, and the restores, which
    clear storage and write every key of a backup back. */
module Backup {
  import opened Wrappers
  import opened Json
  import opened Lists
  import opened Browser
  import KV = KeyValueStore

  // ----- dumping storage -----

  /** How a dump reads a stored text. */
  datatype Decoding =
    | ParseOrRaw   // `try { JSON.parse(t) } catch { t }` (`getAllData`, `exportAllData`)
    | EmptyAsNull  // `t ? JSON.parse(t) : null`, raw text when that throws (`createBackup`)

  /** The value a dump records for the stored text `t`. */
  function Decode(codec: Codec, how: Decoding, t: string): Json {
    if how == EmptyAsNull && t == "" then JNull
    else match codec.parse(t)
      case Some(v) => v
      case None => JString(t)
  }

  /** Every key of storage, with the value `Decode` makes of its text. */
  function Dump(codec: Codec, how: Decoding, items: map<string, string>): (r: map<string, Json>)
    ensures r.Keys == items.Keys
  {
    map k | k in items :: Decode(codec, how, items[k])
  }

  /** The loop over `localStorage.key(i)` filling a fresh object: every key is read once,
      in an order the browser chooses, which does not matter to the result. */
  method CollectAll(local: LocalStorage, codec: Codec, how: Decoding) returns (data: map<string, Json>)
    ensures data == Dump(codec, how, local.items)
  {
    var keys := local.items.Keys;
    data := map[];
    while keys != {}
      invariant keys <= local.items.Keys
      invariant data == map k | k in local.items.Keys - keys :: Decode(codec, how, local.items[k])
      decreases keys
    {
      var k :| k in keys;
      var text := local.GetItem(k);
      data := data[k := Decode(codec, how, text.value)];
      keys := keys - {k};
    }
  }

  // ----- writing a backup back -----

  /** How a restore writes a value (`setItem` turns anything else into `String(v)`). */
  datatype Encoding =
    | ObjectsAsJson     // `typeof v === 'object'`, `null` included, as JSON text (app.js, `importData`)
    | NonNullAsJson     // `typeof v === 'object' && v !== null` as JSON text (`importBackup`)

  /** The text written for the value under a key; `None` is `undefined`. */
  function Encode(codec: Codec, how: Encoding, v: Option<Json>): string {
    match v
    case None => "undefined"
    case Some(x) =>
      if x.JArray? || x.JObject? || (how == ObjectsAsJson && x.JNull?) then codec.stringify(x)
      else Text(x)
  }

  /** `data[key]`, `undefined` for a missing key. */
  function Lookup(data: map<string, Json>, k: string): Option<Json> {
    if k in data then Some(data[k]) else None
  }

  /** The `setItem` calls of `Object.keys(data).forEach(...)`, with `order` the key order. */
  function Writes(codec: Codec, how: Encoding, data: map<string, Json>, order: seq<string>)
    : (r: seq<(string, string)>)
    ensures |r| == |order|
    ensures forall i :: 0 <= i < |order| ==> r[i] == (order[i], Encode(codec, how, Lookup(data, order[i])))
  {
    seq(|order|, i requires 0 <= i < |order| => (order[i], Encode(codec, how, Lookup(data, order[i]))))
  }

  /** The write loop of every restore: one `setItem` per key, stopping at the first write
      the quota refuses. */
  method WriteEntries(local: LocalStorage, codec: Codec, how: Encoding, data: map<string, Json>, order: seq<string>)
    returns (ok: bool)
    modifies local
    ensures (ok, local.items) == WriteAll(old(local.items), local.fits, Writes(codec, how, data, order))
  {
    ghost var ws := Writes(codec, how, data, order);
    ghost var start := local.items;
    var i := 0;
    while i < |order|
      invariant 0 <= i <= |order|
      invariant (true, local.items) == WriteAll(start, local.fits, ws[..i])
    {
      assert ws[..i + 1][..i] == ws[..i];
      ok := local.SetItem(order[i], Encode(codec, how, Lookup(data, order[i])));
      if !ok {
        WriteAllStops(start, local.fits, ws, i + 1);
        return;
      }
      i := i + 1;
    }
    assert ws[..i] == ws;
    ok := true;
  }

  /** The writes over an order that lists the keys of the data write to exactly those
      keys. */
  lemma WritesKeys(codec: Codec, how: Encoding, data: map<string, Json>, order: seq<string>)
    requires Enumerates(order, data.Keys)
    ensures KeysWritten(Writes(codec, how, data, order)) == data.Keys
  {
    var ws := Writes(codec, how, data, order);
    forall k | k in KeysWritten(ws) ensures k in data {
      var i :| 0 <= i < |ws| && ws[i].0 == k;
    }
    forall k | k in data ensures k in KeysWritten(ws) {
      var i :| 0 <= i < |order| && order[i] == k;
      assert ws[i].0 == k;
    }
  }

  /** With a quota that takes every write, restoring into empty storage over the keys of
      the data leaves exactly those keys, each holding the encoding of its value. */
  lemma RestoreWritesData(codec: Codec, fits: Quota, how: Encoding, data: map<string, Json>, order: seq<string>)
    requires forall m :: fits(m)
    requires Enumerates(order, data.Keys)
    ensures var (ok, r) := WriteAll(map[], fits, Writes(codec, how, data, order));
      && ok && r.Keys == data.Keys
      && forall k :: k in data ==> r[k] == Encode(codec, how, Some(data[k]))
  {
    var ws := Writes(codec, how, data, order);
    WriteAllUnlimited(map[], fits, ws);
    WritesKeys(codec, how, data, order);
    forall k | k in data
      ensures WriteAll(map[], fits, ws).1[k] == Encode(codec, how, Some(data[k]))
    {
      var i :| 0 <= i < |order| && order[i] == k;
      WriteAllUnlimitedValue(map[], fits, ws, i);
    }
  }

  // ----- what survives a dump and a restore -----

  /** How the text `t'` written back by a restore reads, compared with the text `t` that
      was dumped: a text that does not parse comes back as it was; a JSON string comes
      back as its contents, without the quotes; any other value comes back as JSON text
      of the same value, up to re-serialisation. */
  predicate ReloadsAs(codec: Codec, t: string, t': string) {
    match codec.parse(t)
    case None => t' == t
    case Some(JString(s)) => t' == s
    case Some(v) => codec.parse(t') == Some(Persisted(v))
  }

  /** A value dumped with `ParseOrRaw`, carried in a JSON document (or not) and written
      back with either encoding, reloads as its old text. */
  lemma DumpedValueRestores(codec: Codec, how: Encoding, t: string)
    requires Lawful(codec)
    ensures var v := Decode(codec, ParseOrRaw, t);
      && ReloadsAs(codec, t, Encode(codec, how, Some(v)))
      && ReloadsAs(codec, t, Encode(codec, how, Some(Persisted(v))))
  {
    var v := Decode(codec, ParseOrRaw, t);
    PersistedTwice(v);
    assert codec.parse(codec.stringify(v)) == Some(Persisted(v));
    assert codec.parse(codec.stringify(Persisted(v))) == Some(Persisted(Persisted(v)));
  }

  /** A JSON string value, such as `"gpt-4"` stored with its quotes, is written back
      without them, so it no longer parses as JSON. */
  lemma StringValueLosesQuotes(codec: Codec, how: Encoding, t: string, s: string)
    requires codec.parse(t) == Some(JString(s))
    ensures Encode(codec, how, Some(Decode(codec, ParseOrRaw, t))) == s
  {
  }

  // ----- `createLocalBackup()` -----

  /** `Config.version`. */
  const AppVersion: string := "1.0.0"

  /** The `_backup_info` record of a local backup of the dump `all`. */
  function LocalBackupInfo(codec: Codec, all: map<string, Json>, now: int, dateText: string): (r: Json)
    ensures r.JObject?
  {
    JObject(map["timestamp" := JNum(now), "date" := JString(dateText),
                "version" := JString(AppVersion),
                "dataSize" := JNum(|codec.stringify(JObject(all))|),
                "itemsCount" := JNum(|all.Keys|)])
  }

  /** The local backup document: the dump, plus `_backup_info` (which replaces a stored
      key of that name). */
  function LocalBackupFile(codec: Codec, items: map<string, string>, now: int, dateText: string): (r: Json)
    ensures r.JObject? && r.fields.Keys == items.Keys + {"_backup_info"}
    ensures forall k :: k in items && k != "_backup_info" ==> r.fields[k] == Decode(codec, ParseOrRaw, items[k])
    ensures r.fields["_backup_info"].JObject?
  {
    var all := Dump(codec, ParseOrRaw, items);
    JObject(all["_backup_info" := LocalBackupInfo(codec, all, now, dateText)])
  }

  // ----- `restoreFromLocalBackup()` -----

  /** `restoreFromLocalBackup()` on the file's text, with the answer of the confirmation
      dialog: whether storage was rewritten (and the page reload scheduled), and the
      state. A file that does not parse, or lacks a truthy `_backup_info`, is refused;
      errors are caught, so a refused write ends the loop without the reload. */
  function RestoreLocalSpec(env: KV.Session, db: KV.Db, fileText: string, confirmed: bool, order: seq<string>)
    : (bool, KV.Db)
  {
    match env.codec.parse(fileText)
    case None => (false, db)
    case Some(b) =>
      if b.JNull? || !TruthyOpt(Prop(b, "_backup_info")) || !confirmed then (false, db)
      else
        var data := OwnProps(DeleteProp(b, "_backup_info"));
        var (ok, items') := WriteAll(map[], env.fits, Writes(env.codec, ObjectsAsJson, data, order));
        (ok, KV.Db(items', KV.Placeholders))
  }

  /** Nothing is written unless the file parses, carries a truthy `_backup_info` and the
      restore is confirmed. */
  lemma RestoreLocalNeedsMarker(env: KV.Session, db: KV.Db, fileText: string, confirmed: bool, order: seq<string>)
    ensures var p := env.codec.parse(fileText);
      RestoreLocalSpec(env, db, fileText, confirmed, order).1 != db ==>
        p.Some? && !p.value.JNull? && TruthyOpt(Prop(p.value, "_backup_info")) && confirmed
  {
  }

  /** Written out by `JSON.stringify`, an object with a `_backup_info` record added
      still carries it, and without it is the object written out. */
  lemma MarkedObjectPersisted(all: map<string, Json>, info: Json)
    requires "_backup_info" !in all && info.JObject?
    ensures var b := Persisted(JObject(all["_backup_info" := info]));
      && b.JObject? && TruthyOpt(Prop(b, "_backup_info"))
      && OwnProps(DeleteProp(b, "_backup_info")) == map k | k in all :: Persisted(all[k])
  {
    var m := all["_backup_info" := info];
    var pm := map k | k in m :: Persisted(m[k]);
    assert pm - {"_backup_info"} == map k | k in all :: Persisted(all[k]);
  }

  /** A confirmed restore of a file with a truthy `_backup_info`, under a quota that
      takes every write, leaves storage holding exactly the other keys of the file, each
      as the encoding of its value, and the placeholder cache. */
  lemma RestoreLocalWritesFile(env: KV.Session, db: KV.Db, fileText: string, order: seq<string>)
    requires KV.Unlimited(env)
    requires var p := env.codec.parse(fileText);
      p.Some? && !p.value.JNull? && TruthyOpt(Prop(p.value, "_backup_info"))
      && Enumerates(order, OwnProps(DeleteProp(p.value, "_backup_info")).Keys)
    ensures var data := OwnProps(DeleteProp(env.codec.parse(fileText).value, "_backup_info"));
      var (ok, db') := RestoreLocalSpec(env, db, fileText, true, order);
      && ok && db'.cache == KV.Placeholders && db'.items.Keys == data.Keys
      && forall k :: k in data ==> db'.items[k] == Encode(env.codec, ObjectsAsJson, Some(data[k]))
  {
    var data := OwnProps(DeleteProp(env.codec.parse(fileText).value, "_backup_info"));
    RestoreWritesData(env.codec, env.fits, ObjectsAsJson, data, order);
  }

  /** Restoring, with a quota that takes every write, the file a local backup produced
      gives back the keys storage had, each reloading as its old text; the cache is back
      to the placeholders, as after a reload. */
  lemma LocalBackupRoundTrip(env: KV.Session, db: KV.Db, items: map<string, string>, now: int,
                             dateText: string, order: seq<string>)
    requires Lawful(env.codec) && KV.Unlimited(env)
    requires "_backup_info" !in items
    requires Enumerates(order, items.Keys)
    ensures var file := env.codec.stringify(LocalBackupFile(env.codec, items, now, dateText));
      var (ok, db') := RestoreLocalSpec(env, db, file, true, order);
      && ok && db'.cache == KV.Placeholders && db'.items.Keys == items.Keys
      && forall k :: k in items ==> ReloadsAs(env.codec, items[k], db'.items[k])
  {
    var all := Dump(env.codec, ParseOrRaw, items);
    var f := LocalBackupFile(env.codec, items, now, dateText);
    var text := env.codec.stringify(f);
    var info := LocalBackupInfo(env.codec, all, now, dateText);
    assert f == JObject(all["_backup_info" := info]);
    MarkedObjectPersisted(all, info);
    assert env.codec.parse(text) == Some(Persisted(f));
    var data := map k | k in all :: Persisted(all[k]);
    RestoreLocalWritesFile(env, db, text, order);
    forall k | k in items
      ensures ReloadsAs(env.codec, items[k], Encode(env.codec, ObjectsAsJson, Some(data[k])))
    {
      DumpedValueRestores(env.codec, ObjectsAsJson, items[k]);
    }
  }

  // ----- `createCloudBackup()` -----

  /** The list entry of a new cloud backup; an empty description gives the default one. */
  function CloudInfo(codec: Codec, all: map<string, Json>, backupId: string, now: int, dateText: string,
                     description: string): Json {
    JObject(map["id" := JString(backupId), "timestamp" := JNum(now), "date" := JString(dateText),
                "description" := JString(if description != "" then description else "备份 " + dateText),
                "size" := JNum(|codec.stringify(JObject(all))|),
                "version" := JString(AppVersion),
                "itemsCount" := JNum(|all.Keys|)])
  }

  /** The most cloud backups the list keeps. */
  const MaxCloudBackups: nat := 10

  /** `unshift` of the new entry, then one `pop` when the list is longer than ten: the
      list kept and the entry evicted. */
  function Ring(list: seq<Json>, info: Json): (seq<Json>, Option<Json>) {
    var l := [info] + list;
    if |l| > MaxCloudBackups then (l[..|l| - 1], Some(l[|l| - 1])) else (l, None)
  }

  /** The new entry comes first, followed by the old ones in order; an entry is evicted
      exactly when the old list held ten or more, and then it is the old last one; a
      list of at most ten stays at most ten. */
  lemma RingShape(list: seq<Json>, info: Json)
    ensures var (kept, evicted) := Ring(list, info);
      && |kept| >= 1 && kept[0] == info
      && kept[1..] == list[..|kept| - 1]
      && (evicted.Some? <==> |list| >= MaxCloudBackups)
      && (evicted.Some? ==> evicted.value == list[|list| - 1] && |kept| == |list|)
      && (evicted.None? ==> kept == [info] + list)
      && (|list| <= MaxCloudBackups ==> |kept| <= MaxCloudBackups)
  {
    var l := [info] + list;
    if |l| > MaxCloudBackups {
      assert l[..|l| - 1][1..] == list[..|list| - 1];
    }
  }

  /** The update of the backup list in `createCloudBackup`: the list is `get('backup_list')
      || []` and is changed in place (so the cache sees it when it was the cached one);
      a list that is not an array throws; an evicted entry's snapshot is deleted, which
      re-reads and filters the list and saves it, before the kept list is saved. */
  function RingStep(env: KV.Session, db: KV.Db, info: Json): (Outcome, KV.Db) {
    var (v, db1) := KV.Fetch(env, db, "backup_list");
    var list := if Truthy(v) then v else EmptyArray;
    if !list.JArray? then (Threw, db1)
    else
      var (kept, evicted) := Ring(list.items, info);
      var list' := JArray(kept, list.named);
      var db2 := if Truthy(v) then KV.Mutate(db1, "backup_list", list') else db1;
      match evicted
      case None => (Completed, KV.Save(env, db2, "backup_list", list').1)
      case Some(oldest) =>
        match IdText(oldest)
        case Some(id) =>
          var (o, db3) := KV.DeleteCloudBackupSpec(env, db2, id);
          if o == Threw then (Threw, db3) else (Completed, KV.Save(env, db3, "backup_list", list').1)
        case None => (Threw, db2)
  }

  /** `oldest.id` when it is a string; `None` when `oldest` is `null` (reading `id`
      throws) and when the id is not a string. */
  function IdText(oldest: Json): (r: Option<string>)
    ensures r.Some? <==> !oldest.JNull? && Prop(oldest, "id").Some? && Prop(oldest, "id").value.JString?
    ensures r.Some? ==> Prop(oldest, "id") == Some(JString(r.value))
  {
    if oldest.JNull? then None
    else match Prop(oldest, "id")
      case Some(JString(id)) => Some(id)
      case _ => None
  }

  /** `createCloudBackup()` with the prompt's answer (`None` when cancelled): the dump is
      saved as the snapshot `cloud_backup_<id>`, then the list is updated. */
  function CreateCloudBackupSpec(env: KV.Session, db: KV.Db, description: Option<string>, backupId: string,
                                 now: int, dateText: string): (Outcome, KV.Db) {
    if description.None? then (Completed, db)
    else
      var all := Dump(env.codec, ParseOrRaw, db.items);
      var info := CloudInfo(env.codec, all, backupId, now, dateText, description.value);
      var db1 := KV.Save(env, db, KV.SnapshotKey(backupId), JObject(all)).1;
      RingStep(env, db1, info)
  }

  /** Two snapshot keys are equal only for equal ids, and none is the list's key. */
  lemma SnapshotKeysDistinct(a: string, b: string)
    ensures KV.SnapshotKey(a) == KV.SnapshotKey(b) ==> a == b
    ensures KV.SnapshotKey(a) != "backup_list"
  {
    var p := "cloud_backup_";
    assert (p + a)[|p|..] == a && (p + b)[|p|..] == b;
    assert (p + a)[0] == 'c';
  }

  /** With a quota that takes every write and a list that is an array, a list update
      that completes leaves the kept ring as the cached list. */
  lemma RingStepKeepsRing(env: KV.Session, db: KV.Db, info: Json)
    requires KV.Unlimited(env)
    requires KV.Fetch(env, db, "backup_list").0.JArray?
    ensures var v := KV.Fetch(env, db, "backup_list").0;
      var (o, db') := RingStep(env, db, info);
      o == Completed ==> "backup_list" in db'.cache && db'.cache["backup_list"] == JArray(Ring(v.items, info).0, v.named)
  {
    var (v, db1) := KV.Fetch(env, db, "backup_list");
    var (kept, evicted) := Ring(v.items, info);
    var list' := JArray(kept, v.named);
    var db2 := KV.Mutate(db1, "backup_list", list');
    if evicted.None? {
      assert RingStep(env, db, info) == (Completed, KV.Save(env, db2, "backup_list", list').1);
    } else if IdText(evicted.value).Some? {
      var (o3, db3) := KV.DeleteCloudBackupSpec(env, db2, IdText(evicted.value).value);
      assert RingStep(env, db, info)
          == if o3 == Threw then (Threw, db3) else (Completed, KV.Save(env, db3, "backup_list", list').1);
    }
  }

  /** With a quota that takes every write, a list update that completes after evicting
      an entry leaves that entry's snapshot in neither storage nor the cache. */
  lemma RingStepDeletesEvicted(env: KV.Session, db: KV.Db, info: Json, id: string)
    requires KV.Unlimited(env)
    requires var v := KV.Fetch(env, db, "backup_list").0;
      v.JArray? && var e := Ring(v.items, info).1; e.Some? && IdText(e.value) == Some(id)
    ensures var (o, db') := RingStep(env, db, info);
      o == Completed ==> KV.SnapshotKey(id) !in db'.items && KV.SnapshotKey(id) !in db'.cache
  {
    var (v, db1) := KV.Fetch(env, db, "backup_list");
    var list' := JArray(Ring(v.items, info).0, v.named);
    var db2 := KV.Mutate(db1, "backup_list", list');
    var (o3, db3) := KV.DeleteCloudBackupSpec(env, db2, id);
    assert RingStep(env, db, info)
        == if o3 == Threw then (Threw, db3) else (Completed, KV.Save(env, db3, "backup_list", list').1);
    if o3 == Completed {
      KV.DeleteCloudBackupRemoves(env, db2, id);
      SnapshotKeysDistinct(id, id);
      KV.OtherKeysUntouched(env, db3, "backup_list", list', KV.SnapshotKey(id));
    }
  }

  /** A list update touches no snapshot but the evicted one. */
  lemma RingStepKeepsOtherSnapshots(env: KV.Session, db: KV.Db, info: Json, other: string)
    requires var v := KV.Fetch(env, db, "backup_list").0;
      v.JArray? ==> var e := Ring(v.items, info).1;
        e.Some? && IdText(e.value).Some? ==> other != IdText(e.value).value
    ensures KV.SameAt(db, RingStep(env, db, info).1, KV.SnapshotKey(other))
  {
    var key := KV.SnapshotKey(other);
    var (v, db1) := KV.Fetch(env, db, "backup_list");
    var list := if Truthy(v) then v else EmptyArray;
    SnapshotKeysDistinct(other, other);
    KV.OtherKeysUntouched(env, db, "backup_list", v, key);
    if list.JArray? {
      var (kept, evicted) := Ring(list.items, info);
      var list' := JArray(kept, list.named);
      var db2 := if Truthy(v) then KV.Mutate(db1, "backup_list", list') else db1;
      KV.OtherKeysUntouched(env, db1, "backup_list", list', key);
      assert KV.SameAt(db, db2, key);
      if evicted.None? {
        assert RingStep(env, db, info).1 == KV.Save(env, db2, "backup_list", list').1;
        KV.OtherKeysUntouched(env, db2, "backup_list", list', key);
      } else if IdText(evicted.value).Some? {
        var id := IdText(evicted.value).value;
        SnapshotKeysDistinct(other, id);
        CloudDeleteKeepsOthers(env, db2, id, other);
        var (o3, db3) := KV.DeleteCloudBackupSpec(env, db2, id);
        assert RingStep(env, db, info).1 == if o3 == Threw then db3 else KV.Save(env, db3, "backup_list", list').1;
        KV.OtherKeysUntouched(env, db3, "backup_list", list', key);
      } else {
        assert RingStep(env, db, info).1 == db2;
      }
    } else {
      assert RingStep(env, db, info).1 == db1;
    }
  }

  /** Deleting a cloud backup touches no other snapshot. */
  lemma CloudDeleteKeepsOthers(env: KV.Session, db: KV.Db, id: string, other: string)
    requires KV.SnapshotKey(other) != KV.SnapshotKey(id)
    ensures KV.SameAt(db, KV.DeleteCloudBackupSpec(env, db, id).1, KV.SnapshotKey(other))
  {
    SnapshotKeysDistinct(other, other);
    var db1 := KV.Db(db.items - {KV.SnapshotKey(id)}, db.cache);
    var (list, db2) := KV.BackupListOf(env, db1);
    if list.JArray? && JNull !in list.items {
      KV.OtherKeysUntouched(env, db2, "backup_list", Arr(WithoutId(list.items, id)), KV.SnapshotKey(other));
    }
  }

  // ----- `restoreFromCloudBackup(backupId)` -----

  /** `restoreFromCloudBackup(backupId)` with the answer of the confirmation dialog. The
      snapshot is read through `get`, whose fallback `[]` is truthy, so a missing
      snapshot is not refused. The lookup of the list entry throws on a list that is not
      an array or holds `null` before the match. Errors are not caught: a refused write
      throws with the earlier writes done. */
  function RestoreCloudSpec(env: KV.Session, db: KV.Db, backupId: string, confirmed: bool, order: seq<string>)
    : (Outcome, KV.Db)
  {
    var (data, db1) := KV.Fetch(env, db, KV.SnapshotKey(backupId));
    if !Truthy(data) then (Completed, db1)
    else
      var (list, db2) := KV.BackupListOf(env, db1);
      if !list.JArray? || FindById(list.items, backupId).None? then (Threw, db2)
      else if !confirmed then (Completed, db2)
      else
        var (ok, items') := WriteAll(map[], env.fits, Writes(env.codec, ObjectsAsJson, OwnProps(data), order));
        (if ok then Completed else Threw, KV.Db(items', KV.Placeholders))
  }

  /** A confirmed restore of a backup whose snapshot is missing from storage and from the
      cache, such as one whose save the quota refused while its list entry was kept,
      clears all of storage and writes nothing back. */
  lemma MissingSnapshotClearsStorage(env: KV.Session, db: KV.Db, backupId: string)
    requires KV.SnapshotKey(backupId) !in db.items && KV.SnapshotKey(backupId) !in db.cache
    requires var list := KV.BackupListOf(env, KV.Fetch(env, db, KV.SnapshotKey(backupId)).1).0;
      list.JArray? && FindById(list.items, backupId).Some?
    ensures RestoreCloudSpec(env, db, backupId, true, []) == (Completed, KV.Db(map[], KV.Placeholders))
  {
    assert KV.Fetch(env, db, KV.SnapshotKey(backupId)).0 == EmptyArray;
    assert OwnProps(EmptyArray) == map[];
  }

  /** Restoring, with a quota that takes every write, a cloud backup created in the same
      session gives back the keys storage had when it was created, each reloading as its
      old text. */
  lemma CloudBackupRoundTrip(env: KV.Session, db: KV.Db, backupId: string, items: map<string, string>,
                             order: seq<string>)
    requires Lawful(env.codec) && KV.Unlimited(env)
    requires var key := KV.SnapshotKey(backupId);
      key in db.cache && db.cache[key] == JObject(Dump(env.codec, ParseOrRaw, items))
    requires var list := KV.BackupListOf(env, db).0; list.JArray? && FindById(list.items, backupId).Some?
    requires Enumerates(order, items.Keys)
    ensures var (o, db') := RestoreCloudSpec(env, db, backupId, true, order);
      && o == Completed && db'.items.Keys == items.Keys
      && forall k :: k in items ==> ReloadsAs(env.codec, items[k], db'.items[k])
  {
    var data := Dump(env.codec, ParseOrRaw, items);
    var key := KV.SnapshotKey(backupId);
    assert db.cache[key := JObject(data)] == db.cache;
    assert KV.Fetch(env, db, key) == (JObject(data), db);
    RestoreWritesData(env.codec, env.fits, ObjectsAsJson, data, order);
    forall k | k in items
      ensures ReloadsAs(env.codec, items[k], Encode(env.codec, ObjectsAsJson, Some(data[k])))
    {
      DumpedValueRestores(env.codec, ObjectsAsJson, items[k]);
    }
  }

  /** The backup module over the shared store. */
  class BackupModule {
    const store: KV.Store

    constructor (store: KV.Store)
      ensures this.store == store
    {
      this.store := store;
    }

    /** `getAllData()`. */
    method GetAllData() returns (data: map<string, Json>)
      ensures data == Dump(store.codec, ParseOrRaw, store.local.items)
    {
      data := CollectAll(store.local, store.codec, ParseOrRaw);
    }

    /** `createLocalBackup()`: the document the downloaded file holds as JSON text. */
    method CreateLocalBackup(now: int, dateText: string) returns (file: Json)
      ensures file == LocalBackupFile(store.codec, store.local.items, now, dateText)
    {
      var all := GetAllData();
      file := JObject(all["_backup_info" := LocalBackupInfo(store.codec, all, now, dateText)]);
    }

    /** `restoreFromLocalBackup()` on the chosen file's text. */
    method RestoreFromLocalBackup(fileText: string, confirmed: bool, order: seq<string>) returns (reloads: bool)
      modifies store, store.local
      ensures (reloads, store.State()) == RestoreLocalSpec(store.Env(), old(store.State()), fileText, confirmed, order)
    {
      var parsed := store.codec.parse(fileText);
      if parsed.None? {
        return false;
      }
      var b := parsed.value;
      if b.JNull? || !TruthyOpt(Prop(b, "_backup_info")) || !confirmed {
        return false;
      }
      var data := OwnProps(DeleteProp(b, "_backup_info"));
      store.local.Clear();
      store.ClearCache();
      reloads := WriteEntries(store.local, store.codec, ObjectsAsJson, data, order);
    }

    /** `createCloudBackup()` with the prompt's answer. */
    method CreateCloudBackup(description: Option<string>, backupId: string, now: int, dateText: string)
      returns (o: Outcome)
      modifies store, store.local
      ensures (o, store.State())
           == CreateCloudBackupSpec(store.Env(), old(store.State()), description, backupId, now, dateText)
    {
      if description.None? {
        return Completed;
      }
      var all := GetAllData();
      var info := CloudInfo(store.codec, all, backupId, now, dateText, description.value);
      var _ := store.Set(KV.SnapshotKey(backupId), JObject(all));
      o := UpdateRing(info);
    }

    /** The list update of `createCloudBackup`. */
    method UpdateRing(info: Json) returns (o: Outcome)
      modifies store, store.local
      ensures (o, store.State()) == RingStep(store.Env(), old(store.State()), info)
    {
      var v := store.Get("backup_list");
      var list := if Truthy(v) then v else EmptyArray;
      if !list.JArray? {
        return Threw;
      }
      var (kept, evicted) := Ring(list.items, info);
      var list' := JArray(kept, list.named);
      if Truthy(v) {
        store.Stage("backup_list", list');
      }
      if evicted.Some? {
        var id := IdText(evicted.value);
        if id.None? {
          return Threw;
        }
        o := store.DeleteCloudBackup(id.value);
        if o == Threw {
          return;
        }
      }
      var _ := store.Set("backup_list", list');
      o := Completed;
    }

    /** `restoreFromCloudBackup(backupId)` with the answer of the confirmation dialog. */
    method RestoreFromCloudBackup(backupId: string, confirmed: bool, order: seq<string>) returns (o: Outcome)
      modifies store, store.local
      ensures (o, store.State()) == RestoreCloudSpec(store.Env(), old(store.State()), backupId, confirmed, order)
    {
      var data := store.Get(KV.SnapshotKey(backupId));
      if !Truthy(data) {
        return Completed;
      }
      var list := store.GetBackupList();
      if !list.JArray? || FindById(list.items, backupId).None? {
        return Threw;
      }
      if !confirmed {
        return Completed;
      }
      store.local.Clear();
      store.ClearCache();
      var ok := WriteEntries(store.local, store.codec, ObjectsAsJson, OwnProps(data), order);
      o := if ok then Completed else Threw;
    }
  }
}
