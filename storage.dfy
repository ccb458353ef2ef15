/** `Storage`: `localStorage` behind JSON (de)serialisation and an in-memory read cache.

    The cache starts out holding `null` under ten camel-case names. Three of them,
    `moments`, `comments` and `likes`, are also real storage keys, so `get` answers
    `null` for those three, whatever storage holds, until they are first `set`. */
module KeyValueStore {
  import opened Wrappers
  import opened Json
  import Browser
  import opened Lists

  /** The names the cache is seeded with, by the object literal and by `clearCache`. */
  const PlaceholderNames: set<string> :=
    {"roles", "moments", "userInfo", "chatHistories", "comments", "likes",
     "pinnedContacts", "appliedApiModels", "customApiConfigs", "availableModels"}

  /** The seeded cache: `null` under every placeholder name. */
  const Placeholders: map<string, Json> := map k | k in PlaceholderNames :: JNull

  /** The fallback of `get`: `{}` for `user_info`, `[]` for every other key. */
  function Default(key: string): Json {
    if key == "user_info" then EmptyObject else EmptyArray
  }

  /** What `get` makes of the stored text of `key`: the parsed value, or the fallback
      when the key is missing, holds the empty string, or does not parse. */
  function Load(codec: Codec, stored: Option<string>, key: string): Json {
    match stored
    case None => Default(key)
    case Some(s) =>
      if s == "" then Default(key)
      else match codec.parse(s)
        case Some(v) => v
        case None => Default(key)
  }

  /** The store's state: the contents of `localStorage` and the cache. */
  datatype Db = Db(items: map<string, string>, cache: map<string, Json>)

  /** What stays fixed during a session: the JSON codec and the browser's quota. */
  datatype Session = Session(codec: Codec, fits: Browser.Quota)

  /** `get(key)`: the value, and the state with that value cached. */
  function Fetch(env: Session, db: Db, key: string): (Json, Db) {
    var v := if key in db.cache then db.cache[key]
             else Load(env.codec, if key in db.items then Some(db.items[key]) else None, key);
    (v, Db(db.items, db.cache[key := v]))
  }

  /** `set(key, value)`: write-through of the JSON text, then the cache; on a refused
      write nothing changes and the answer is `false`. */
  function Save(env: Session, db: Db, key: string, value: Json): (bool, Db) {
    var text := env.codec.stringify(value);
    if env.fits(db.items[key := text]) then (true, Db(db.items[key := text], db.cache[key := value]))
    else (false, db)
  }

  /** An in-place change to the object `get(key)` returned, which is the cached object
      itself: the cache sees it at once, storage only when it is saved. */
  function Mutate(db: Db, key: string, value: Json): Db {
    Db(db.items, db.cache[key := value])
  }

  /** `clearCache()`: back to the placeholders; storage is untouched. */
  function Reseed(db: Db): Db {
    Db(db.items, Placeholders)
  }

  /** `getSetting(key, defaultValue)`: read straight from storage, bypassing the cache;
      the parsed value, or the raw text when it does not parse. */
  function Setting(env: Session, db: Db, key: string, default: Json): Json {
    if key !in db.items then default
    else match env.codec.parse(db.items[key])
      case Some(v) => v
      case None => JString(db.items[key])
  }

  /** `getBackupList()`: `get('backup_list') || []`; a falsy value gives a fresh array
      that is not the cached one. */
  function BackupListOf(env: Session, db: Db): (Json, Db) {
    var (v, db1) := Fetch(env, db, "backup_list");
    (if Truthy(v) then v else EmptyArray, db1)
  }

  /** The storage key of a cloud snapshot. */
  function SnapshotKey(backupId: string): string {
    "cloud_backup_" + backupId
  }

  /** `deleteCloudBackup(backupId)`: remove the snapshot, drop its entry from the
      backup list, save the list, and forget the cached snapshot. */
  function DeleteCloudBackupSpec(env: Session, db: Db, backupId: string): (Outcome, Db) {
    var key := SnapshotKey(backupId);
    var db1 := Db(db.items - {key}, db.cache);
    var (list, db2) := BackupListOf(env, db1);
    if !list.JArray? || JNull in list.items then (Threw, db2)
    else
      var (_, db3) := Save(env, db2, "backup_list", Arr(WithoutId(list.items, backupId)));
      (Completed, Db(db3.items, db3.cache - {key}))
  }

  /** A key of the cache is answered from the cache, whatever storage holds. */
  lemma CachedKeyIgnoresStorage(env: Session, db: Db, other: map<string, string>, key: string)
    requires key in db.cache
    ensures Fetch(env, db, key).0 == Fetch(env, Db(other, db.cache), key).0 == db.cache[key]
  {
  }

  /** After `clearCache`, `get` answers `null` for `moments`, `comments` and `likes`
      whatever storage holds, and reads through for a real key such as `contacts`. */
  lemma PlaceholdersShadowStorage(env: Session, db: Db)
    ensures Fetch(env, Reseed(db), "moments").0 == JNull
    ensures Fetch(env, Reseed(db), "comments").0 == JNull
    ensures Fetch(env, Reseed(db), "likes").0 == JNull
    ensures Fetch(env, Reseed(db), "contacts").0
         == Load(env.codec, if "contacts" in db.items then Some(db.items["contacts"]) else None, "contacts")
  {
    assert "moments" in PlaceholderNames && "comments" in PlaceholderNames && "likes" in PlaceholderNames;
    assert "contacts" !in PlaceholderNames;
  }

  /** For a key outside the cache, `get` yields the parsed stored value, and the
      fallback (`{}` for `user_info`, `[]` otherwise) when the value is missing or
      does not parse; either way the value is cached. */
  lemma FetchReadsThrough(env: Session, db: Db, key: string)
    requires key !in db.cache
    ensures var (v, db') := Fetch(env, db, key);
      && db'.items == db.items && db'.cache == db.cache[key := v]
      && (key !in db.items || db.items[key] == "" || env.codec.parse(db.items[key]).None? ==>
            v == (if key == "user_info" then JObject(map[]) else Arr([])))
      && (key in db.items && db.items[key] != "" && env.codec.parse(db.items[key]).Some? ==>
            v == env.codec.parse(db.items[key]).value)
  {
  }

  /** What `set` wrote, a later session (an empty cache, here a reseeded one) reads
      back, for every key that is not a placeholder name, up to the named properties
      of arrays, which `JSON.stringify` dropped; a value without them comes back as it was. */
  lemma SavedValueSurvivesReload(env: Session, db: Db, key: string, v: Json)
    requires Lawful(env.codec)
    requires key !in PlaceholderNames
    requires Save(env, db, key, v).0
    ensures Fetch(env, Reseed(Save(env, db, key, v).1), key).0 == Persisted(v)
    ensures Plain(v) ==> Fetch(env, Reseed(Save(env, db, key, v).1), key).0 == v
  {
    if Plain(v) {
      PlainIsPersisted(v);
    }
    var text := env.codec.stringify(v);
    assert text != "" && env.codec.parse(text) == Some(Persisted(v));
  }

  /** A refused `set` leaves both storage and the cache as they were, so `get`
      still answers the previous value. */
  lemma RefusedSaveKeepsPrevious(env: Session, db: Db, key: string, v: Json)
    requires !Save(env, db, key, v).0
    ensures Save(env, db, key, v).1 == db
    ensures Fetch(env, Save(env, db, key, v).1, key).0 == Fetch(env, db, key).0
  {
  }

  /** `deleteCloudBackup` removes the snapshot key from storage, and a completed run
      also from the cache; then either the quota refused the list write (storage is
      otherwise as before) or the cached list holds no entry with that id. */
  lemma DeleteCloudBackupRemoves(env: Session, db: Db, backupId: string)
    ensures var (o, db') := DeleteCloudBackupSpec(env, db, backupId);
      && SnapshotKey(backupId) !in db'.items
      && (o == Completed ==> SnapshotKey(backupId) !in db'.cache && "backup_list" in db'.cache)
      && (o == Completed ==>
            || db'.items == db.items - {SnapshotKey(backupId)}
            || (db'.cache["backup_list"].JArray? &&
                forall x :: x in db'.cache["backup_list"].items ==> !HasId(x, backupId)))
  {
    assert SnapshotKey(backupId) != "backup_list" by {
      assert SnapshotKey(backupId)[0] == 'c';
    }
  }

  /** With a quota that takes every write, a completed `deleteCloudBackup` leaves storage
      without the snapshot, the cached backup list as the fetched list minus the entries
      with that id (the others in their order), the stored list as its JSON text, and no
      cached snapshot; it completes exactly when the fetched list is an array without
      `null` elements. */
  lemma DeleteCloudBackupUnlimited(env: Session, db: Db, backupId: string)
    requires Unlimited(env)
    ensures var key := SnapshotKey(backupId);
      var list := BackupListOf(env, Db(db.items - {key}, db.cache)).0;
      var (o, db') := DeleteCloudBackupSpec(env, db, backupId);
      && (o == Completed <==> list.JArray? && JNull !in list.items)
      && (o == Completed ==>
            && db'.items == (db.items - {key})["backup_list" := env.codec.stringify(Arr(WithoutId(list.items, backupId)))]
            && db'.cache["backup_list"] == Arr(WithoutId(list.items, backupId))
            && key !in db'.cache)
  {
    assert SnapshotKey(backupId) != "backup_list" by {
      assert SnapshotKey(backupId)[0] == 'c';
    }
  }

  /** `getSetting` after `saveSetting`: a write the quota took reads back as the value
      `JSON.stringify` wrote out, a refused one leaves the previous reading; other keys read
      as before, and a key that was never written gives the caller's default. */
  lemma SettingReadsBack(env: Session, db: Db, key: string, value: Json, other: string, default: Json)
    requires Lawful(env.codec)
    ensures var text := env.codec.stringify(value);
      var db' := Db(Browser.Written(db.items, env.fits, key, text), db.cache);
      && (env.fits(db.items[key := text]) ==> Setting(env, db', key, default) == Persisted(value))
      && (!env.fits(db.items[key := text]) ==> Setting(env, db', key, default) == Setting(env, db, key, default))
      && (other != key ==> Setting(env, db', other, default) == Setting(env, db, other, default))
    ensures key !in db.items ==> Setting(env, db, key, default) == default
  {
    var text := env.codec.stringify(value);
    assert env.codec.parse(text) == Some(Persisted(value));
  }

  /** Storage and cache agree on `k` in both states. */
  predicate SameAt(db: Db, db': Db, k: string) {
    && (k in db'.items <==> k in db.items) && (k in db.items ==> db'.items[k] == db.items[k])
    && (k in db'.cache <==> k in db.cache) && (k in db.cache ==> db'.cache[k] == db.cache[k])
  }

  /** A quota that accepts every write. */
  ghost predicate Unlimited(env: Session) {
    forall items :: env.fits(items)
  }

  /** `get`, `set` and an in-place change of one key leave every other key alone. */
  lemma OtherKeysUntouched(env: Session, db: Db, key: string, v: Json, k: string)
    requires k != key
    ensures SameAt(db, Fetch(env, db, key).1, k)
    ensures SameAt(db, Save(env, db, key, v).1, k)
    ensures SameAt(db, Mutate(db, key, v), k)
  {
  }

  /** `const x = get(key); delete x[id]; set(key, x)`, the deletes of `deleteContact`
      and `deleteMoment`: a `null` value throws; a primitive ignores the delete. */
  function DeleteEntrySpec(env: Session, db: Db, key: string, id: string): (Outcome, Db) {
    var (v, db1) := Fetch(env, db, key);
    if v.JNull? then (Threw, db1)
    else
      var v' := DeleteProp(v, id);
      (Completed, Save(env, Mutate(db1, key, v'), key, v').1)
  }

  /** `set(key, get(key).filter(x => x.id !== id))`, the filters of `deleteContact` and
      `deleteMoment`: anything but an array, or a `null` element, throws. */
  function RemoveByIdSpec(env: Session, db: Db, key: string, id: string): (Outcome, Db) {
    var (v, db1) := Fetch(env, db, key);
    if !v.JArray? || JNull in v.items then (Threw, db1)
    else (Completed, Save(env, db1, key, Arr(WithoutId(v.items, id))).1)
  }

  /** Both write only their own key. */
  lemma EntryEditsKeepOtherKeys(env: Session, db: Db, key: string, id: string, k: string)
    requires k != key
    ensures SameAt(db, DeleteEntrySpec(env, db, key, id).1, k)
    ensures SameAt(db, RemoveByIdSpec(env, db, key, id).1, k)
  {
    var (v, db1) := Fetch(env, db, key);
    OtherKeysUntouched(env, db, key, v, k);
    var v' := DeleteProp(v, id);
    OtherKeysUntouched(env, db1, key, v', k);
    OtherKeysUntouched(env, Mutate(db1, key, v'), key, v', k);
    if v.JArray? {
      OtherKeysUntouched(env, db1, key, Arr(WithoutId(v.items, id)), k);
    }
  }

  /** A completed delete leaves the cached object without the entry and with every other
      entry as it was, whatever the quota decided. */
  lemma DeleteEntryRemoves(env: Session, db: Db, key: string, id: string)
    ensures var v := Fetch(env, db, key).0;
      var (o, db') := DeleteEntrySpec(env, db, key, id);
      && (o == Completed <==> !v.JNull?)
      && (o == Completed ==> key in db'.cache && db'.cache[key] == DeleteProp(v, id))
      && (o == Completed && v.JObject? ==> db'.cache[key] == JObject(v.fields - {id}))
  {
  }

  /** With a quota that takes every write, a completed filter leaves the cached list
      with exactly the elements without that id. */
  lemma RemoveByIdRemoves(env: Session, db: Db, key: string, id: string)
    requires Unlimited(env)
    ensures var v := Fetch(env, db, key).0;
      var (o, db') := RemoveByIdSpec(env, db, key, id);
      && (o == Completed <==> v.JArray? && JNull !in v.items)
      && (o == Completed ==>
            && key in db'.cache && db'.cache[key] == Arr(WithoutId(v.items, id))
            && forall x :: x in db'.cache[key].items <==> x in v.items && !HasId(x, id))
  {
  }

  /** The store object the modules share: `localStorage`, the codec and the cache. */
  class Store {
    const local: Browser.LocalStorage
    const codec: Codec
    var cache: map<string, Json>

    /** The fixed part of the environment. */
    function Env(): Session {
      Session(codec, local.fits)
    }

    /** The current state: storage contents and cache. */
    function State(): Db
      reads this, local
    {
      Db(local.items, cache)
    }

    /** The object literal: the cache holds the ten placeholders. */
    constructor (local: Browser.LocalStorage, codec: Codec)
      ensures this.local == local && this.codec == codec
      ensures cache == Placeholders
    {
      this.local := local;
      this.codec := codec;
      cache := Placeholders;
    }

    /** `get(key)`. */
    method Get(key: string) returns (v: Json)
      modifies this
      ensures (v, State()) == Fetch(Env(), old(State()), key)
    {
      if key in cache {
        v := cache[key];
        assert cache[key := v] == cache;
      } else {
        v := Load(codec, local.GetItem(key), key);
        cache := cache[key := v];
      }
    }

    /** `set(key, value)`. */
    method Set(key: string, value: Json) returns (ok: bool)
      modifies this, local
      ensures (ok, State()) == Save(Env(), old(State()), key, value)
    {
      var text := codec.stringify(value);
      ok := local.SetItem(key, text);
      if ok {
        cache := cache[key := value];
      }
    }

    /** The in-place edit of the object `get(key)` returned. */
    method Stage(key: string, value: Json)
      modifies this
      ensures State() == Mutate(old(State()), key, value)
    {
      cache := cache[key := value];
    }

    /** `clearCache()`. */
    method ClearCache()
      modifies this
      ensures State() == Reseed(old(State()))
    {
      cache := Placeholders;
    }

    /** `getSetting(key, defaultValue)`. */
    method GetSetting(key: string, default: Json) returns (v: Json)
      ensures v == Setting(Env(), State(), key, default)
    {
      var stored := local.GetItem(key);
      if stored.None? {
        v := default;
      } else {
        var parsed := codec.parse(stored.value);
        v := if parsed.Some? then parsed.value else JString(stored.value);
      }
    }

    /** `saveSetting(key, value)`: storage only, the cache is not updated; `ok` is false
        when the quota refused the write (the source lets that exception escape). */
    method SaveSetting(key: string, value: Json) returns (ok: bool)
      modifies local
      ensures ok == local.fits(old(local.items)[key := codec.stringify(value)])
      ensures local.items == Browser.Written(old(local.items), local.fits, key, codec.stringify(value))
    {
      ok := local.SetItem(key, codec.stringify(value));
    }

    /** `const x = get(key); delete x[id]; set(key, x)`. */
    method DeleteEntry(key: string, id: string) returns (o: Outcome)
      modifies this, local
      ensures (o, State()) == DeleteEntrySpec(Env(), old(State()), key, id)
    {
      var v := Get(key);
      if v.JNull? {
        return Threw;
      }
      var v' := DeleteProp(v, id);
      Stage(key, v');
      var _ := Set(key, v');
      o := Completed;
    }

    /** `set(key, get(key).filter(x => x.id !== id))`. */
    method RemoveById(key: string, id: string) returns (o: Outcome)
      modifies this, local
      ensures (o, State()) == RemoveByIdSpec(Env(), old(State()), key, id)
    {
      var v := Get(key);
      if !v.JArray? || JNull in v.items {
        return Threw;
      }
      var _ := Set(key, Arr(WithoutId(v.items, id)));
      o := Completed;
    }

    /** `getBackupList()`. */
    method GetBackupList() returns (list: Json)
      modifies this
      ensures (list, State()) == BackupListOf(Env(), old(State()))
    {
      list := Get("backup_list");
      if !Truthy(list) {
        list := EmptyArray;
      }
    }

    /** `deleteCloudBackup(backupId)`. */
    method DeleteCloudBackup(backupId: string) returns (outcome: Outcome)
      modifies this, local
      ensures (outcome, State()) == DeleteCloudBackupSpec(Env(), old(State()), backupId)
    {
      var key := SnapshotKey(backupId);
      local.RemoveItem(key);
      var list := GetBackupList();
      if !list.JArray? || JNull in list.items {
        return Threw;
      }
      var _ := Set("backup_list", Arr(WithoutId(list.items, backupId)));
      cache := cache - {key};
      outcome := Completed;
    }
  }
}
