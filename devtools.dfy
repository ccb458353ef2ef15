/** `DevTools`: the export, import and full-backup helpers of the developer panel. They
    work on `localStorage` directly, without the app's cache, and end in a page reload
    after an import, so the app reads the new contents afresh. */
module DevTools {
  import opened Wrappers
  import opened Strings
  import opened Json
  import opened Browser
  import opened Backup

  // ----- `exportAllData()` -----

  /** The document `exportAllData()` downloads: every key of storage, with its text
      parsed as JSON or kept raw when it does not parse. */
  function ExportDocument(codec: Codec, items: map<string, string>): (r: Json)
    ensures r.JObject? && r.fields.Keys == items.Keys
    ensures forall k :: k in items ==> r.fields[k] == Decode(codec, ParseOrRaw, items[k])
  {
    JObject(Dump(codec, ParseOrRaw, items))
  }

  // ----- `importData()` -----

  /** `importData()` on the file's text, with the answer of the confirmation dialog:
      whether the page reload was scheduled, and the storage contents. A text that
      does not parse, and `null` (whose `Object.keys` throws before the dialog), are
      caught and change nothing; a confirmed import clears storage and writes every own
      property back, `null` and objects as JSON text; a write the quota refuses ends
      the loop, caught, without the reload. */
  function ImportDataSpec(codec: Codec, fits: Quota, items: map<string, string>, fileText: string,
                          confirmed: bool, order: seq<string>): (bool, map<string, string>)
  {
    match codec.parse(fileText)
    case None => (false, items)
    case Some(data) =>
      if data.JNull? || !confirmed then (false, items)
      else WriteAll(map[], fits, Writes(codec, ObjectsAsJson, OwnProps(data), order))
  }

  /** Storage is left as it was unless the text parses to something other than `null`
      and the import is confirmed; it is rewritten whenever it is. */
  lemma ImportDataNeedsConfirmation(codec: Codec, fits: Quota, items: map<string, string>, fileText: string,
                                    confirmed: bool, order: seq<string>)
    ensures var p := codec.parse(fileText);
      var r := ImportDataSpec(codec, fits, items, fileText, confirmed, order);
      && (p.None? || p.value.JNull? || !confirmed ==> r == (false, items))
      && (p.Some? && !p.value.JNull? && confirmed ==>
            r == WriteAll(map[], fits, Writes(codec, ObjectsAsJson, OwnProps(p.value), order)))
  {
  }

  /** A confirmed import, with a quota that takes every write, leaves exactly the own
      properties of the file's value as keys, each holding the encoding of its value. */
  lemma ImportDataWritesFile(codec: Codec, fits: Quota, items: map<string, string>, fileText: string,
                             order: seq<string>)
    requires forall m :: fits(m)
    requires var p := codec.parse(fileText);
      p.Some? && !p.value.JNull? && Enumerates(order, OwnProps(p.value).Keys)
    ensures var data := OwnProps(codec.parse(fileText).value);
      var (reloads, r) := ImportDataSpec(codec, fits, items, fileText, true, order);
      && reloads && r.Keys == data.Keys
      && forall k :: k in data ==> r[k] == Encode(codec, ObjectsAsJson, Some(data[k]))
  {
    RestoreWritesData(codec, fits, ObjectsAsJson, OwnProps(codec.parse(fileText).value), order);
  }

  /** The own properties of a string are its characters under their index names, and
      each is written back as the character itself. */
  lemma StringPropsEncode(codec: Codec, s: string)
    ensures forall i :: 0 <= i < |s| ==>
      NatText(i) in OwnProps(JString(s)) && Encode(codec, ObjectsAsJson, Some(OwnProps(JString(s))[NatText(i)])) == [s[i]]
    ensures forall k :: k in OwnProps(JString(s)) ==> IndexKey(k, 0, |s|)
  {
    IndexPropsKeys(s, 0, CharString);
    forall i | 0 <= i < |s|
      ensures NatText(i) in OwnProps(JString(s)) && OwnProps(JString(s))[NatText(i)] == CharString(s[i])
    {
      IndexPropsAt(s, 0, CharString, i);
    }
  }

  /** A file of a JSON string imports as one key per character: with a quota that takes
      every write, a confirmed import leaves exactly the keys "0", "1", ..., one per
      character of the string, key `i` holding the `i`-th character (`"ab"` writes `"0"`
      as `a` and `"1"` as `b`). */
  lemma ImportedStringSplitsIntoCharacters(codec: Codec, fits: Quota, items: map<string, string>,
                                           fileText: string, s: string, order: seq<string>)
    requires forall m :: fits(m)
    requires codec.parse(fileText) == Some(JString(s))
    requires Enumerates(order, OwnProps(JString(s)).Keys)
    ensures var r := ImportDataSpec(codec, fits, items, fileText, true, order);
      && r.0
      && (forall i :: 0 <= i < |s| ==> NatText(i) in r.1 && r.1[NatText(i)] == [s[i]])
      && (forall k :: k in r.1 ==> IndexKey(k, 0, |s|))
  {
    ImportDataWritesFile(codec, fits, items, fileText, order);
    StringPropsEncode(codec, s);
  }

  /** Exporting storage and importing the file again, with a quota that takes every
      write, gives back the keys storage had, each reloading as its old text. */
  lemma ExportImportRoundTrip(codec: Codec, fits: Quota, items: map<string, string>,
                              current: map<string, string>, order: seq<string>)
    requires Lawful(codec) && forall m :: fits(m)
    requires Enumerates(order, items.Keys)
    ensures var (reloads, r) := ImportDataSpec(codec, fits, current, codec.stringify(ExportDocument(codec, items)),
                                               true, order);
      && reloads && r.Keys == items.Keys
      && forall k :: k in items ==> ReloadsAs(codec, items[k], r[k])
  {
    var all := Dump(codec, ParseOrRaw, items);
    var data := map k | k in all :: Persisted(all[k]);
    assert codec.parse(codec.stringify(JObject(all))) == Some(Persisted(JObject(all)));
    assert Persisted(JObject(all)) == JObject(data);
    assert data.Keys == items.Keys;
    assert ImportDataSpec(codec, fits, current, codec.stringify(ExportDocument(codec, items)), true, order)
        == WriteAll(map[], fits, Writes(codec, ObjectsAsJson, data, order));
    RestoreWritesData(codec, fits, ObjectsAsJson, data, order);
    forall k | k in items
      ensures ReloadsAs(codec, items[k], Encode(codec, ObjectsAsJson, Some(data[k])))
    {
      DumpedValueRestores(codec, ObjectsAsJson, items[k]);
    }
  }

  // ----- `createBackup()` -----

  /** The version recorded when storage has no `quq_version` (or an empty one). */
  const DefaultVersion: string := "1.0.0"

  /** The `appName` of the backup envelope. */
  const AppName: string := "quq小手机"

  /** The key the app version is stored under. */
  const VersionKey: string := "quq_version"

  /** `localStorage.getItem('quq_version') || '1.0.0'`. */
  function BackupVersion(items: map<string, string>): (r: string)
    ensures r != ""
    ensures VersionKey in items && items[VersionKey] != "" ==> r == items[VersionKey]
    ensures VersionKey !in items || items[VersionKey] == "" ==> r == DefaultVersion
  {
    if VersionKey in items && items[VersionKey] != "" then items[VersionKey] else DefaultVersion
  }

  /** The envelope `createBackup()` downloads, with `isoNow` the text of
      `now.toISOString()`: the dump (empty texts recorded as `null`) under `data`. */
  function BackupEnvelope(codec: Codec, items: map<string, string>, isoNow: string): (r: Json)
    ensures r.JObject? && r.fields.Keys == {"timestamp", "version", "appName", "data"}
    ensures r.fields["timestamp"] == JString(isoNow) && r.fields["version"] == JString(BackupVersion(items))
    ensures r.fields["data"].JObject? && r.fields["data"].fields.Keys == items.Keys
    ensures forall k :: k in items ==> r.fields["data"].fields[k] == Decode(codec, EmptyAsNull, items[k])
  {
    JObject(map["timestamp" := JString(isoNow), "version" := JString(BackupVersion(items)),
                "appName" := JString(AppName), "data" := JObject(Dump(codec, EmptyAsNull, items))])
  }

  // ----- `importBackup()` -----

  /** The write of `quq_version` after the entries, made when the file's `version` is
      truthy. */
  function VersionWrite(b: Json): (r: seq<(string, string)>)
    ensures TruthyOpt(Prop(b, "version")) ==> r == [(VersionKey, Text(Prop(b, "version").value))]
    ensures !TruthyOpt(Prop(b, "version")) ==> r == []
  {
    if TruthyOpt(Prop(b, "version")) then [(VersionKey, Text(Prop(b, "version").value))] else []
  }

  /** Whether the parsed file passes the format check: `timestamp` and `data` truthy
      (reading them from `null` throws, which is caught the same way). */
  predicate IsEnvelope(b: Json) {
    !b.JNull? && TruthyOpt(Prop(b, "timestamp")) && TruthyOpt(Prop(b, "data"))
  }

  /** The writes of a confirmed `importBackup()`: every own property of `data`, objects
      and arrays as JSON text and anything else (`null` included) as `String(v)`, then
      the version. */
  function BackupWrites(codec: Codec, b: Json, order: seq<string>): seq<(string, string)>
    requires IsEnvelope(b)
  {
    Writes(codec, NonNullAsJson, OwnProps(Prop(b, "data").value), order) + VersionWrite(b)
  }

  /** `importBackup()` on the file's text, with the answer of the confirmation dialog:
      whether the page reload was scheduled, and the storage contents. A text that
      does not parse or fails the format check is caught and changes nothing; a
      confirmed import clears storage and makes the writes, and a write the quota
      refuses ends them, caught, without the reload. */
  function ImportBackupSpec(codec: Codec, fits: Quota, items: map<string, string>, fileText: string,
                            confirmed: bool, order: seq<string>): (bool, map<string, string>)
  {
    match codec.parse(fileText)
    case None => (false, items)
    case Some(b) =>
      if !IsEnvelope(b) || !confirmed then (false, items)
      else WriteAll(map[], fits, BackupWrites(codec, b, order))
  }

  /** Storage is left as it was unless the text parses to an envelope and the import is
      confirmed; it is rewritten whenever it is. */
  lemma ImportBackupNeedsEnvelope(codec: Codec, fits: Quota, items: map<string, string>, fileText: string,
                                  confirmed: bool, order: seq<string>)
    ensures var p := codec.parse(fileText);
      var r := ImportBackupSpec(codec, fits, items, fileText, confirmed, order);
      && (p.None? || !IsEnvelope(p.value) || !confirmed ==> r == (false, items))
      && (p.Some? && IsEnvelope(p.value) && confirmed ==> r == WriteAll(map[], fits, BackupWrites(codec, p.value, order)))
  {
  }

  /** The writes of the entries of `data` followed by more writes write to the keys of
      `data` and of the extra writes. */
  lemma EntriesThenKeys(codec: Codec, how: Encoding, data: map<string, Json>, order: seq<string>,
                        extra: seq<(string, string)>)
    requires Enumerates(order, data.Keys)
    ensures KeysWritten(Writes(codec, how, data, order) + extra) == data.Keys + KeysWritten(extra)
  {
    WritesKeys(codec, how, data, order);
    KeysWrittenConcat(Writes(codec, how, data, order), extra);
  }

  /** With a quota that takes every write, the writes of the entries of `data` followed
      by at most one more write all go through into empty storage: the keys are those of
      `data` and of the extra write, whose text overrides an entry of the same key, and
      every other key holds the encoding of its value. */
  lemma EntriesThenWrite(codec: Codec, fits: Quota, how: Encoding, data: map<string, Json>, order: seq<string>,
                         extra: seq<(string, string)>)
    requires forall m :: fits(m)
    requires Enumerates(order, data.Keys) && |extra| <= 1
    ensures WriteAll(map[], fits, Writes(codec, how, data, order) + extra).0
    ensures var r := WriteAll(map[], fits, Writes(codec, how, data, order) + extra).1;
      && r.Keys == data.Keys + KeysWritten(extra)
      && (extra != [] ==> extra[0].0 in r && r[extra[0].0] == extra[0].1)
      && forall k :: k in data && k !in KeysWritten(extra) ==> r[k] == Encode(codec, how, Some(data[k]))
  {
    var ws := Writes(codec, how, data, order) + extra;
    WriteAllUnlimited(map[], fits, ws);
    EntriesThenKeys(codec, how, data, order, extra);
    if extra != [] {
      ExtraWriteWins(fits, Writes(codec, how, data, order), extra);
    }
    forall k | k in data && k !in KeysWritten(extra)
      ensures WriteAll(map[], fits, ws).1[k] == Encode(codec, how, Some(data[k]))
    {
      EntryNotOverwritten(codec, fits, how, data, order, extra, k);
    }
  }

  /** A last write leaves its text. */
  lemma ExtraWriteWins(fits: Quota, entries: seq<(string, string)>, extra: seq<(string, string)>)
    requires forall m :: fits(m)
    requires |extra| == 1
    ensures var r := WriteAll(map[], fits, entries + extra).1;
      extra[0].0 in r && r[extra[0].0] == extra[0].1
  {
    var ws := entries + extra;
    assert ws[|entries|] == extra[0] && |ws| == |entries| + 1;
    WriteAllUnlimitedValue(map[], fits, ws, |entries|);
  }

  /** An entry no extra write overrides keeps the encoding of its value. */
  lemma EntryNotOverwritten(codec: Codec, fits: Quota, how: Encoding, data: map<string, Json>, order: seq<string>,
                            extra: seq<(string, string)>, k: string)
    requires forall m :: fits(m)
    requires Enumerates(order, data.Keys) && k in data && k !in KeysWritten(extra)
    ensures var r := WriteAll(map[], fits, Writes(codec, how, data, order) + extra).1;
      k in r && r[k] == Encode(codec, how, Some(data[k]))
  {
    var ws := Writes(codec, how, data, order) + extra;
    var n := |order|;
    var i :| 0 <= i < n && order[i] == k;
    assert ws[i] == (k, Encode(codec, how, Some(data[k])));
    forall j | i < j < |ws| ensures ws[j].0 != k {
      if j < n {
        assert ws[j].0 == order[j];
      } else {
        assert ws[j] == extra[j - n];
      }
    }
    WriteAllUnlimitedValue(map[], fits, ws, i);
  }

  /** With a quota that takes every write, a confirmed import of a file that passes the
      format check leaves the keys of its `data` and, with a truthy version,
      `quq_version`; the version overrides an entry of that name, and every other key
      holds the encoding of its value, `null` written as `null`. */
  lemma ImportBackupWritesData(codec: Codec, fits: Quota, items: map<string, string>, fileText: string,
                               order: seq<string>)
    requires forall m :: fits(m)
    requires var p := codec.parse(fileText);
      p.Some? && IsEnvelope(p.value) && Enumerates(order, OwnProps(Prop(p.value, "data").value).Keys)
    ensures var b := codec.parse(fileText).value;
      var data := OwnProps(Prop(b, "data").value);
      var version := Prop(b, "version");
      var (reloads, r) := ImportBackupSpec(codec, fits, items, fileText, true, order);
      && reloads && r.Keys == data.Keys + (if TruthyOpt(version) then {VersionKey} else {})
      && (TruthyOpt(version) ==> r[VersionKey] == Text(version.value))
      && forall k :: k in data && (k != VersionKey || !TruthyOpt(version)) ==>
           r[k] == Encode(codec, NonNullAsJson, Some(data[k]))
  {
    var b := codec.parse(fileText).value;
    var extra := VersionWrite(b);
    assert KeysWritten(extra) == if TruthyOpt(Prop(b, "version")) then {VersionKey} else {};
    EntriesThenWrite(codec, fits, NonNullAsJson, OwnProps(Prop(b, "data").value), order, extra);
  }

  /** `JSON.stringify` writes the envelope out with its `timestamp`, its `version` and
      its dump, which loses the named properties of arrays. */
  lemma PersistedEnvelope(codec: Codec, items: map<string, string>, isoNow: string)
    ensures var pe := Persisted(BackupEnvelope(codec, items, isoNow));
      && pe.JObject? && pe.fields.Keys == {"timestamp", "version", "appName", "data"}
      && pe.fields["timestamp"] == JString(isoNow) && pe.fields["version"] == JString(BackupVersion(items))
      && pe.fields["data"] == JObject(map k | k in items :: Persisted(Decode(codec, EmptyAsNull, items[k])))
  {
    var f := BackupEnvelope(codec, items, isoNow).fields;
    PersistedFields(f);
    var all := Dump(codec, EmptyAsNull, items);
    assert Persisted(f["data"]) == JObject(map k | k in all :: Persisted(all[k]));
  }

  /** `JSON.stringify` writes out an object field by field. */
  lemma PersistedFields(f: map<string, Json>)
    ensures var pe := Persisted(JObject(f));
      pe.JObject? && pe.fields.Keys == f.Keys && forall k :: k in f ==> pe.fields[k] == Persisted(f[k])
  {
  }

  /** Written out and read back, the envelope of `createBackup()` passes the format
      check, and carries the dump (as `JSON.stringify` writes it) and the version. */
  lemma EnvelopeReadsBack(codec: Codec, items: map<string, string>, isoNow: string)
    requires Lawful(codec) && isoNow != ""
    ensures var p := codec.parse(codec.stringify(BackupEnvelope(codec, items, isoNow)));
      && p.Some? && IsEnvelope(p.value)
      && OwnProps(Prop(p.value, "data").value)
         == (map k | k in items :: Persisted(Decode(codec, EmptyAsNull, items[k])))
      && Prop(p.value, "version") == Some(JString(BackupVersion(items)))
  {
    var e := BackupEnvelope(codec, items, isoNow);
    assert codec.parse(codec.stringify(e)) == Some(Persisted(e));
    PersistedEnvelope(codec, items, isoNow);
  }

  /** Creating a backup and importing it again, with a quota that takes every write,
      gives back the keys storage had, plus `quq_version`: an empty text comes back as
      `null`, any other reloads as its old text, and `quq_version` holds the stored
      version, or `1.0.0` when there was none. */
  lemma CreateImportRoundTrip(codec: Codec, fits: Quota, items: map<string, string>,
                              current: map<string, string>, isoNow: string, order: seq<string>)
    requires Lawful(codec) && forall m :: fits(m)
    requires isoNow != "" && Enumerates(order, items.Keys)
    ensures var file := codec.stringify(BackupEnvelope(codec, items, isoNow));
      var (reloads, r) := ImportBackupSpec(codec, fits, current, file, true, order);
      && reloads && r.Keys == items.Keys + {VersionKey}
      && r[VersionKey] == BackupVersion(items)
      && (forall k :: k in items && k != VersionKey && items[k] == "" ==> r[k] == "null")
      && (forall k :: k in items && k != VersionKey && items[k] != "" ==> ReloadsAs(codec, items[k], r[k]))
  {
    var file := codec.stringify(BackupEnvelope(codec, items, isoNow));
    var b := codec.parse(file).value;
    EnvelopeReadsBack(codec, items, isoNow);
    var data := OwnProps(Prop(b, "data").value);
    ImportBackupWritesData(codec, fits, current, file, order);
    assert TruthyOpt(Prop(b, "version"));
    forall k | k in items && k != VersionKey
      ensures var t := Encode(codec, NonNullAsJson, Some(data[k]));
        (items[k] == "" ==> t == "null") && (items[k] != "" ==> ReloadsAs(codec, items[k], t))
    {
      BackupValueReloads(codec, items[k]);
    }
  }

  /** A text recorded by `createBackup()`, carried in the file and written back by
      `importBackup()`: an empty text comes back as `null`, any other reloads as its
      old text. */
  lemma BackupValueReloads(codec: Codec, t: string)
    requires Lawful(codec)
    ensures var back := Encode(codec, NonNullAsJson, Some(Persisted(Decode(codec, EmptyAsNull, t))));
      && (t == "" ==> back == "null")
      && (t != "" ==> ReloadsAs(codec, t, back))
  {
    if t != "" {
      assert Decode(codec, EmptyAsNull, t) == Decode(codec, ParseOrRaw, t);
      DumpedValueRestores(codec, NonNullAsJson, t);
    }
  }

  /** The developer panel over the browser's storage. */
  class DevPanel {
    const local: LocalStorage
    const codec: Codec

    constructor (local: LocalStorage, codec: Codec)
      ensures this.local == local && this.codec == codec
    {
      this.local := local;
      this.codec := codec;
    }

    /** `exportAllData()`: the document written to the downloaded file. */
    method ExportAllData() returns (doc: Json)
      ensures doc == ExportDocument(codec, local.items)
    {
      var all := CollectAll(local, codec, ParseOrRaw);
      doc := JObject(all);
    }

    /** `importData()` on the chosen file's text. */
    method ImportData(fileText: string, confirmed: bool, order: seq<string>) returns (reloads: bool)
      modifies local
      ensures (reloads, local.items) == ImportDataSpec(codec, local.fits, old(local.items), fileText, confirmed, order)
    {
      var parsed := codec.parse(fileText);
      if parsed.None? || parsed.value.JNull? || !confirmed {
        return false;
      }
      local.Clear();
      reloads := WriteEntries(local, codec, ObjectsAsJson, OwnProps(parsed.value), order);
    }

    /** `createBackup()`: the envelope written to the downloaded file. */
    method CreateBackup(isoNow: string) returns (doc: Json)
      ensures doc == BackupEnvelope(codec, local.items, isoNow)
    {
      var stored := local.GetItem(VersionKey);
      var version := if stored.Some? && stored.value != "" then stored.value else DefaultVersion;
      var data := CollectAll(local, codec, EmptyAsNull);
      doc := JObject(map["timestamp" := JString(isoNow), "version" := JString(version),
                         "appName" := JString(AppName), "data" := JObject(data)]);
    }

    /** `importBackup()` on the chosen file's text. */
    method ImportBackup(fileText: string, confirmed: bool, order: seq<string>) returns (reloads: bool)
      modifies local
      ensures (reloads, local.items) == ImportBackupSpec(codec, local.fits, old(local.items), fileText, confirmed, order)
    {
      var parsed := codec.parse(fileText);
      if parsed.None? || !IsEnvelope(parsed.value) || !confirmed {
        return false;
      }
      var b := parsed.value;
      ghost var entries := Writes(codec, NonNullAsJson, OwnProps(Prop(b, "data").value), order);
      ghost var ws := BackupWrites(codec, b, order);
      assert ws[..|entries|] == entries;
      local.Clear();
      reloads := WriteEntries(local, codec, NonNullAsJson, OwnProps(Prop(b, "data").value), order);
      if !reloads {
        WriteAllStops(map[], local.fits, ws, |entries|);
        return;
      }
      if TruthyOpt(Prop(b, "version")) {
        assert ws[..|ws| - 1] == entries;
        reloads := local.SetItem(VersionKey, Text(Prop(b, "version").value));
      } else {
        assert ws == entries;
      }
    }
  }
}
