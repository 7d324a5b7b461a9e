/**
 * The settings page: the nested settings update, saving and loading the settings, and the
 * export, import and delete-all operations over the browser's key-value store.
 */
module SettingsPage {
  import opened Wrappers
  import opened Records

  /** The settings a fresh installation starts with. */
  const DefaultSettings: Settings := map[
    "notifications" := map["emailAlerts" := Flag(true), "priceAlerts" := Flag(false), "weeklyReports" := Flag(true)],
    "display" := map["theme" := Choice("light"), "currency" := Choice("JPY"),
                     "dateFormat" := Choice("YYYY-MM-DD"), "chartType" := Choice("line")],
    "trading" := map["defaultTimeframe" := Choice("中期（1ヶ月以内）"), "riskLevel" := Choice("medium"),
                     "autoSave" := Flag(true)]]

  const Version: string := "1.0"

  /** handleSettingChange: `{...prev, [c]: {...prev[c], [k]: v}}`. A category that is not there
      yet spreads as an empty group. */
  function ChangeSetting(s: Settings, c: string, k: string, v: SettingValue): (r: Settings)
    ensures r.Keys == s.Keys + {c}
    ensures r[c].Keys == (if c in s then s[c].Keys else {}) + {k}
    ensures r[c][k] == v
    ensures c in s ==> forall k' :: k' in s[c] && k' != k ==> r[c][k'] == s[c][k']
    ensures forall c' :: c' in s && c' != c ==> r[c'] == s[c']
  {
    s[c := GroupOf(s, c)[k := v]]
  }

  /** `prev[c]` spread into a new object: the group, or nothing when the category is missing. */
  function GroupOf(s: Settings, c: string): map<string, SettingValue>
  {
    if c in s then s[c] else map[]
  }

  /** Setting a value that is already there changes nothing. */
  lemma ChangeToSameValue(s: Settings, c: string, k: string)
    requires c in s && k in s[c]
    ensures ChangeSetting(s, c, k, s[c][k]) == s
  {
    var r := ChangeSetting(s, c, k, s[c][k]);
    assert r[c] == s[c];
  }

  /** A later change of the same setting overrides an earlier one. */
  lemma LastChangeWins(s: Settings, c: string, k: string, v: SettingValue, w: SettingValue)
    ensures ChangeSetting(ChangeSetting(s, c, k, v), c, k, w) == ChangeSetting(s, c, k, w)
  {
    var a := ChangeSetting(ChangeSetting(s, c, k, v), c, k, w);
    var b := ChangeSetting(s, c, k, w);
    assert a[c] == b[c];
  }

  lemma UpdatesCommute<K, V>(m: map<K, V>, a: K, x: V, b: K, y: V)
    requires a != b
    ensures m[a := x][b := y] == m[b := y][a := x]
  {
    assert m[a := x][b := y].Keys == m[b := y][a := x].Keys;
  }

  /** Changes in two different categories can be made in either order. */
  lemma ChangesInCategoriesCommute(s: Settings, c1: string, k1: string, v1: SettingValue,
                                   c2: string, k2: string, v2: SettingValue)
    requires c1 != c2
    ensures ChangeSetting(ChangeSetting(s, c1, k1, v1), c2, k2, v2)
         == ChangeSetting(ChangeSetting(s, c2, k2, v2), c1, k1, v1)
  {
    var s1 := ChangeSetting(s, c1, k1, v1);
    var s2 := ChangeSetting(s, c2, k2, v2);
    assert GroupOf(s1, c2) == GroupOf(s, c2);
    assert GroupOf(s2, c1) == GroupOf(s, c1);
    UpdatesCommute(s, c1, GroupOf(s, c1)[k1 := v1], c2, GroupOf(s, c2)[k2 := v2]);
  }

  /** Changes of two different keys of one category can be made in either order. */
  lemma ChangesInCategoryCommute(s: Settings, c: string, k1: string, v1: SettingValue,
                                 k2: string, v2: SettingValue)
    requires k1 != k2
    ensures ChangeSetting(ChangeSetting(s, c, k1, v1), c, k2, v2)
         == ChangeSetting(ChangeSetting(s, c, k2, v2), c, k1, v1)
  {
    var s1 := ChangeSetting(s, c, k1, v1);
    var s2 := ChangeSetting(s, c, k2, v2);
    assert GroupOf(s1, c) == GroupOf(s, c)[k1 := v1];
    assert GroupOf(s2, c) == GroupOf(s, c)[k2 := v2];
    UpdatesCommute(GroupOf(s, c), k1, v1, k2, v2);
  }

  // ---------------------------------------------------------------- loading

  /** The loader's settings: the stored ones when there are any, the defaults otherwise. */
  function LoadedSettings(items: map<string, Stored>): Settings
  {
    if SettingsKey in items && items[SettingsKey].SettingsDoc? then items[SettingsKey].settings
    else DefaultSettings
  }

  /** The loader's last backup time, when one was recorded. */
  function LoadedBackup(items: map<string, Stored>): Option<string>
  {
    if BackupKey in items && items[BackupKey].Text? then Some(items[BackupKey].text) else None
  }

  /** Saved settings are what the next load reads back, and saving them leaves the record
      count and the backup time alone. */
  lemma SaveThenLoad(items: map<string, Stored>, s: Settings)
    ensures LoadedSettings(items[SettingsKey := SettingsDoc(s)]) == s
    ensures StoredRecords(items[SettingsKey := SettingsDoc(s)]) == StoredRecords(items)
    ensures LoadedBackup(items[SettingsKey := SettingsDoc(s)]) == LoadedBackup(items)
  {
  }

  // ---------------------------------------------------------------- export

  /** The backup document: the stored records, the current settings, its time and the format
      version. */
  datatype ExportDoc = ExportDoc(records: seq<InvestmentRecord>, settings: Settings, exportDate: string, version: string)

  // ---------------------------------------------------------------- import

  /** What the parsed file holds under `records`: nothing (or a falsy value), something other
      than an array, or an array of records. */
  datatype ImportedRecords = NoRecords | NotAnArray | RecordArray(records: seq<InvestmentRecord>)

  /** A parsed import file; its `settings` is None when missing or falsy. */
  datatype ImportDoc = ImportDoc(records: ImportedRecords, settings: Option<Settings>)

  /** The store after importing `parsed`, None standing for a file that is not JSON: the records
      key is written only for an array, the settings key only for present settings, and no
      other key changes. */
  function ImportedItems(items: map<string, Stored>, parsed: Option<ImportDoc>): (r: map<string, Stored>)
    ensures parsed.None? ==> r == items
    ensures forall key :: key != RecordsKey && key != SettingsKey ==>
      (key in r <==> key in items) && (key in items ==> r[key] == items[key])
    ensures parsed.Some? && parsed.value.records.RecordArray? ==>
      RecordsKey in r && r[RecordsKey] == RecordList(parsed.value.records.records)
    ensures !(parsed.Some? && parsed.value.records.RecordArray?) ==>
      (RecordsKey in r <==> RecordsKey in items) && (RecordsKey in items ==> r[RecordsKey] == items[RecordsKey])
    ensures parsed.Some? && parsed.value.settings.Some? ==>
      SettingsKey in r && r[SettingsKey] == SettingsDoc(parsed.value.settings.value)
    ensures !(parsed.Some? && parsed.value.settings.Some?) ==>
      (SettingsKey in r <==> SettingsKey in items) && (SettingsKey in items ==> r[SettingsKey] == items[SettingsKey])
  {
    match parsed
    case None => items
    case Some(doc) =>
      var withRecords := if doc.records.RecordArray? then items[RecordsKey := RecordList(doc.records.records)] else items;
      if doc.settings.Some? then withRecords[SettingsKey := SettingsDoc(doc.settings.value)] else withRecords
  }

  /** Importing a backup document restores its records and settings, whatever the store held,
      and keeps the recorded backup time. */
  lemma ExportThenImport(items: map<string, Stored>, doc: ExportDoc)
    ensures var after := ImportedItems(items, Some(ImportDoc(RecordArray(doc.records), Some(doc.settings))));
            && StoredRecords(after) == doc.records
            && LoadedSettings(after) == doc.settings
            && LoadedBackup(after) == LoadedBackup(items)
  {
    var after := ImportedItems(items, Some(ImportDoc(RecordArray(doc.records), Some(doc.settings))));
    assert BackupKey != RecordsKey && BackupKey != SettingsKey;
    assert after[RecordsKey] == RecordList(doc.records);
  }

  // ---------------------------------------------------------------- delete

  /** The keys the application owns. */
  const OwnKeys: set<string> := {RecordsKey, SettingsKey, BackupKey}

  /** After deleting all data the next load starts from scratch: no records, the default
      settings, no backup time. */
  lemma DeleteThenLoad(items: map<string, Stored>)
    ensures StoredRecords(items - OwnKeys) == []
    ensures LoadedSettings(items - OwnKeys) == DefaultSettings
    ensures LoadedBackup(items - OwnKeys) == None
  {
    assert RecordsKey !in items - OwnKeys;
    assert SettingsKey !in items - OwnKeys;
    assert BackupKey !in items - OwnKeys;
  }

  // ---------------------------------------------------------------- the page

  /** The settings page's state; `lastBackup` keeps the recorded time rather than its
      localised date. */
  class Page {
    var settings: Settings
    var totalRecords: nat
    var lastBackup: Option<string>
    var saveStatus: string

    /** The loader reads the saved settings, counts the stored records and reads the backup
        time. */
    constructor(storage: LocalStorage)
      ensures settings == LoadedSettings(storage.items)
      ensures totalRecords == |StoredRecords(storage.items)|
      ensures lastBackup == LoadedBackup(storage.items)
      ensures saveStatus == ""
    {
      settings := LoadedSettings(storage.items);
      totalRecords := |StoredRecords(storage.items)|;
      lastBackup := LoadedBackup(storage.items);
      saveStatus := "";
    }

    method HandleSettingChange(c: string, k: string, v: SettingValue)
      modifies this
      ensures settings == ChangeSetting(old(settings), c, k, v)
      ensures totalRecords == old(totalRecords) && lastBackup == old(lastBackup) && saveStatus == old(saveStatus)
    {
      settings := ChangeSetting(settings, c, k, v);
    }

    /** saveSettings: the current settings are written under `appSettings`. */
    method SaveSettings(storage: LocalStorage)
      modifies this, storage
      ensures storage.items == old(storage.items)[SettingsKey := SettingsDoc(settings)]
      ensures settings == old(settings) && totalRecords == old(totalRecords) && lastBackup == old(lastBackup)
      ensures saveStatus == "success"
    {
      storage.SetItem(SettingsKey, SettingsDoc(settings));
      saveStatus := "success";
    }

    /** exportData: the document of the stored records (none when the key is absent) and the
        current settings, stamped `now`; the backup time is recorded as `now`. */
    method ExportData(storage: LocalStorage, now: string) returns (doc: ExportDoc)
      modifies this, storage
      ensures doc == ExportDoc(StoredRecords(old(storage.items)), settings, now, Version)
      ensures storage.items == old(storage.items)[BackupKey := Text(now)]
      ensures settings == old(settings) && totalRecords == old(totalRecords) && saveStatus == old(saveStatus)
      ensures lastBackup == Some(now)
    {
      var records := StoredRecords(storage.items);
      doc := ExportDoc(records, settings, now, Version);
      storage.SetItem(BackupKey, Text(now));
      lastBackup := Some(now);
    }

    /** importData, `parsed` being the file's JSON (None when it does not parse): the records
        key is written for an array of records, the settings for present settings. */
    method ImportData(storage: LocalStorage, parsed: Option<ImportDoc>)
      modifies this, storage
      ensures storage.items == ImportedItems(old(storage.items), parsed)
      ensures settings == if parsed.Some? && parsed.value.settings.Some? then parsed.value.settings.value
                          else old(settings)
      ensures totalRecords == old(totalRecords) && lastBackup == old(lastBackup) && saveStatus == old(saveStatus)
    {
      if parsed.None? {
        return;
      }
      var doc := parsed.value;
      if doc.records.RecordArray? {
        storage.SetItem(RecordsKey, RecordList(doc.records.records));
      }
      if doc.settings.Some? {
        settings := doc.settings.value;
        storage.SetItem(SettingsKey, SettingsDoc(doc.settings.value));
      }
    }

    /** deleteAllData: exactly the three keys of the application are removed. */
    method DeleteAllData(storage: LocalStorage)
      modifies storage
      ensures storage.items == old(storage.items) - OwnKeys
    {
      storage.RemoveItem(RecordsKey);
      storage.RemoveItem(SettingsKey);
      storage.RemoveItem(BackupKey);
    }
  }
}
