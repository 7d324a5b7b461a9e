/**
 * The investment records and application settings that the record pages keep in the browser's
 * key-value store, and that store itself.
 */
module Records {
  import opened Wrappers

  /** A chart image attached to a record: the `Date.now() + Math.random()` stamp it was given
      when its file finished loading, its file name and its data URL. */
  datatype ChartImage = ChartImage(id: real, name: string, preview: string)

  /** One investment record. Text fields a record lacks are "" and a missing profit is None:
      records written by the form carry no `result`, `actualProfit` or `sector`. */
  datatype InvestmentRecord = InvestmentRecord(
    id: int,
    symbol: string,
    companyName: string,
    date: string,
    investmentAmount: string,
    prediction: string,
    predictionReason: string,
    targetPrice: string,
    stopLoss: string,
    timeframe: string,
    analysis: string,
    chartImages: seq<ChartImage>,
    createdAt: string,
    result: string,
    actualProfit: Option<int>,
    sector: string)

  /** A settings value: a switch or a chosen option. */
  datatype SettingValue = Flag(on: bool) | Choice(text: string)

  /** The settings object: one group of keyed values per category. */
  type Settings = map<string, map<string, SettingValue>>

  /** What a key of the store holds once its JSON text is parsed back. */
  datatype Stored = RecordList(records: seq<InvestmentRecord>) | SettingsDoc(settings: Settings) | Text(text: string)

  const RecordsKey: string := "investmentRecords"
  const SettingsKey: string := "appSettings"
  const BackupKey: string := "lastBackupDate"

  /** `localStorage`: a map from keys to stored values. */
  class LocalStorage {
    var items: map<string, Stored>

    constructor(initial: map<string, Stored>)
      ensures items == initial
    {
      items := initial;
    }

    /** `localStorage.setItem(key, JSON.stringify(value))` */
    method SetItem(key: string, value: Stored)
      modifies this
      ensures items == old(items)[key := value]
    {
      items := items[key := value];
    }

    /** `localStorage.removeItem(key)`; removing an absent key changes nothing. */
    method RemoveItem(key: string)
      modifies this
      ensures items == old(items) - {key}
    {
      items := items - {key};
    }
  }

  /** `JSON.parse(localStorage.getItem('investmentRecords') || '[]')`: the stored list, or the
      empty list when the key is absent. */
  function StoredRecords(items: map<string, Stored>): (r: seq<InvestmentRecord>)
    ensures RecordsKey !in items ==> r == []
    ensures RecordsKey in items && items[RecordsKey].RecordList? ==> r == items[RecordsKey].records
  {
    if RecordsKey in items && items[RecordsKey].RecordList? then items[RecordsKey].records else []
  }
}
