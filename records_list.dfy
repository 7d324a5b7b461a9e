/**
 * The record list page: the search and filter predicate, the keyed sort, the sort-header
 * toggle, ten-per-page pagination, delete by id and the CSV export.
 */
module RecordsList {
  import opened Wrappers
  import opened Text
  import Lists
  import Sorting
  import opened Records

  datatype SortKey = Date | Symbol | Profit
  datatype SortOrder = Asc | Desc

  const PerPage: nat := 10

  const Header: seq<string> := ["銘柄コード", "企業名", "日付", "投資金額", "予想", "結果", "利益"]

  /** The result column of a record whose result is not yet known. */
  const Unsettled: string := "未確定"

  // ---------------------------------------------------------------- filtering

  /** The search term occurs, case-insensitively, in the symbol or in the company name. */
  predicate MatchesSearch(r: InvestmentRecord, term: string)
  {
    Contains(Lower(r.symbol), Lower(term)) || Contains(Lower(r.companyName), Lower(term))
  }

  /** A record is listed iff it matches the search and the prediction and result filters; an
      empty filter lets every record through. */
  predicate Keep(r: InvestmentRecord, term: string, prediction: string, result: string)
  {
    && MatchesSearch(r, term)
    && (prediction == "" || r.prediction == prediction)
    && (result == "" || r.result == result)
  }

  function KeepFn(term: string, prediction: string, result: string): InvestmentRecord -> bool
  {
    (r: InvestmentRecord) => Keep(r, term, prediction, result)
  }

  /** With an empty search term and no filter every record is listed, in stored order. */
  lemma EmptyFiltersKeepAll(s: seq<InvestmentRecord>)
    ensures Lists.Filter(s, KeepFn("", "", "")) == s
  {
    forall r: InvestmentRecord ensures Keep(r, "", "", "") {
      ContainsEmpty(Lower(r.symbol));
    }
    Lists.FilterAll(s, KeepFn("", "", ""));
  }

  // ---------------------------------------------------------------- sorting

  /** The comparator of the list: dates and symbols compare as strings, profits as numbers with
      a missing profit counting as 0; descending order swaps the operands. */
  predicate Precedes(key: SortKey, order: SortOrder, a: InvestmentRecord, b: InvestmentRecord)
  {
    var (x, y) := if order == Asc then (a, b) else (b, a);
    match key
    case Date => Sorting.LexLe(x.date, y.date)
    case Symbol => Sorting.LexLe(x.symbol, y.symbol)
    case Profit => x.actualProfit.GetOr(0) <= y.actualProfit.GetOr(0)
  }

  function Order(key: SortKey, order: SortOrder): (InvestmentRecord, InvestmentRecord) -> bool
  {
    (a, b) => Precedes(key, order, a, b)
  }

  lemma OrderIsPreorder(key: SortKey, order: SortOrder)
    ensures Sorting.TotalPreorder(Order(key, order))
  {
    forall a: string, b: string ensures Sorting.LexLe(a, b) || Sorting.LexLe(b, a) {
      Sorting.LexLeTotal(a, b);
    }
    forall a: string, b: string, c: string | Sorting.LexLe(a, b) && Sorting.LexLe(b, c)
      ensures Sorting.LexLe(a, c)
    {
      Sorting.LexLeTransitive(a, b, c);
    }
  }

  /** The filter-and-sort effect: the listed records, in an order sorted by the chosen key. */
  method FilterAndSort(records: seq<InvestmentRecord>, term: string, prediction: string, result: string,
                       key: SortKey, order: SortOrder) returns (view: seq<InvestmentRecord>)
    ensures multiset(view) == multiset(Lists.Filter(records, KeepFn(term, prediction, result)))
    ensures forall r :: r in view <==> r in records && Keep(r, term, prediction, result)
    ensures Sorting.SortedBy(view, Order(key, order))
  {
    var filtered := Lists.Filter(records, KeepFn(term, prediction, result));
    OrderIsPreorder(key, order);
    view := Sorting.SortBy(filtered, Order(key, order));
    forall r ensures r in view <==> r in filtered {
      assert r in view <==> r in multiset(view);
      assert r in filtered <==> r in multiset(filtered);
    }
  }

  /** handleSort: the current key toggles its direction; another key starts descending. */
  function NextSort(field: SortKey, sortBy: SortKey, order: SortOrder): (r: (SortKey, SortOrder))
    ensures field == sortBy ==> r.0 == sortBy && r.1 != order
    ensures field != sortBy ==> r == (field, Desc)
  {
    if field == sortBy then (sortBy, if order == Asc then Desc else Asc) else (field, Desc)
  }

  /** Choosing the same key twice restores the direction; choosing a new key twice ends ascending. */
  lemma NextSortTwice(field: SortKey, sortBy: SortKey, order: SortOrder)
    ensures var (k, o) := NextSort(field, sortBy, order);
            NextSort(field, k, o) == if field == sortBy then (sortBy, order) else (field, Asc)
  {
  }

  // ---------------------------------------------------------------- pagination

  function Min(a: int, b: int): int { if a <= b then a else b }

  /** `Math.ceil(n / 10)`: the fewest pages of ten that hold `n` records. */
  function TotalPages(n: nat): (t: nat)
    ensures t * PerPage >= n
    ensures t > 0 ==> (t - 1) * PerPage < n
    ensures t == 0 <==> n == 0
  {
    (n + PerPage - 1) / PerPage
  }

  /** `filtered.slice(start, start + 10)` for page `p`, counted from 1. */
  function Page<T>(s: seq<T>, p: nat): (r: seq<T>)
    requires p >= 1
    ensures |r| <= PerPage
    ensures forall j :: 0 <= j < |r| ==> (p - 1) * PerPage + j < |s| && r[j] == s[(p - 1) * PerPage + j]
    ensures p <= TotalPages(|s|) ==> |r| == Min(PerPage, |s| - (p - 1) * PerPage) && |r| > 0
    ensures p > TotalPages(|s|) ==> r == []
  {
    var start := Min((p - 1) * PerPage, |s|);
    s[start..Min(start + PerPage, |s|)]
  }

  /** Pages 1 through `k`, one after another. */
  function PagesThrough<T>(s: seq<T>, k: nat): seq<T>
  {
    if k == 0 then [] else PagesThrough(s, k - 1) + Page(s, k)
  }

  lemma {:induction false} PagesThroughPrefix<T>(s: seq<T>, k: nat)
    ensures PagesThrough(s, k) == s[..Min(k * PerPage, |s|)]
  {
    if k > 0 {
      PagesThroughPrefix(s, k - 1);
      var a, b := Min((k - 1) * PerPage, |s|), Min(k * PerPage, |s|);
      assert s[..a] + s[a..b] == s[..b];
    }
  }

  /** The pages partition the list: read in order they give back every record exactly once. */
  lemma PagesPartition<T>(s: seq<T>)
    ensures PagesThrough(s, TotalPages(|s|)) == s
  {
    PagesThroughPrefix(s, TotalPages(|s|));
  }

  /** The "previous" button. */
  function PrevPage(p: nat, total: nat): (q: nat)
    ensures 1 <= p <= total ==> 1 <= q <= total
    ensures p > 1 ==> q == p - 1
    ensures p <= 1 ==> q == 1
  {
    if p - 1 >= 1 then p - 1 else 1
  }

  /** The "next" button. */
  function NextPage(p: nat, total: nat): (q: nat)
    ensures 1 <= p <= total ==> 1 <= q <= total
    ensures p < total ==> q == p + 1
    ensures p >= total ==> q == total
  {
    if total <= p + 1 then total else p + 1
  }

  // ---------------------------------------------------------------- CSV export

  /** One exported row: seven fields, an unknown result written as 未確定 and a missing profit
      as 0. */
  function CsvRow(r: InvestmentRecord): (row: seq<string>)
    ensures |row| == |Header|
    ensures row[..5] == [r.symbol, r.companyName, r.date, r.investmentAmount, r.prediction]
    ensures row[5] == if r.result == "" then Unsettled else r.result
    ensures ParseInt(row[6]) == r.actualProfit.GetOr(0)
  {
    IntToStringRoundTrip(r.actualProfit.GetOr(0));
    [r.symbol, r.companyName, r.date, r.investmentAmount, r.prediction,
     if r.result == "" then Unsettled else r.result,
     IntToString(r.actualProfit.GetOr(0))]
  }

  /** The lines of the file: the header, then one line per listed record. */
  function CsvLines(records: seq<InvestmentRecord>): (lines: seq<string>)
    ensures |lines| == |records| + 1
  {
    [Join(Header, ',')] + seq(|records|, i requires 0 <= i < |records| => Join(CsvRow(records[i]), ','))
  }

  /** The exported text. */
  function Csv(records: seq<InvestmentRecord>): string
  {
    Join(CsvLines(records), '\n')
  }

  /** A record none of whose exported text contains a comma or a line break. */
  predicate CsvSafe(r: InvestmentRecord)
  {
    forall k :: 0 <= k < 6 ==> ',' !in CsvRow(r)[k] && '\n' !in CsvRow(r)[k]
  }

  /** The profit field is digits after an optional minus sign. */
  lemma ProfitFieldSafe(r: InvestmentRecord)
    ensures ',' !in CsvRow(r)[6] && '\n' !in CsvRow(r)[6]
  {
    var f := CsvRow(r)[6];
    forall i | 0 <= i < |f| ensures f[i] != ',' && f[i] != '\n' {
      if i > 0 { assert IsDigit(f[i]); } else { assert IsDigit(f[0]) || f[0] == '-'; }
    }
  }

  /** A safe record's line holds no line break and splits back into its seven fields. */
  lemma CsvLineReadsBack(r: InvestmentRecord)
    requires CsvSafe(r)
    ensures '\n' !in Join(CsvRow(r), ',')
    ensures Split(Join(CsvRow(r), ','), ',') == CsvRow(r)
  {
    var row := CsvRow(r);
    ProfitFieldSafe(r);
    assert forall k :: 0 <= k < |row| ==> ',' !in row[k] && '\n' !in row[k];
    JoinKeeps(row, ',', '\n');
    SplitJoin(row, ',');
  }

  lemma HeaderReadsBack()
    ensures '\n' !in Join(Header, ',')
    ensures Split(Join(Header, ','), ',') == Header
  {
    assert forall k :: 0 <= k < |Header| ==> ',' !in Header[k] && '\n' !in Header[k];
    JoinKeeps(Header, ',', '\n');
    SplitJoin(Header, ',');
  }

  /** When no exported field holds a comma or a line break, the text reads back as the header
      row and one seven-field row per listed record, in list order. */
  lemma CsvReadsBack(records: seq<InvestmentRecord>)
    requires forall i :: 0 <= i < |records| ==> CsvSafe(records[i])
    ensures |Split(Csv(records), '\n')| == |records| + 1
    ensures Split(Split(Csv(records), '\n')[0], ',') == Header
    ensures forall i :: 0 <= i < |records| ==> Split(Split(Csv(records), '\n')[i + 1], ',') == CsvRow(records[i])
  {
    var lines := CsvLines(records);
    CsvLinesUnbroken(records);
    SplitJoin(lines, '\n');
    assert Split(Csv(records), '\n') == lines;
    CsvHeaderLine(records);
    HeaderReadsBack();
    forall i | 0 <= i < |records| ensures Split(lines[i + 1], ',') == CsvRow(records[i]) {
      CsvLineAt(records, i);
      CsvLineReadsBack(records[i]);
    }
  }

  lemma CsvHeaderLine(records: seq<InvestmentRecord>)
    ensures CsvLines(records)[0] == Join(Header, ',')
  {
  }

  lemma CsvLineAt(records: seq<InvestmentRecord>, i: nat)
    requires i < |records|
    ensures CsvLines(records)[i + 1] == Join(CsvRow(records[i]), ',')
  {
  }

  /** No line of the file of safe records holds a line break. */
  lemma CsvLinesUnbroken(records: seq<InvestmentRecord>)
    requires forall i :: 0 <= i < |records| ==> CsvSafe(records[i])
    ensures forall k :: 0 <= k < |CsvLines(records)| ==> '\n' !in CsvLines(records)[k]
  {
    forall k | 0 <= k < |CsvLines(records)| ensures '\n' !in CsvLines(records)[k] {
      CsvLineUnbroken(records, k);
    }
  }

  lemma CsvLineUnbroken(records: seq<InvestmentRecord>, k: nat)
    requires k <= |records|
    requires k > 0 ==> CsvSafe(records[k - 1])
    ensures '\n' !in CsvLines(records)[k]
  {
    if k == 0 {
      CsvHeaderUnbroken(records);
    } else {
      CsvRowUnbroken(records, k - 1);
    }
  }

  lemma CsvHeaderUnbroken(records: seq<InvestmentRecord>)
    ensures '\n' !in CsvLines(records)[0]
  {
    CsvHeaderLine(records);
    HeaderReadsBack();
  }

  lemma CsvRowUnbroken(records: seq<InvestmentRecord>, i: nat)
    requires i < |records| && CsvSafe(records[i])
    ensures '\n' !in CsvLines(records)[i + 1]
  {
    CsvLineAt(records, i);
    CsvLineReadsBack(records[i]);
  }

  /** Joining with one character adds no other character. */
  lemma {:induction false} JoinKeeps(parts: seq<string>, sep: char, c: char)
    requires c != sep
    requires forall k :: 0 <= k < |parts| ==> c !in parts[k]
    ensures c !in Join(parts, sep)
  {
    if |parts| > 1 {
      JoinKeeps(parts[1..], sep, c);
    }
  }

  // ---------------------------------------------------------------- delete

  function OtherThan(id: int): InvestmentRecord -> bool
  {
    (r: InvestmentRecord) => r.id != id
  }

  /** The list after deleting `id`: every record with another id, in the same order. */
  function WithoutId(records: seq<InvestmentRecord>, id: int): (r: seq<InvestmentRecord>)
    ensures forall x :: x in r <==> x in records && x.id != id
    ensures Lists.IsSubsequence(r, records)
    ensures forall x :: x in records && x.id != id ==> multiset(r)[x] == multiset(records)[x]
  {
    Lists.FilterIsSubsequence(records, OtherThan(id));
    FilterKeepsCopies(records, OtherThan(id));
    Lists.Filter(records, OtherThan(id))
  }

  /** A filter keeps every copy of an element that passes. */
  lemma {:induction false} FilterKeepsCopies<T(!new)>(s: seq<T>, p: T -> bool)
    ensures forall x :: p(x) ==> multiset(Lists.Filter(s, p))[x] == multiset(s)[x]
  {
    if s != [] {
      FilterKeepsCopies(s[1..], p);
      assert s == [s[0]] + s[1..];
    }
  }

  // ---------------------------------------------------------------- the page

  /** The state of the record list page. */
  class RecordsView {
    var records: seq<InvestmentRecord>
    var filtered: seq<InvestmentRecord>
    var searchTerm: string
    var filterPrediction: string
    var filterResult: string
    var sortBy: SortKey
    var sortOrder: SortOrder
    var currentPage: nat

    /** The shown list is the sorted filter of the records, and the current page is a page of it. */
    ghost predicate Valid()
      reads this
    {
      && multiset(filtered) == multiset(Lists.Filter(records, KeepFn(searchTerm, filterPrediction, filterResult)))
      && Sorting.SortedBy(filtered, Order(sortBy, sortOrder))
      && 1 <= currentPage
      && (currentPage == 1 || currentPage <= TotalPages(|filtered|))
    }

    /** The page opens on the stored records, or on `sample` when nothing is stored, with no
        filter, newest date first. */
    constructor(storage: LocalStorage, sample: seq<InvestmentRecord>)
      ensures records == if RecordsKey in storage.items then StoredRecords(storage.items) else sample
      ensures searchTerm == "" && filterPrediction == "" && filterResult == ""
      ensures sortBy == Date && sortOrder == Desc && currentPage == 1
      ensures Valid()
    {
      records := if RecordsKey in storage.items then StoredRecords(storage.items) else sample;
      searchTerm, filterPrediction, filterResult := "", "", "";
      sortBy, sortOrder := Date, Desc;
      new;
      filtered := FilterAndSort(records, searchTerm, filterPrediction, filterResult, sortBy, sortOrder);
      currentPage := 1;
    }

    /** The effect that runs after any change of records, filters or sort. */
    method Refresh()
      modifies this
      ensures Valid()
      ensures currentPage == 1
      ensures records == old(records) && searchTerm == old(searchTerm)
      ensures filterPrediction == old(filterPrediction) && filterResult == old(filterResult)
      ensures sortBy == old(sortBy) && sortOrder == old(sortOrder)
    {
      filtered := FilterAndSort(records, searchTerm, filterPrediction, filterResult, sortBy, sortOrder);
      currentPage := 1;
    }

    method SetSearchTerm(term: string)
      modifies this
      ensures Valid() && searchTerm == term && currentPage == 1
      ensures records == old(records) && filterPrediction == old(filterPrediction) && filterResult == old(filterResult)
      ensures sortBy == old(sortBy) && sortOrder == old(sortOrder)
    {
      searchTerm := term;
      Refresh();
    }

    method SetFilterPrediction(prediction: string)
      modifies this
      ensures Valid() && filterPrediction == prediction && currentPage == 1
      ensures records == old(records) && searchTerm == old(searchTerm) && filterResult == old(filterResult)
      ensures sortBy == old(sortBy) && sortOrder == old(sortOrder)
    {
      filterPrediction := prediction;
      Refresh();
    }

    method SetFilterResult(result: string)
      modifies this
      ensures Valid() && filterResult == result && currentPage == 1
      ensures records == old(records) && searchTerm == old(searchTerm) && filterPrediction == old(filterPrediction)
      ensures sortBy == old(sortBy) && sortOrder == old(sortOrder)
    {
      filterResult := result;
      Refresh();
    }

    /** The sort picker sets key and direction together. */
    method SetSort(key: SortKey, order: SortOrder)
      modifies this
      ensures Valid() && sortBy == key && sortOrder == order && currentPage == 1
      ensures records == old(records) && searchTerm == old(searchTerm)
      ensures filterPrediction == old(filterPrediction) && filterResult == old(filterResult)
    {
      sortBy, sortOrder := key, order;
      Refresh();
    }

    method HandleSort(field: SortKey)
      modifies this
      ensures Valid() && (sortBy, sortOrder) == NextSort(field, old(sortBy), old(sortOrder)) && currentPage == 1
      ensures records == old(records) && searchTerm == old(searchTerm)
      ensures filterPrediction == old(filterPrediction) && filterResult == old(filterResult)
    {
      var next := NextSort(field, sortBy, sortOrder);
      sortBy, sortOrder := next.0, next.1;
      Refresh();
    }

    /** handleDelete: with the user's confirmation the records with `id` go, the rest stay in
        order and are written back to the store; without it nothing changes. */
    method HandleDelete(id: int, confirmed: bool, storage: LocalStorage)
      requires Valid()
      modifies this, storage
      ensures Valid()
      ensures !confirmed ==> records == old(records) && storage.items == old(storage.items) && currentPage == old(currentPage)
      ensures !confirmed ==> filtered == old(filtered)
      ensures confirmed ==> records == WithoutId(old(records), id) && currentPage == 1
      ensures confirmed ==> storage.items == old(storage.items)[RecordsKey := RecordList(records)]
      ensures searchTerm == old(searchTerm) && filterPrediction == old(filterPrediction) && filterResult == old(filterResult)
      ensures sortBy == old(sortBy) && sortOrder == old(sortOrder)
    {
      if confirmed {
        records := WithoutId(records, id);
        storage.SetItem(RecordsKey, RecordList(records));
        Refresh();
      }
    }

    /** The records shown on the current page. */
    function CurrentRecords(): (r: seq<InvestmentRecord>)
      reads this
      requires Valid()
      ensures |r| <= PerPage
      ensures forall j :: 0 <= j < |r| ==>
        (currentPage - 1) * PerPage + j < |filtered| && r[j] == filtered[(currentPage - 1) * PerPage + j]
    {
      Page(filtered, currentPage)
    }

    /** The previous/next buttons and the numbered buttons are drawn only when there is more
        than one page. */
    method GoPrevious()
      requires Valid() && TotalPages(|filtered|) > 1
      modifies this
      ensures Valid() && currentPage == PrevPage(old(currentPage), TotalPages(|filtered|))
      ensures filtered == old(filtered) && records == old(records)
      ensures searchTerm == old(searchTerm) && filterPrediction == old(filterPrediction) && filterResult == old(filterResult)
      ensures sortBy == old(sortBy) && sortOrder == old(sortOrder)
    {
      currentPage := PrevPage(currentPage, TotalPages(|filtered|));
    }

    method GoNext()
      requires Valid() && TotalPages(|filtered|) > 1
      modifies this
      ensures Valid() && currentPage == NextPage(old(currentPage), TotalPages(|filtered|))
      ensures filtered == old(filtered) && records == old(records)
      ensures searchTerm == old(searchTerm) && filterPrediction == old(filterPrediction) && filterResult == old(filterResult)
      ensures sortBy == old(sortBy) && sortOrder == old(sortOrder)
    {
      currentPage := NextPage(currentPage, TotalPages(|filtered|));
    }

    method GoTo(page: nat)
      requires Valid() && TotalPages(|filtered|) > 1
      requires 1 <= page <= TotalPages(|filtered|)
      modifies this
      ensures Valid() && currentPage == page
      ensures filtered == old(filtered) && records == old(records)
      ensures searchTerm == old(searchTerm) && filterPrediction == old(filterPrediction) && filterResult == old(filterResult)
      ensures sortBy == old(sortBy) && sortOrder == old(sortOrder)
    {
      currentPage := page;
    }

    /** handleExport: the CSV text of the listed records, in list order. When no exported field
        holds a comma or a line break, the text reads back as the header and one row per listed
        record. */
    function Export(): (csv: string)
      reads this
      ensures (forall i :: 0 <= i < |filtered| ==> CsvSafe(filtered[i])) ==>
        && |Split(csv, '\n')| == |filtered| + 1
        && Split(Split(csv, '\n')[0], ',') == Header
        && forall i :: 0 <= i < |filtered| ==> Split(Split(csv, '\n')[i + 1], ',') == CsvRow(filtered[i])
    {
      if forall i :: 0 <= i < |filtered| ==> CsvSafe(filtered[i]) then
        CsvReadsBack(filtered);
        Csv(filtered)
      else
        Csv(filtered)
    }
  }
}
