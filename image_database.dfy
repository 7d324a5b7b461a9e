/**
 * The embedded image store: three auto-keyed tables (images, categories, tags) with inserts that
 * fill in defaults, attribute lookups, a text search, partial update, deletes, statistics and
 * the seeding of five default categories.
 */
module ImageDatabase {
  import opened Wrappers
  import opened Text
  import Lists
  import Sorting

  const Uncategorized: string := "uncategorized"

  /** What a caller hands to saveImage. An empty `category` stands for every falsy value. */
  datatype ImageInput = ImageInput(
    fileName: string, originalName: string, fileSize: Option<nat>, mimeType: string,
    category: string, tags: Option<seq<string>>, recordId: Option<int>,
    compressed: string, thumbnail: string, width: nat, height: nat)

  /** A stored image row; `uploadDate` is a timestamp in milliseconds. */
  datatype ImageRecord = ImageRecord(
    id: nat, fileName: string, originalName: string, fileSize: Option<nat>, mimeType: string,
    category: string, tags: seq<string>, uploadDate: int, recordId: Option<int>,
    compressed: string, thumbnail: string, width: nat, height: nat)

  /** The fields an update may replace; `None` leaves a field as it is. */
  datatype ImagePatch = ImagePatch(
    fileName: Option<string>, originalName: Option<string>, fileSize: Option<Option<nat>>,
    mimeType: Option<string>, category: Option<string>, tags: Option<seq<string>>,
    uploadDate: Option<int>, recordId: Option<Option<int>>, compressed: Option<string>,
    thumbnail: Option<string>, width: Option<nat>, height: Option<nat>)

  datatype CategoryInput = CategoryInput(name: string, description: string, color: string)
  datatype Category = Category(id: nat, name: string, description: string, color: string)

  /** The row saveCategory stores: the input's fields under the new key. */
  function NewCategory(id: nat, c: CategoryInput): Category
  {
    Category(id, c.name, c.description, c.color)
  }
  datatype TagInput = TagInput(name: string, color: string)
  datatype Tag = Tag(id: nat, name: string, color: string)

  datatype DatabaseStats = DatabaseStats(
    totalImages: nat, totalSize: int, totalCategories: nat, totalTags: nat, averageSize: int)

  /** The five categories seeded into an empty store. */
  const DefaultCategories: seq<CategoryInput> := [
    CategoryInput("チャート", "株価チャートや技術分析図", "#3B82F6"),
    CategoryInput("ニュース", "ニュース記事やプレスリリース", "#10B981"),
    CategoryInput("分析レポート", "投資分析レポートや調査資料", "#F59E0B"),
    CategoryInput("スクリーンショット", "取引画面やアプリのスクリーンショット", "#8B5CF6"),
    CategoryInput("その他", "その他の投資関連画像", "#6B7280")
  ]

  /** The row saveImage and saveMultipleImages store for `d`: `category || 'uncategorized'`,
      `tags || []`, `recordId || null`, and the upload date set to `now` whatever `d` says. */
  function ToRecord(id: nat, d: ImageInput, now: int): (r: ImageRecord)
    ensures r.id == id && r.uploadDate == now
    ensures d.category == "" ==> r.category == Uncategorized
    ensures d.category != "" ==> r.category == d.category
    ensures d.tags.Some? ==> r.tags == d.tags.value
    ensures d.tags.None? ==> r.tags == []
    ensures d.recordId == Some(0) ==> r.recordId == None
    ensures d.recordId != Some(0) ==> r.recordId == d.recordId
    ensures r.fileName == d.fileName && r.originalName == d.originalName
    ensures r.fileSize == d.fileSize && r.mimeType == d.mimeType
    ensures r.compressed == d.compressed && r.thumbnail == d.thumbnail
    ensures r.width == d.width && r.height == d.height
  {
    ImageRecord(
      id, d.fileName, d.originalName, d.fileSize, d.mimeType,
      if d.category == "" then Uncategorized else d.category,
      d.tags.GetOr([]),
      now,
      if d.recordId == Some(0) then None else d.recordId,
      d.compressed, d.thumbnail, d.width, d.height)
  }

  /** The update `images.update(id, patch)` applies to one row. */
  function ApplyPatch(r: ImageRecord, p: ImagePatch): (u: ImageRecord)
    ensures u.id == r.id
  {
    ImageRecord(
      r.id,
      p.fileName.GetOr(r.fileName), p.originalName.GetOr(r.originalName),
      p.fileSize.GetOr(r.fileSize), p.mimeType.GetOr(r.mimeType),
      p.category.GetOr(r.category), p.tags.GetOr(r.tags),
      p.uploadDate.GetOr(r.uploadDate), p.recordId.GetOr(r.recordId),
      p.compressed.GetOr(r.compressed), p.thumbnail.GetOr(r.thumbnail),
      p.width.GetOr(r.width), p.height.GetOr(r.height))
  }

  const EmptyPatch := ImagePatch(None, None, None, None, None, None, None, None, None, None, None, None)

  /** A patch naming no field leaves the row as it is. */
  lemma ApplyEmptyPatch(r: ImageRecord)
    ensures ApplyPatch(r, EmptyPatch) == r
  {
  }

  /** Applying the same patch twice is applying it once. */
  lemma ApplyPatchIdempotent(r: ImageRecord, p: ImagePatch)
    ensures ApplyPatch(ApplyPatch(r, p), p) == ApplyPatch(r, p)
  {
  }

  function Later<T>(a: Option<T>, b: Option<T>): Option<T>
  {
    if b.Some? then b else a
  }

  /** `p` followed by `q`, with `q` winning on the fields both name. */
  function MergePatches(p: ImagePatch, q: ImagePatch): ImagePatch
  {
    ImagePatch(
      Later(p.fileName, q.fileName), Later(p.originalName, q.originalName),
      Later(p.fileSize, q.fileSize), Later(p.mimeType, q.mimeType),
      Later(p.category, q.category), Later(p.tags, q.tags),
      Later(p.uploadDate, q.uploadDate), Later(p.recordId, q.recordId),
      Later(p.compressed, q.compressed), Later(p.thumbnail, q.thumbnail),
      Later(p.width, q.width), Later(p.height, q.height))
  }

  /** Two updates in a row are one update with the later value of each field. */
  lemma ApplyPatchCompose(r: ImageRecord, p: ImagePatch, q: ImagePatch)
    ensures ApplyPatch(ApplyPatch(r, p), q) == ApplyPatch(r, MergePatches(p, q))
  {
  }

  /** The keys of `m` in `[lo, hi)`, ascending: the order in which a table scan visits rows. */
  function KeysBetween<T>(m: map<nat, T>, lo: nat, hi: nat): (ks: seq<nat>)
    decreases hi - lo
  {
    if lo >= hi then [] else (if lo in m then [lo] else []) + KeysBetween(m, lo + 1, hi)
  }

  /** `ks` lists every key of `m` in `[lo, hi)` once, in ascending order. */
  predicate ExactScan<T>(m: map<nat, T>, lo: nat, hi: nat, ks: seq<nat>)
  {
    && (forall i :: 0 <= i < |ks| ==> ks[i] in m && lo <= ks[i] < hi)
    && (forall i, j :: 0 <= i < j < |ks| ==> ks[i] < ks[j])
    && (forall k :: lo <= k < hi && k in m ==> k in ks)
  }

  lemma {:induction false} KeysBetweenExact<T>(m: map<nat, T>, lo: nat, hi: nat)
    ensures ExactScan(m, lo, hi, KeysBetween(m, lo, hi))
    decreases hi - lo
  {
    if lo < hi {
      KeysBetweenExact(m, lo + 1, hi);
      if lo in m {
        KeysBetweenCons(m, lo, hi, KeysBetween(m, lo + 1, hi));
      }
    }
  }

  lemma KeysBetweenCons<T>(m: map<nat, T>, lo: nat, hi: nat, rest: seq<nat>)
    requires lo < hi && lo in m && ExactScan(m, lo + 1, hi, rest)
    ensures ExactScan(m, lo, hi, [lo] + rest)
  {
    var ks := [lo] + rest;
    assert forall i :: 1 <= i < |ks| ==> ks[i] == rest[i - 1];
  }

  /** The rows of `m` below `hi` in primary-key order: `table.toArray()`. */
  function Rows<T>(m: map<nat, T>, hi: nat): (rows: seq<T>)
  {
    var ks := KeysBetween(m, 0, hi);
    KeysBetweenExact(m, 0, hi);
    seq(|ks|, i requires 0 <= i < |ks| => m[ks[i]])
  }

  /** `toArray()` of a table whose keys lie below `hi`: one row per key, in ascending key order. */
  lemma RowsExact<T>(m: map<nat, T>, hi: nat)
    requires forall k :: k in m ==> k < hi
    ensures var ks := KeysBetween(m, 0, hi);
      && |Rows(m, hi)| == |ks|
      && (forall i :: 0 <= i < |ks| ==> ks[i] in m && Rows(m, hi)[i] == m[ks[i]])
      && (forall i, j :: 0 <= i < j < |ks| ==> ks[i] < ks[j])
      && (forall k :: k in m ==> m[k] in Rows(m, hi))
      && (Rows(m, hi) == [] <==> m == map[])
  {
    var ks := KeysBetween(m, 0, hi);
    KeysBetweenExact(m, 0, hi);
    var rows := Rows(m, hi);
    forall k | k in m ensures m[k] in rows {
      assert k in ks;
      var i :| 0 <= i < |ks| && ks[i] == k;
      assert rows[i] == m[k];
    }
    if |ks| > 0 {
      assert ks[0] in m;
    }
  }

  predicate IdsAscending(s: seq<ImageRecord>)
  {
    forall i, j :: 0 <= i < j < |s| ==> s[i].id < s[j].id
  }

  /** The order of getAllImages: later upload first, and on the same date the larger key first. */
  predicate NewerOrSame(a: ImageRecord, b: ImageRecord)
  {
    a.uploadDate > b.uploadDate || (a.uploadDate == b.uploadDate && a.id >= b.id)
  }

  lemma NewerOrSamePreorder()
    ensures Sorting.TotalPreorder(NewerOrSame)
  {
  }

  lemma SameMembers<T>(a: seq<T>, b: seq<T>)
    requires multiset(a) == multiset(b)
    ensures forall x :: x in a <==> x in b
  {
    forall x ensures x in a <==> x in b {
      assert x in a <==> x in multiset(a);
      assert x in b <==> x in multiset(b);
    }
  }

  lemma NewestFirst(s: seq<ImageRecord>)
    requires Sorting.SortedBy(s, NewerOrSame)
    ensures forall i, j :: 0 <= i < j < |s| ==> s[i].uploadDate >= s[j].uploadDate
    ensures forall i, j :: 0 <= i < j < |s| && s[i].uploadDate == s[j].uploadDate ==> s[i].id >= s[j].id
  {
    forall i, j | 0 <= i < j < |s| ensures NewerOrSame(s[i], s[j]) {
    }
  }

  /** The search test: lower-cased query inside the lower-cased name, some lower-cased tag,
      or the lower-cased category. */
  predicate MatchesQuery(img: ImageRecord, lowerQuery: string)
  {
    || Contains(Lower(img.originalName), lowerQuery)
    || (exists i :: 0 <= i < |img.tags| && Contains(Lower(img.tags[i]), lowerQuery))
    || Contains(Lower(img.category), lowerQuery)
  }

  /** `img.fileSize || 0` */
  function SizeOf(img: ImageRecord): int
  {
    img.fileSize.GetOr(0)
  }

  lemma {:induction false} SumSizesNonNegative(s: seq<ImageRecord>)
    ensures Lists.Sum(s, SizeOf) >= 0
  {
    if s != [] { SumSizesNonNegative(s[1..]); }
  }

  /** An IndexedDB key: a string or an array of keys. */
  datatype IndexKey = StringKey(s: string) | ArrayKey(items: seq<IndexKey>)

  /** The key a plain (not multi-entry) index on `tags` files a row under: the whole array. */
  function TagsIndexKey(img: ImageRecord): IndexKey
  {
    ArrayKey(seq(|img.tags|, i requires 0 <= i < |img.tags| => StringKey(img.tags[i])))
  }

  /** The rows a bulk insert of `batch` adds: the defaulted row of `batch[i]` under the key
      `first + i`. */
  function BatchRows(first: nat, batch: seq<ImageInput>, now: int): map<nat, ImageRecord>
    decreases |batch|
  {
    if batch == [] then map[]
    else
      var k := first + |batch| - 1;
      BatchRows(first, batch[..|batch| - 1], now)[k := ToRecord(k, batch[|batch| - 1], now)]
  }

  /** The categories seeding adds: `cs[i]` under the key `first + i`. */
  function CategoryRows(first: nat, cs: seq<CategoryInput>): map<nat, Category>
    decreases |cs|
  {
    if cs == [] then map[]
    else
      var k := first + |cs| - 1;
      CategoryRows(first, cs[..|cs| - 1])[k := NewCategory(k, cs[|cs| - 1])]
  }

  /** Every stored image sits under its own id, a key the generator has already handed out. */
  ghost predicate ImagesKeyed(images: map<nat, ImageRecord>, next: nat)
  {
    forall k :: k in images ==> 1 <= k < next && images[k].id == k
  }

  ghost predicate CategoriesKeyed(categories: map<nat, Category>, next: nat)
  {
    forall k :: k in categories ==> 1 <= k < next && categories[k].id == k
  }

  /** Updating a key of the right operand of a union is updating the union. */
  lemma UnionUpdate<K, V>(m: map<K, V>, n: map<K, V>, k: K, v: V)
    ensures m + n[k := v] == (m + n)[k := v]
  {
  }

  lemma ImagesKeyedUpdate(images: map<nat, ImageRecord>, next: nat, d: ImageInput, now: int)
    requires 1 <= next && ImagesKeyed(images, next)
    ensures ImagesKeyed(images[next := ToRecord(next, d, now)], next + 1)
  {
  }

  lemma CategoriesKeyedUpdate(categories: map<nat, Category>, next: nat, c: CategoryInput)
    requires 1 <= next && CategoriesKeyed(categories, next)
    ensures CategoriesKeyed(categories[next := NewCategory(next, c)], next + 1)
  {
  }

  /** A bulk insert from the generator's next key keeps every row under its own id, below the
      advanced generator. */
  lemma {:induction false} BatchKeyed(images: map<nat, ImageRecord>, first: nat, batch: seq<ImageInput>, now: int)
    requires 1 <= first && ImagesKeyed(images, first)
    ensures ImagesKeyed(images + BatchRows(first, batch, now), first + |batch|)
    decreases |batch|
  {
    if batch != [] {
      var init := batch[..|batch| - 1];
      var last := first + |batch| - 1;
      var row := ToRecord(last, batch[|batch| - 1], now);
      BatchKeyed(images, first, init, now);
      assert BatchRows(first, batch, now) == BatchRows(first, init, now)[last := row];
      UnionUpdate(images, BatchRows(first, init, now), last, row);
      ImagesKeyedUpdate(images + BatchRows(first, init, now), last, batch[|batch| - 1], now);
    }
  }

  /** The row a bulk insert files under `first + i` is the defaulted row of `batch[i]`. */
  lemma {:induction false} BatchRowsAt(first: nat, batch: seq<ImageInput>, now: int, i: nat)
    requires i < |batch|
    ensures first + i in BatchRows(first, batch, now)
    ensures BatchRows(first, batch, now)[first + i] == ToRecord(first + i, batch[i], now)
    decreases |batch|
  {
    var init := batch[..|batch| - 1];
    if i < |init| {
      BatchRowsAt(first, init, now, i);
      assert init[i] == batch[i];
    }
  }

  /** The keys of a bulk insert are exactly the fresh range it was given. */
  lemma {:induction false} BatchRowsRange(first: nat, batch: seq<ImageInput>, now: int, k: nat)
    ensures k in BatchRows(first, batch, now) <==> first <= k < first + |batch|
    decreases |batch|
  {
    if batch != [] {
      BatchRowsRange(first, batch[..|batch| - 1], now, k);
    }
  }

  /** A bulk insert at the next free key leaves every earlier row as it was. */
  lemma BatchKeepsRows(images: map<nat, ImageRecord>, first: nat, batch: seq<ImageInput>, now: int, k: nat)
    requires ImagesKeyed(images, first) && k in images
    ensures k in images + BatchRows(first, batch, now)
    ensures (images + BatchRows(first, batch, now))[k] == images[k]
  {
    BatchRowsRange(first, batch, now, k);
  }

  lemma {:induction false} CategoryRowsKeyed(categories: map<nat, Category>, first: nat, cs: seq<CategoryInput>)
    requires 1 <= first && CategoriesKeyed(categories, first)
    ensures CategoriesKeyed(categories + CategoryRows(first, cs), first + |cs|)
    decreases |cs|
  {
    if cs != [] {
      var init := cs[..|cs| - 1];
      var last := first + |cs| - 1;
      var row := NewCategory(last, cs[|cs| - 1]);
      CategoryRowsKeyed(categories, first, init);
      assert CategoryRows(first, cs) == CategoryRows(first, init)[last := row];
      UnionUpdate(categories, CategoryRows(first, init), last, row);
      CategoriesKeyedUpdate(categories + CategoryRows(first, init), last, cs[|cs| - 1]);
    }
  }

  /** Seeding `cs` adds `|cs|` distinct keys: `cs[i]` under `first + i`. */
  lemma {:induction false} CategoryRowsAt(first: nat, cs: seq<CategoryInput>, i: nat)
    requires i < |cs|
    ensures first + i in CategoryRows(first, cs)
    ensures CategoryRows(first, cs)[first + i] == NewCategory(first + i, cs[i])
    decreases |cs|
  {
    var init := cs[..|cs| - 1];
    if i < |init| {
      CategoryRowsAt(first, init, i);
      assert init[i] == cs[i];
    }
  }

  lemma {:induction false} CategoryRowsSize(first: nat, cs: seq<CategoryInput>)
    ensures |CategoryRows(first, cs)| == |cs|
    decreases |cs|
  {
    if cs != [] {
      var init := cs[..|cs| - 1];
      var last := first + |cs| - 1;
      CategoryRowsSize(first, init);
      if last in CategoryRows(first, init) {
        CategoryRowsBelow(first, init, last);
      }
      assert CategoryRows(first, cs) == CategoryRows(first, init)[last := NewCategory(last, cs[|cs| - 1])];
    }
  }

  lemma {:induction false} CategoryRowsBelow(first: nat, cs: seq<CategoryInput>, k: nat)
    requires k in CategoryRows(first, cs)
    ensures k < first + |cs|
    decreases |cs|
  {
    var init := cs[..|cs| - 1];
    if k != first + |cs| - 1 {
      CategoryRowsBelow(first, init, k);
    }
  }

  class ImageStore {
    var images: map<nat, ImageRecord>
    var categories: map<nat, Category>
    var tags: map<nat, Tag>
    /** The key generators of the three tables; clearing a table does not reset them. */
    var nextImageId: nat
    var nextCategoryId: nat
    var nextTagId: nat

    ghost predicate Valid()
      reads this
    {
      && 1 <= nextImageId && 1 <= nextCategoryId && 1 <= nextTagId
      && ImagesKeyed(images, nextImageId)
      && CategoriesKeyed(categories, nextCategoryId)
      && (forall k :: k in tags ==> 1 <= k < nextTagId && tags[k].id == k)
    }

    constructor ()
      ensures Valid()
      ensures images == map[] && categories == map[] && tags == map[]
      ensures nextImageId == 1 && nextCategoryId == 1 && nextTagId == 1
    {
      images, categories, tags := map[], map[], map[];
      nextImageId, nextCategoryId, nextTagId := 1, 1, 1;
    }

    /** Every stored image once, in primary-key order. */
    function ImageRows(): (rows: seq<ImageRecord>)
      reads this
      requires Valid()
      ensures forall i :: 0 <= i < |rows| ==> rows[i].id in images && images[rows[i].id] == rows[i]
      ensures IdsAscending(rows)
      ensures forall k :: k in images ==> images[k] in rows
    {
      var ks := KeysBetween(images, 0, nextImageId);
      KeysBetweenExact(images, 0, nextImageId);
      var rows := Rows(images, nextImageId);
      assert forall k :: k in images ==> images[k] in rows by {
        forall k | k in images ensures images[k] in rows {
          assert k in ks;
          var i :| 0 <= i < |ks| && ks[i] == k;
          assert rows[i] == images[k];
        }
      }
      rows
    }

    /** The stored images that pass `p`, in primary-key order. */
    function Where(p: ImageRecord -> bool): (r: seq<ImageRecord>)
      reads this
      requires Valid()
      ensures forall k :: k in images ==> (images[k] in r <==> p(images[k]))
      ensures forall x :: x in r ==> x.id in images && images[x.id] == x && p(x)
      ensures IdsAscending(r)
    {
      var rows := ImageRows();
      var r := Lists.Filter(rows, p);
      Sorting.FilterSorted(rows, p, (a: ImageRecord, b: ImageRecord) => a.id < b.id);
      assert forall x :: x in r ==> x.id in images && images[x.id] == x by {
        forall x | x in r ensures x.id in images && images[x.id] == x {
          var i :| 0 <= i < |rows| && rows[i] == x;
        }
      }
      r
    }

    /** getImage(id): the row, or nothing when the key is not stored. */
    function GetImage(id: nat): (r: Option<ImageRecord>)
      reads this
      requires Valid()
      ensures r.Some? <==> id in images
      ensures r.Some? ==> r.value == images[id] && r.value.id == id
    {
      if id in images then Some(images[id]) else None
    }

    /** getImagesByCategory(c): exactly the images filed under `c`; empty when there are none. */
    function GetImagesByCategory(category: string): (r: seq<ImageRecord>)
      reads this
      requires Valid()
      ensures forall k :: k in images ==> (images[k] in r <==> images[k].category == category)
      ensures forall x :: x in r ==> x.id in images && images[x.id] == x && x.category == category
      ensures IdsAscending(r)
    {
      Where((x: ImageRecord) => x.category == category)
    }

    /** getImagesByRecordId(id): exactly the images attached to that investment record. */
    function GetImagesByRecordId(recordId: int): (r: seq<ImageRecord>)
      reads this
      requires Valid()
      ensures forall k :: k in images ==> (images[k] in r <==> images[k].recordId == Some(recordId))
      ensures forall x :: x in r ==> x.id in images && images[x.id] == x && x.recordId == Some(recordId)
      ensures IdsAscending(r)
    {
      Where((x: ImageRecord) => x.recordId == Some(recordId))
    }

    /** getImagesByTag(t) as written: `where('tags').anyOf([t])` over the plain `tags` index,
        which files each row under its whole tag array and so never under the string `t`. */
    function GetImagesByTagAsWritten(tag: string): (r: seq<ImageRecord>)
      reads this
      requires Valid()
      ensures r == []
    {
      var p := (x: ImageRecord) => TagsIndexKey(x) == StringKey(tag);
      Lists.FilterNone(ImageRows(), p);
      Where(p)
    }

    /** getImagesByTag(t) as intended, over a multi-entry index: the images whose tags hold `t`. */
    function GetImagesByTag(tag: string): (r: seq<ImageRecord>)
      reads this
      requires Valid()
      ensures forall k :: k in images ==> (images[k] in r <==> tag in images[k].tags)
      ensures forall x :: x in r ==> x.id in images && images[x.id] == x && tag in x.tags
      ensures IdsAscending(r)
    {
      Where((x: ImageRecord) => tag in x.tags)
    }

    /** searchImages(q): the union of the three case-insensitive substring tests. */
    function SearchImages(query: string): (r: seq<ImageRecord>)
      reads this
      requires Valid()
      ensures forall k :: k in images ==>
        (images[k] in r <==>
          || Contains(Lower(images[k].originalName), Lower(query))
          || (exists i :: 0 <= i < |images[k].tags| && Contains(Lower(images[k].tags[i]), Lower(query)))
          || Contains(Lower(images[k].category), Lower(query)))
      ensures forall x :: x in r ==> x.id in images && images[x.id] == x
      ensures IdsAscending(r)
    {
      var lowerQuery := Lower(query);
      Where((x: ImageRecord) => MatchesQuery(x, lowerQuery))
    }

    /** getAllImages(): every stored image, latest upload first. */
    method GetAllImages() returns (r: seq<ImageRecord>)
      requires Valid()
      ensures multiset(r) == multiset(ImageRows())
      ensures forall k :: k in images ==> images[k] in r
      ensures forall x :: x in r ==> x.id in images && images[x.id] == x
      ensures forall i, j :: 0 <= i < j < |r| ==> r[i].uploadDate >= r[j].uploadDate
      ensures forall i, j :: 0 <= i < j < |r| && r[i].uploadDate == r[j].uploadDate ==> r[i].id >= r[j].id
    {
      var rows := ImageRows();
      NewerOrSamePreorder();
      r := Sorting.SortBy(rows, NewerOrSame);
      SameMembers(rows, r);
      NewestFirst(r);
    }

    /** getAllCategories(): every stored category once, in primary-key order. */
    function GetAllCategories(): (r: seq<Category>)
      reads this
      requires Valid()
      ensures forall i :: 0 <= i < |r| ==> r[i].id in categories && categories[r[i].id] == r[i]
      ensures forall i, j :: 0 <= i < j < |r| ==> r[i].id < r[j].id
      ensures forall k :: k in categories ==> categories[k] in r
      ensures |r| == 0 <==> categories == map[]
    {
      RowsExact(categories, nextCategoryId);
      Rows(categories, nextCategoryId)
    }

    /** getAllTags(): every stored tag once, in primary-key order. */
    function GetAllTags(): (r: seq<Tag>)
      reads this
      requires Valid()
      ensures forall i :: 0 <= i < |r| ==> r[i].id in tags && tags[r[i].id] == r[i]
      ensures forall i, j :: 0 <= i < j < |r| ==> r[i].id < r[j].id
      ensures forall k :: k in tags ==> tags[k] in r
      ensures |r| == 0 <==> tags == map[]
    {
      RowsExact(tags, nextTagId);
      Rows(tags, nextTagId)
    }

    /** `tags.get(id)` */
    function GetTag(id: nat): (r: Option<Tag>)
      reads this
      requires Valid()
      ensures r.Some? <==> id in tags
      ensures r.Some? ==> r.value == tags[id] && r.value.id == id
    {
      if id in tags then Some(tags[id]) else None
    }

    /** getDatabaseStats(): counts of the three tables, the total of the image sizes (a missing
        size counts 0) and their mean rounded half up (`Math.round`), 0 for an empty table. */
    function GetDatabaseStats(): (s: DatabaseStats)
      reads this
      requires Valid()
      ensures s.totalImages == |images| && s.totalCategories == |categories| && s.totalTags == |tags|
      ensures s.totalSize == Lists.Sum(ImageRows(), SizeOf) && s.totalSize >= 0
      ensures s.totalImages == 0 ==> s.averageSize == 0
      ensures s.totalImages > 0 ==> RoundedMean(s.averageSize, s.totalSize, s.totalImages)
    {
      var n := |images|;
      var total := Lists.Sum(ImageRows(), SizeOf);
      SumSizesNonNegative(ImageRows());
      var avg := if n > 0 then RoundDiv(total, n) else 0;
      DatabaseStats(n, total, |categories|, |tags|, avg)
    }

    /** saveImage(d): a fresh key, the defaulted row under it, nothing else touched. */
    method SaveImage(d: ImageInput, now: int) returns (id: nat)
      requires Valid()
      modifies this
      ensures Valid()
      ensures id == old(nextImageId) && id !in old(images) && nextImageId == id + 1
      ensures images == old(images)[id := ToRecord(id, d, now)]
      ensures categories == old(categories) && tags == old(tags)
      ensures nextCategoryId == old(nextCategoryId) && nextTagId == old(nextTagId)
    {
      id := nextImageId;
      images := images[id := ToRecord(id, d, now)];
      nextImageId := nextImageId + 1;
    }

    /** saveMultipleImages(ds): one fresh key per input, in input order, each with its defaulted
        row; the keys are returned in the same order. */
    method SaveMultipleImages(batch: seq<ImageInput>, now: int) returns (ids: seq<nat>)
      requires Valid()
      modifies this
      ensures Valid()
      ensures |ids| == |batch| && nextImageId == old(nextImageId) + |batch|
      ensures forall i :: 0 <= i < |batch| ==> ids[i] == old(nextImageId) + i
      ensures forall i :: 0 <= i < |batch| ==> ids[i] in images && images[ids[i]] == ToRecord(ids[i], batch[i], now)
      ensures images == old(images) + BatchRows(old(nextImageId), batch, now)
      ensures categories == old(categories) && tags == old(tags)
      ensures nextCategoryId == old(nextCategoryId) && nextTagId == old(nextTagId)
    {
      var first := nextImageId;
      BatchKeyed(images, first, batch, now);
      images := images + BatchRows(first, batch, now);
      nextImageId := first + |batch|;
      ids := seq(|batch|, i requires 0 <= i < |batch| => first + i);
      forall i | 0 <= i < |batch|
        ensures ids[i] in images && images[ids[i]] == ToRecord(ids[i], batch[i], now)
      {
        BatchRowsAt(first, batch, now, i);
        assert ids[i] == first + i;
      }
    }

    /** saveMultipleImages(ds) as written: `bulkAdd` without `{allKeys: true}` hands back only
        the key of the last new row, and nothing for an empty batch; the rows are the same. */
    method SaveMultipleImagesAsWritten(batch: seq<ImageInput>, now: int) returns (lastKey: Option<nat>)
      requires Valid()
      modifies this
      ensures Valid()
      ensures lastKey == if batch == [] then None else Some(old(nextImageId) + |batch| - 1)
      ensures nextImageId == old(nextImageId) + |batch|
      ensures images == old(images) + BatchRows(old(nextImageId), batch, now)
      ensures categories == old(categories) && tags == old(tags)
      ensures nextCategoryId == old(nextCategoryId) && nextTagId == old(nextTagId)
    {
      var ids := SaveMultipleImages(batch, now);
      lastKey := if |ids| == 0 then None else Some(ids[|ids| - 1]);
    }

    /** updateImage(id, patch): 1 and the patched row when the key is stored, 0 and no change
        otherwise. */
    method UpdateImage(id: nat, patch: ImagePatch) returns (updated: nat)
      requires Valid()
      modifies this
      ensures Valid()
      ensures updated == if id in old(images) then 1 else 0
      ensures images == if id in old(images) then old(images)[id := ApplyPatch(old(images)[id], patch)] else old(images)
      ensures categories == old(categories) && tags == old(tags)
      ensures nextImageId == old(nextImageId) && nextCategoryId == old(nextCategoryId) && nextTagId == old(nextTagId)
    {
      if id in images {
        images := images[id := ApplyPatch(images[id], patch)];
        updated := 1;
      } else {
        updated := 0;
      }
    }

    /** deleteImage(id): the key is gone; a missing key is no error. */
    method DeleteImage(id: nat)
      requires Valid()
      modifies this
      ensures Valid()
      ensures images == old(images) - {id}
      ensures categories == old(categories) && tags == old(tags)
      ensures nextImageId == old(nextImageId) && nextCategoryId == old(nextCategoryId) && nextTagId == old(nextTagId)
    {
      images := images - {id};
    }

    /** deleteMultipleImages(ids): exactly the listed keys are gone; missing ones are skipped. */
    method DeleteMultipleImages(ids: seq<nat>)
      requires Valid()
      modifies this
      ensures Valid()
      ensures images == old(images) - (set k | k in ids)
      ensures categories == old(categories) && tags == old(tags)
      ensures nextImageId == old(nextImageId) && nextCategoryId == old(nextCategoryId) && nextTagId == old(nextTagId)
    {
      images := images - (set k | k in ids);
    }

    /** saveCategory(c): stored as given under a fresh key. */
    method SaveCategory(c: CategoryInput) returns (id: nat)
      requires Valid()
      modifies this
      ensures Valid()
      ensures id == old(nextCategoryId) && id !in old(categories) && nextCategoryId == id + 1
      ensures categories == old(categories)[id := NewCategory(id, c)]
      ensures images == old(images) && tags == old(tags)
      ensures nextImageId == old(nextImageId) && nextTagId == old(nextTagId)
    {
      id := nextCategoryId;
      categories := categories[id := NewCategory(id, c)];
      nextCategoryId := nextCategoryId + 1;
    }

    /** saveTag(t): stored as given under a fresh key. */
    method SaveTag(t: TagInput) returns (id: nat)
      requires Valid()
      modifies this
      ensures Valid()
      ensures id == old(nextTagId) && id !in old(tags) && nextTagId == id + 1
      ensures tags == old(tags)[id := Tag(id, t.name, t.color)]
      ensures images == old(images) && categories == old(categories)
      ensures nextImageId == old(nextImageId) && nextCategoryId == old(nextCategoryId)
    {
      id := nextTagId;
      tags := tags[id := Tag(id, t.name, t.color)];
      nextTagId := nextTagId + 1;
    }

    /** clearDatabase(): all three tables empty. */
    method ClearDatabase()
      requires Valid()
      modifies this
      ensures Valid()
      ensures images == map[] && categories == map[] && tags == map[]
      ensures nextImageId == old(nextImageId) && nextCategoryId == old(nextCategoryId) && nextTagId == old(nextTagId)
    {
      images, categories, tags := map[], map[], map[];
    }

    /** initializeDefaultCategories(): the five defaults, in order, when the category table is
        empty; otherwise nothing. */
    method InitializeDefaultCategories()
      requires Valid()
      modifies this
      ensures Valid()
      ensures old(categories) != map[] ==> categories == old(categories) && nextCategoryId == old(nextCategoryId)
      ensures old(categories) == map[] ==>
        && categories == CategoryRows(old(nextCategoryId), DefaultCategories)
        && |categories| == 5
        && nextCategoryId == old(nextCategoryId) + 5
      ensures images == old(images) && tags == old(tags)
      ensures nextImageId == old(nextImageId) && nextTagId == old(nextTagId)
    {
      var existing := GetAllCategories();
      if existing == [] {
        var first := nextCategoryId;
        CategoryRowsKeyed(categories, first, DefaultCategories);
        CategoryRowsSize(first, DefaultCategories);
        assert categories + CategoryRows(first, DefaultCategories) == CategoryRows(first, DefaultCategories);
        categories := categories + CategoryRows(first, DefaultCategories);
        nextCategoryId := first + |DefaultCategories|;
      }
    }
  }

  /** `avg` is `total / n` rounded to the nearest integer, halves up. */
  predicate RoundedMean(avg: int, total: int, n: nat)
  {
    2 * n * avg <= 2 * total + n < 2 * n * (avg + 1)
  }

  /** `Math.round(total / n)` for `n > 0`. */
  function RoundDiv(total: int, n: nat): (avg: int)
    requires n > 0
    ensures RoundedMean(avg, total, n)
  {
    var d := 2 * n;
    var avg := (2 * total + n) / d;
    var rem := (2 * total + n) % d;
    assert 2 * total + n == d * avg + rem;
    assert 0 <= rem < d;
    avg
  }

  /** Seeding twice from an empty store leaves exactly the five defaults. */
  method SeedTwice(db: ImageStore)
    requires db.Valid() && db.categories == map[]
    modifies db
    ensures db.Valid() && |db.categories| == 5
  {
    db.InitializeDefaultCategories();
    db.InitializeDefaultCategories();
  }

  /** A saved image reads back with the caller's dimensions, size and type. */
  method SaveThenGet(db: ImageStore, d: ImageInput, now: int) returns (r: Option<ImageRecord>)
    requires db.Valid()
    modifies db
    ensures r.Some? && r.value.width == d.width && r.value.height == d.height
    ensures r.value.fileSize == d.fileSize && r.value.mimeType == d.mimeType && r.value.uploadDate == now
  {
    var id := db.SaveImage(d, now);
    r := db.GetImage(id);
  }

  /** An empty query finds every stored image. */
  lemma SearchEmptyFindsAll(db: ImageStore)
    requires db.Valid()
    ensures forall k :: k in db.images ==> db.images[k] in db.SearchImages("")
  {
    forall k | k in db.images ensures db.images[k] in db.SearchImages("") {
      ContainsEmpty(Lower(db.images[k].originalName));
    }
  }

  /** The search is broad: an image whose tag equals the query is found whatever its name and
      category. */
  lemma SearchFindsTag(db: ImageStore, k: nat, i: nat)
    requires db.Valid() && k in db.images && i < |db.images[k].tags|
    ensures db.images[k] in db.SearchImages(db.images[k].tags[i])
  {
    ContainsSelf(Lower(db.images[k].tags[i]));
  }

  /** The search ignores the case of the query. */
  lemma SearchIgnoresQueryCase(db: ImageStore, query: string)
    requires db.Valid()
    ensures db.SearchImages(Lower(query)) == db.SearchImages(query)
  {
    LowerIdempotent(query);
  }

  /** As written, the tag lookup finds nothing even when a stored image carries the tag, where
      the intended lookup finds it. */
  lemma TagLookupFindsNothingAsWritten(db: ImageStore, k: nat, tag: string)
    requires db.Valid() && k in db.images && tag in db.images[k].tags
    ensures db.GetImagesByTagAsWritten(tag) == []
    ensures db.images[k] in db.GetImagesByTag(tag)
  {
  }
}
