/**
 * The browse logic of the image library view: the search, category and tag filters applied one
 * after another, the keyed sort, the selection toggles and the guarded bulk delete.
 */
module ImageLibrary {
  import opened Text
  import Lists
  import Sorting
  import ImageDatabase

  type ImageRecord = ImageDatabase.ImageRecord

  /** The value of the category and tag pickers that switches their filter off. */
  const All: string := "all"

  datatype SortField = UploadDate | FileName | FileSize | CategoryName
  datatype SortOrder = Asc | Desc

  predicate PassesSearch(img: ImageRecord, query: string)
  {
    query == "" || ImageDatabase.MatchesQuery(img, Lower(query))
  }

  predicate PassesCategory(img: ImageRecord, category: string)
  {
    category == All || img.category == category
  }

  predicate PassesTag(img: ImageRecord, tag: string)
  {
    tag == All || tag in img.tags
  }

  /** An image stays in the view iff it passes all three filters. */
  predicate Keep(img: ImageRecord, query: string, category: string, tag: string)
  {
    PassesSearch(img, query) && PassesCategory(img, category) && PassesTag(img, tag)
  }

  function KeepFn(query: string, category: string, tag: string): ImageRecord -> bool
  {
    (img: ImageRecord) => Keep(img, query, category, tag)
  }

  function SearchFn(lowerQuery: string): ImageRecord -> bool
  {
    (img: ImageRecord) => ImageDatabase.MatchesQuery(img, lowerQuery)
  }

  function CategoryFn(category: string): ImageRecord -> bool
  {
    (img: ImageRecord) => img.category == category
  }

  function TagFn(tag: string): ImageRecord -> bool
  {
    (img: ImageRecord) => tag in img.tags
  }

  /** One filter step that runs only when its picker is set. */
  function Narrow(s: seq<ImageRecord>, p: ImageRecord -> bool, active: bool): seq<ImageRecord>
  {
    if active then Lists.Filter(s, p) else s
  }

  /** The three filter steps of the view, in the order the view applies them. */
  function Steps(s: seq<ImageRecord>, query: string, category: string, tag: string): seq<ImageRecord>
  {
    Narrow(Narrow(Narrow(s, SearchFn(Lower(query)), query != ""), CategoryFn(category), category != All), TagFn(tag), tag != All)
  }

  lemma NarrowAppend(a: seq<ImageRecord>, b: seq<ImageRecord>, p: ImageRecord -> bool, active: bool)
    ensures Narrow(a + b, p, active) == Narrow(a, p, active) + Narrow(b, p, active)
  {
    if active { Lists.FilterAppend(a, b, p); }
  }

  lemma NarrowSingle(x: ImageRecord, p: ImageRecord -> bool, active: bool)
    ensures Narrow([x], p, active) == if !active || p(x) then [x] else []
  {
    if active { assert [x][1..] == []; }
  }

  lemma StepsAppend(a: seq<ImageRecord>, b: seq<ImageRecord>, query: string, category: string, tag: string)
    ensures Steps(a + b, query, category, tag) == Steps(a, query, category, tag) + Steps(b, query, category, tag)
  {
    var sp, cp, tp := SearchFn(Lower(query)), CategoryFn(category), TagFn(tag);
    var sa, ca, ta := query != "", category != All, tag != All;
    NarrowAppend(a, b, sp, sa);
    NarrowAppend(Narrow(a, sp, sa), Narrow(b, sp, sa), cp, ca);
    NarrowAppend(Narrow(Narrow(a, sp, sa), cp, ca), Narrow(Narrow(b, sp, sa), cp, ca), tp, ta);
  }

  lemma StepsSingle(x: ImageRecord, query: string, category: string, tag: string)
    ensures Steps([x], query, category, tag) == if Keep(x, query, category, tag) then [x] else []
  {
    var sp, cp, tp := SearchFn(Lower(query)), CategoryFn(category), TagFn(tag);
    var sa, ca, ta := query != "", category != All, tag != All;
    NarrowSingle(x, sp, sa);
    var x1 := Narrow([x], sp, sa);
    if x1 != [] {
      NarrowSingle(x, cp, ca);
      var x2 := Narrow(x1, cp, ca);
      if x2 != [] {
        NarrowSingle(x, tp, ta);
      } else {
        assert Lists.Filter(x2, tp) == [];
      }
    } else {
      assert Lists.Filter(x1, cp) == [];
      assert Lists.Filter(x1, tp) == [];
    }
  }

  /** The step-by-step filtering keeps exactly the images that pass all three filters, in
      their original order. */
  lemma {:induction false} StepsKeep(s: seq<ImageRecord>, query: string, category: string, tag: string)
    ensures Steps(s, query, category, tag) == Lists.Filter(s, KeepFn(query, category, tag))
  {
    if s != [] {
      var x, rest := s[0], s[1..];
      assert s == [x] + rest;
      StepsKeep(rest, query, category, tag);
      StepsAppend([x], rest, query, category, tag);
      StepsSingle(x, query, category, tag);
    }
  }

  /** The sort key of a field: dates and sizes compare as numbers (a missing size as 0), names
      and categories as lower-cased strings. */
  predicate Precedes(field: SortField, order: SortOrder, a: ImageRecord, b: ImageRecord)
  {
    var (x, y) := if order == Asc then (a, b) else (b, a);
    match field
    case UploadDate => x.uploadDate <= y.uploadDate
    case FileSize => x.fileSize.GetOr(0) <= y.fileSize.GetOr(0)
    case FileName => Sorting.LexLe(Lower(x.originalName), Lower(y.originalName))
    case CategoryName => Sorting.LexLe(Lower(x.category), Lower(y.category))
  }

  function Order(field: SortField, order: SortOrder): (ImageRecord, ImageRecord) -> bool
  {
    (a, b) => Precedes(field, order, a, b)
  }

  lemma OrderIsPreorder(field: SortField, order: SortOrder)
    ensures Sorting.TotalPreorder(Order(field, order))
  {
    forall a: string, b: string ensures Sorting.LexLe(a, b) || Sorting.LexLe(b, a) {
      Sorting.LexLeTotal(a, b);
    }
    forall a: string, b: string, c: string | Sorting.LexLe(a, b) && Sorting.LexLe(b, c)
      ensures Sorting.LexLe(a, c)
    {
      Sorting.LexLeTransitive(a, b, c);
    }
  }

  /** The filter-and-sort effect: the kept images, in some order sorted by the chosen key and
      direction. */
  method FilterAndSort(images: seq<ImageRecord>, query: string, category: string, tag: string,
                       field: SortField, order: SortOrder) returns (view: seq<ImageRecord>)
    ensures multiset(view) == multiset(Lists.Filter(images, KeepFn(query, category, tag)))
    ensures forall x :: x in view <==> x in images && Keep(x, query, category, tag)
    ensures Sorting.SortedBy(view, Order(field, order))
  {
    var filtered := images;
    if query != "" {
      var lowerQuery := Lower(query);
      filtered := Lists.Filter(filtered, SearchFn(lowerQuery));
    }
    if category != All {
      filtered := Lists.Filter(filtered, CategoryFn(category));
    }
    if tag != All {
      filtered := Lists.Filter(filtered, TagFn(tag));
    }
    StepsKeep(images, query, category, tag);
    assert filtered == Lists.Filter(images, KeepFn(query, category, tag));
    OrderIsPreorder(field, order);
    view := Sorting.SortBy(filtered, Order(field, order));
    forall x ensures x in view <==> x in filtered {
      assert x in view <==> x in multiset(view);
      assert x in filtered <==> x in multiset(filtered);
    }
  }

  /** toggleSelectAll: clear a selection as long as the view, otherwise select the whole view
      in view order. */
  function ToggleSelectAll(selected: seq<nat>, view: seq<ImageRecord>): (r: seq<nat>)
    ensures |selected| == |view| ==> r == []
    ensures |selected| != |view| ==> |r| == |view| && forall i :: 0 <= i < |view| ==> r[i] == view[i].id
  {
    if |selected| == |view| then [] else seq(|view|, i requires 0 <= i < |view| => view[i].id)
  }

  /** From a partial selection, select-all selects every image in view; pressing it again
      clears the selection. */
  lemma SelectAllThenClear(selected: seq<nat>, view: seq<ImageRecord>)
    requires |selected| != |view|
    ensures forall x :: x in view ==> x.id in ToggleSelectAll(selected, view)
    ensures ToggleSelectAll(ToggleSelectAll(selected, view), view) == []
  {
    var r := ToggleSelectAll(selected, view);
    forall x | x in view ensures x.id in r {
      var i :| 0 <= i < |view| && view[i] == x;
      assert r[i] == x.id;
    }
  }

  /** `r` is what loadData's getAllImages() reads from `db`: every stored row once, the newest
      upload first and, on the same date, the larger key first. */
  ghost predicate Reloaded(db: ImageDatabase.ImageStore, r: seq<ImageRecord>)
    reads db
    requires db.Valid()
  {
    && multiset(r) == multiset(db.ImageRows())
    && (forall i, j :: 0 <= i < j < |r| ==> r[i].uploadDate >= r[j].uploadDate)
    && (forall i, j :: 0 <= i < j < |r| && r[i].uploadDate == r[j].uploadDate ==> r[i].id >= r[j].id)
  }

  /** deleteSelectedImages: nothing without a selection or without the user's confirmation;
      otherwise the selected rows are deleted, the images reloaded and the selection cleared. */
  method DeleteSelectedImages(db: ImageDatabase.ImageStore, selected: seq<nat>, images: seq<ImageRecord>, confirmed: bool)
    returns (newSelected: seq<nat>, newImages: seq<ImageRecord>)
    requires db.Valid()
    modifies db
    ensures db.Valid()
    ensures (selected == [] || !confirmed) ==>
      db.images == old(db.images) && newSelected == selected && newImages == images
    ensures selected != [] && confirmed ==>
      && db.images == old(db.images) - (set k | k in selected)
      && newSelected == []
      && Reloaded(db, newImages)
      && (forall x :: x in newImages <==> x in db.images.Values)
    ensures db.categories == old(db.categories) && db.tags == old(db.tags)
  {
    newSelected, newImages := selected, images;
    if |selected| == 0 {
      return;
    }
    if confirmed {
      db.DeleteMultipleImages(selected);
      newImages := db.GetAllImages();
      forall x | x in db.images.Values ensures x in newImages {
        var k :| k in db.images && db.images[k] == x;
      }
      newSelected := [];
    }
  }

  /** deleteImage(id): with the user's confirmation the row is deleted and the images are
      reloaded; without it nothing changes. */
  method DeleteImage(db: ImageDatabase.ImageStore, id: nat, images: seq<ImageRecord>, confirmed: bool)
    returns (newImages: seq<ImageRecord>)
    requires db.Valid()
    modifies db
    ensures db.Valid()
    ensures !confirmed ==> db.images == old(db.images) && newImages == images
    ensures confirmed ==>
      && db.images == old(db.images) - {id}
      && Reloaded(db, newImages)
      && (forall x :: x in newImages <==> x in db.images.Values)
    ensures db.categories == old(db.categories) && db.tags == old(db.tags)
  {
    newImages := images;
    if confirmed {
      db.DeleteImage(id);
      newImages := db.GetAllImages();
      forall x | x in db.images.Values ensures x in newImages {
        var k :| k in db.images && db.images[k] == x;
      }
    }
  }
}
