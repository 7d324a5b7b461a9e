/**
 * The upload panel: a drop of files is validated, processed, decorated with the picked
 * category, tags and record, saved and appended to the panel's list; plus the tag picker, the
 * add-tag guard and the bulk delete of selected uploads.
 */
module ImageUpload {
  import opened Wrappers
  import opened Text
  import Lists
  import ImageDatabase
  import ImageUtils

  type ImageRecord = ImageDatabase.ImageRecord

  const UploadErrorPrefix: string := "アップロードエラー: "

  /** The TypeError message V8 gives for `savedIds.map(...)` when `savedIds` is a number. */
  const NotAFunctionMessage: string := "savedIds.map is not a function"

  /** The TypeError message V8 gives for `savedIds.map(...)` when `savedIds` is undefined. */
  const UndefinedMapMessage: string := "Cannot read properties of undefined (reading 'map')"

  /** `{...result, category, tags, recordId}`: a processed image with the panel's choices. */
  function Decorate(p: ImageUtils.ProcessedImage, category: string, tags: seq<string>, recordId: Option<int>): (d: ImageDatabase.ImageInput)
    ensures d.category == category && d.tags == Some(tags) && d.recordId == recordId
    ensures d.originalName == p.originalName && d.fileName == p.fileName
    ensures d.fileSize == Some(p.fileSize) && d.mimeType == p.mimeType
    ensures d.width == p.width && d.height == p.height
  {
    ImageDatabase.ImageInput(
      p.fileName, p.originalName, Some(p.fileSize), p.mimeType, category, Some(tags), recordId,
      p.compressed, p.thumbnail, p.width, p.height)
  }

  function DecorateAll(results: seq<ImageUtils.ProcessedImage>, category: string, tags: seq<string>, recordId: Option<int>): (r: seq<ImageDatabase.ImageInput>)
    ensures |r| == |results|
    ensures forall i :: 0 <= i < |results| ==> r[i] == Decorate(results[i], category, tags, recordId)
  {
    seq(|results|, i requires 0 <= i < |results| => Decorate(results[i], category, tags, recordId))
  }

  /** The rows onDrop appends to the list: the stored row of each input, read back by its key. */
  function AppendedRows(first: nat, batch: seq<ImageDatabase.ImageInput>, now: int): (rows: seq<ImageRecord>)
    ensures |rows| == |batch|
    ensures forall i :: 0 <= i < |batch| ==> rows[i] == ImageDatabase.ToRecord(first + i, batch[i], now)
  {
    seq(|batch|, i requires 0 <= i < |batch| => ImageDatabase.ToRecord(first + i, batch[i], now))
  }

  /** The list shows exactly what the bulk insert stored: the i-th appended row is the row filed
      under the i-th new key. */
  lemma AppendedRowsAreStored(first: nat, batch: seq<ImageDatabase.ImageInput>, now: int, i: nat)
    requires i < |batch|
    ensures first + i in ImageDatabase.BatchRows(first, batch, now)
    ensures AppendedRows(first, batch, now)[i] == ImageDatabase.BatchRows(first, batch, now)[first + i]
  {
    ImageDatabase.BatchRowsAt(first, batch, now, i);
  }

  /** The messages shown for a rejected batch: the batch error, then each file's own. */
  function ValidationMessages(v: ImageUtils.BatchValidation): (r: seq<string>)
    requires !v.BatchAccepted?
    ensures |r| >= 1 && r[0] == v.error
    ensures v.TooMany? ==> r == [v.error]
    ensures v.SomeInvalid? ==>
      && |r| == 1 + |v.invalidFiles|
      && forall j :: 0 <= j < |v.invalidFiles| ==> r[j + 1] == v.invalidFiles[j].error
  {
    if v.TooMany? then [v.error]
    else [v.error] + seq(|v.invalidFiles|, j requires 0 <= j < |v.invalidFiles| => v.invalidFiles[j].error)
  }

  /** `${file}: ${error}` for each failed file, in order. */
  function ProcessMessages(errors: seq<ImageUtils.ProcessError>): (r: seq<string>)
    ensures |r| == |errors|
    ensures forall j :: 0 <= j < |errors| ==> r[j] == errors[j].file + ": " + errors[j].error
  {
    seq(|errors|, j requires 0 <= j < |errors| => errors[j].file + ": " + errors[j].error)
  }

  /** `tags.some(tag => tag.name === name)` */
  predicate HasTagNamed(tags: seq<ImageDatabase.Tag>, name: string)
  {
    exists i :: 0 <= i < |tags| && tags[i].name == name
  }

  predicate NamesDistinct(tags: seq<ImageDatabase.Tag>)
  {
    forall i, j :: 0 <= i < j < |tags| ==> tags[i].name != tags[j].name
  }

  /** Once the panel has loaded the tags, every stored tag name counts as taken by the add-tag
      guard. */
  lemma StoredTagIsLoaded(db: ImageDatabase.ImageStore, k: nat)
    requires db.Valid() && k in db.tags
    ensures HasTagNamed(db.GetAllTags(), db.tags[k].name)
  {
    var r := db.GetAllTags();
    assert db.tags[k] in r;
    var i :| 0 <= i < |r| && r[i] == db.tags[k];
  }

  /** The colour of a new tag: `#` and `Math.floor(Math.random() * 16777215)` in hexadecimal. */
  function TagColor(randomValue: nat): (c: string)
    ensures |c| >= 2 && c[0] == '#'
    ensures forall i :: 1 <= i < |c| ==> IsHexDigit(c[i])
    ensures ParseDigits(c[1..], 16) == randomValue
  {
    NatToStringDigits(randomValue, 16);
    ParseNatToString(randomValue, 16);
    assert ("#" + NatToString(randomValue, 16))[1..] == NatToString(randomValue, 16);
    "#" + NatToString(randomValue, 16)
  }

  class UploadPanel {
    var uploaded: seq<ImageRecord>
    var errors: seq<string>
    var selectedImages: seq<nat>
    var categories: seq<ImageDatabase.Category>
    var tags: seq<ImageDatabase.Tag>
    var selectedCategory: string
    var selectedTags: seq<string>
    var newTag: string
    /** The record the uploads are attached to; `null` when the panel stands alone. */
    const recordId: Option<int>
    const maxFiles: nat

    /** The panel as it mounts: empty state, then the stored categories and tags loaded by the
        initialiser that runs on the first render. */
    constructor (db: ImageDatabase.ImageStore, recordId: Option<int>, maxFiles: nat)
      requires db.Valid()
      ensures this.recordId == recordId && this.maxFiles == maxFiles
      ensures uploaded == [] && errors == [] && selectedImages == []
      ensures categories == db.GetAllCategories() && tags == db.GetAllTags()
      ensures selectedCategory == ImageDatabase.Uncategorized && selectedTags == [] && newTag == ""
    {
      this.recordId := recordId;
      this.maxFiles := maxFiles;
      uploaded, errors, selectedImages, categories, tags := [], [], [], [], [];
      selectedCategory, selectedTags, newTag := ImageDatabase.Uncategorized, [], "";
      new;
      LoadCategoriesAndTags(db);
    }

    /** loadCategoriesAndTags: both tables are read back, in key order, into the panel. */
    method LoadCategoriesAndTags(db: ImageDatabase.ImageStore)
      requires db.Valid()
      modifies this
      ensures categories == db.GetAllCategories() && tags == db.GetAllTags()
      ensures uploaded == old(uploaded) && errors == old(errors) && selectedImages == old(selectedImages)
      ensures selectedCategory == old(selectedCategory) && selectedTags == old(selectedTags) && newTag == old(newTag)
    {
      categories := db.GetAllCategories();
      tags := db.GetAllTags();
    }

    /** onDrop as intended, with the store returning every new key: a rejected batch shows its
        messages and touches nothing; otherwise every processed image is saved with the panel's
        choices and appended to the list, and the failed files are reported. */
    method OnDrop(db: ImageDatabase.ImageStore, files: seq<ImageUtils.FileInfo>,
                  transcode: (nat, ImageUtils.FileInfo) -> ImageUtils.Transcoding, now: int)
      requires db.Valid()
      modifies this, db
      ensures db.Valid()
      ensures selectedImages == old(selectedImages) && tags == old(tags) && newTag == old(newTag)
      ensures categories == old(categories)
      ensures selectedCategory == old(selectedCategory) && selectedTags == old(selectedTags)
      ensures |files| > maxFiles || ImageUtils.InvalidFiles(files) != [] ==>
        && db.images == old(db.images) && db.nextImageId == old(db.nextImageId)
        && uploaded == old(uploaded)
      ensures |files| > maxFiles ==> errors == [ImageUtils.TooManyMessage(maxFiles)]
      ensures |files| <= maxFiles && ImageUtils.InvalidFiles(files) != [] ==>
        errors == ValidationMessages(ImageUtils.SomeInvalid(ImageUtils.SomeInvalidMessage, ImageUtils.InvalidFiles(files)))
      ensures |files| <= maxFiles && ImageUtils.InvalidFiles(files) == [] ==>
        var outcomes := ImageUtils.Outcomes(files, transcode);
        var batch := DecorateAll(ImageUtils.Successes(outcomes), old(selectedCategory), old(selectedTags), recordId);
        && errors == ProcessMessages(ImageUtils.Errors(files, outcomes))
        && db.nextImageId == old(db.nextImageId) + |batch|
        && db.images == old(db.images) + ImageDatabase.BatchRows(old(db.nextImageId), batch, now)
        && uploaded == old(uploaded) + AppendedRows(old(db.nextImageId), batch, now)
      ensures db.categories == old(db.categories) && db.tags == old(db.tags)
    {
      errors := [];
      var validation := ImageUtils.ValidateMultipleFiles(files, maxFiles);
      if !validation.BatchAccepted? {
        errors := ValidationMessages(validation);
        return;
      }
      var results, processErrors, progress := ImageUtils.ProcessMultipleImages(files, transcode);
      if |processErrors| > 0 {
        errors := ProcessMessages(processErrors);
      }
      var batch := DecorateAll(results, selectedCategory, selectedTags, recordId);
      SaveAndAppend(db, batch, now);
    }

    /** The tail of onDrop: save the decorated batch, read each new row back by its key and
        append the rows, in order, to the list. */
    method SaveAndAppend(db: ImageDatabase.ImageStore, batch: seq<ImageDatabase.ImageInput>, now: int)
      requires db.Valid()
      modifies this, db
      ensures db.Valid()
      ensures db.nextImageId == old(db.nextImageId) + |batch|
      ensures db.images == old(db.images) + ImageDatabase.BatchRows(old(db.nextImageId), batch, now)
      ensures uploaded == old(uploaded) + AppendedRows(old(db.nextImageId), batch, now)
      ensures errors == old(errors) && selectedImages == old(selectedImages) && tags == old(tags) && newTag == old(newTag)
      ensures categories == old(categories)
      ensures selectedCategory == old(selectedCategory) && selectedTags == old(selectedTags)
      ensures db.categories == old(db.categories) && db.tags == old(db.tags)
    {
      ghost var first := db.nextImageId;
      var savedIds := db.SaveMultipleImages(batch, now);
      var saved := ReadBack(db, savedIds);
      ghost var appended := AppendedRows(first, batch, now);
      assert forall j :: 0 <= j < |batch| ==> saved[j] == appended[j];
      assert saved == appended;
      uploaded := uploaded + saved;
    }

    /** `Promise.all(savedIds.map(id => imageDB.getImage(id)))`: the stored row of each key, in
        order. */
    method ReadBack(db: ImageDatabase.ImageStore, ids: seq<nat>) returns (rows: seq<ImageRecord>)
      requires db.Valid()
      requires forall j :: 0 <= j < |ids| ==> ids[j] in db.images
      ensures |rows| == |ids|
      ensures forall j :: 0 <= j < |ids| ==> rows[j] == db.images[ids[j]]
    {
      rows := [];
      var i := 0;
      while i < |ids|
        invariant 0 <= i <= |ids| && |rows| == i
        invariant forall j :: 0 <= j < i ==> rows[j] == db.images[ids[j]]
      {
        var image := db.GetImage(ids[i]);
        rows := rows + [image.value];
        i := i + 1;
      }
    }

    /** onDrop as written: the store hands back only the last new key (or nothing for an empty
        batch), so `savedIds.map` throws. The rows are saved, yet the list stays as it was and
        the only message is the upload error. */
    method OnDropAsWritten(db: ImageDatabase.ImageStore, files: seq<ImageUtils.FileInfo>,
                           transcode: (nat, ImageUtils.FileInfo) -> ImageUtils.Transcoding, now: int)
      requires db.Valid()
      modifies this, db
      ensures db.Valid()
      ensures uploaded == old(uploaded)
      ensures selectedImages == old(selectedImages) && tags == old(tags) && newTag == old(newTag)
      ensures categories == old(categories)
      ensures selectedCategory == old(selectedCategory) && selectedTags == old(selectedTags)
      ensures |files| > maxFiles || ImageUtils.InvalidFiles(files) != [] ==>
        db.images == old(db.images) && db.nextImageId == old(db.nextImageId)
      ensures |files| > maxFiles ==> errors == [ImageUtils.TooManyMessage(maxFiles)]
      ensures |files| <= maxFiles && ImageUtils.InvalidFiles(files) != [] ==>
        errors == ValidationMessages(ImageUtils.SomeInvalid(ImageUtils.SomeInvalidMessage, ImageUtils.InvalidFiles(files)))
      ensures |files| <= maxFiles && ImageUtils.InvalidFiles(files) == [] ==>
        var outcomes := ImageUtils.Outcomes(files, transcode);
        var batch := DecorateAll(ImageUtils.Successes(outcomes), old(selectedCategory), old(selectedTags), recordId);
        && errors == [UploadErrorPrefix + (if batch == [] then UndefinedMapMessage else NotAFunctionMessage)]
        && db.nextImageId == old(db.nextImageId) + |batch|
        && db.images == old(db.images) + ImageDatabase.BatchRows(old(db.nextImageId), batch, now)
      ensures db.categories == old(db.categories) && db.tags == old(db.tags)
    {
      errors := [];
      var validation := ImageUtils.ValidateMultipleFiles(files, maxFiles);
      if !validation.BatchAccepted? {
        errors := ValidationMessages(validation);
        return;
      }
      var results, processErrors, progress := ImageUtils.ProcessMultipleImages(files, transcode);
      if |processErrors| > 0 {
        errors := ProcessMessages(processErrors);
      }
      var batch := DecorateAll(results, selectedCategory, selectedTags, recordId);
      var lastKey := db.SaveMultipleImagesAsWritten(batch, now);
      // `lastKey` is a number, or undefined for an empty batch, not an array: the `.map` call
      // throws and the handler's catch replaces the messages.
      if lastKey.None? {
        errors := [UploadErrorPrefix + UndefinedMapMessage];
      } else {
        errors := [UploadErrorPrefix + NotAFunctionMessage];
      }
    }

    /** toggleImageSelection(id): the image is unselected if selected and selected otherwise. */
    method ToggleImageSelection(id: nat)
      modifies this
      ensures selectedImages == Lists.Toggle(old(selectedImages), id)
      ensures uploaded == old(uploaded) && errors == old(errors) && selectedTags == old(selectedTags)
      ensures categories == old(categories) && tags == old(tags) && newTag == old(newTag)
      ensures selectedCategory == old(selectedCategory)
    {
      selectedImages := Lists.Toggle(selectedImages, id);
    }

    /** toggleTagSelection(name) */
    method ToggleTagSelection(name: string)
      modifies this
      ensures selectedTags == Lists.Toggle(old(selectedTags), name)
      ensures uploaded == old(uploaded) && errors == old(errors) && selectedImages == old(selectedImages)
      ensures tags == old(tags) && newTag == old(newTag) && selectedCategory == old(selectedCategory)
      ensures categories == old(categories)
    {
      selectedTags := Lists.Toggle(selectedTags, name);
    }

    /** handleAddTag: a tag is saved only when the trimmed name is not blank and no loaded tag
        has exactly that name; it is stored trimmed, with a colour, and appended to the list. */
    method HandleAddTag(db: ImageDatabase.ImageStore, randomValue: nat)
      requires db.Valid()
      modifies this, db
      ensures db.Valid()
      ensures var name := Trim(old(newTag));
        if name != "" && !HasTagNamed(old(tags), name) then
          && tags == old(tags) + [ImageDatabase.Tag(old(db.nextTagId), name, TagColor(randomValue))]
          && db.tags == old(db.tags)[old(db.nextTagId) := ImageDatabase.Tag(old(db.nextTagId), name, TagColor(randomValue))]
          && newTag == ""
        else
          tags == old(tags) && db.tags == old(db.tags) && newTag == old(newTag)
      ensures NamesDistinct(old(tags)) ==> NamesDistinct(tags)
      ensures db.images == old(db.images) && db.categories == old(db.categories)
      ensures uploaded == old(uploaded) && selectedTags == old(selectedTags) && selectedImages == old(selectedImages)
      ensures categories == old(categories) && selectedCategory == old(selectedCategory)
    {
      var name := Trim(newTag);
      if name != "" && !HasTagNamed(tags, name) {
        var id := db.SaveTag(ImageDatabase.TagInput(name, TagColor(randomValue)));
        var stored := db.GetTag(id);
        tags := tags + [stored.value];
        newTag := "";
      }
    }

    /** handleDeleteImage(id): the row leaves the store and the list, the rest of the list
        keeps its order. */
    method HandleDeleteImage(db: ImageDatabase.ImageStore, id: nat)
      requires db.Valid()
      modifies this, db
      ensures db.Valid()
      ensures db.images == old(db.images) - {id}
      ensures uploaded == Lists.Filter(old(uploaded), Unselected([id]))
      ensures forall x :: x in uploaded <==> x in old(uploaded) && x.id != id
      ensures selectedImages == old(selectedImages) && tags == old(tags) && selectedTags == old(selectedTags)
      ensures categories == old(categories) && selectedCategory == old(selectedCategory)
      ensures newTag == old(newTag) && errors == old(errors)
      ensures db.categories == old(db.categories) && db.tags == old(db.tags)
    {
      db.DeleteImage(id);
      uploaded := Lists.Filter(uploaded, Unselected([id]));
    }

    /** handleDeleteSelected: the selected rows leave the store and the list, the rest of the
        list keeps its order, and the selection is cleared. */
    method HandleDeleteSelected(db: ImageDatabase.ImageStore)
      requires db.Valid()
      modifies this, db
      ensures db.Valid()
      ensures db.images == old(db.images) - (set k | k in old(selectedImages))
      ensures uploaded == Lists.Filter(old(uploaded), Unselected(old(selectedImages)))
      ensures forall x :: x in uploaded <==> x in old(uploaded) && x.id !in old(selectedImages)
      ensures selectedImages == []
      ensures tags == old(tags) && selectedTags == old(selectedTags) && newTag == old(newTag)
      ensures categories == old(categories) && selectedCategory == old(selectedCategory) && errors == old(errors)
      ensures db.categories == old(db.categories) && db.tags == old(db.tags)
    {
      db.DeleteMultipleImages(selectedImages);
      uploaded := Lists.Filter(uploaded, Unselected(selectedImages));
      selectedImages := [];
    }
  }

  function Unselected(selected: seq<nat>): ImageRecord -> bool
  {
    (img: ImageRecord) => img.id !in selected
  }

  /** The finding in one statement: from an empty panel, a valid drop of files that all process
      leaves the intended panel listing one image per file while the as-written panel lists
      none, though both stores hold the same new rows. */
  method CompareDrops(files: seq<ImageUtils.FileInfo>, transcode: (nat, ImageUtils.FileInfo) -> ImageUtils.Transcoding, now: int)
    returns (intended: seq<ImageRecord>, asWritten: seq<ImageRecord>)
    requires files != [] && |files| <= ImageUtils.DefaultMaxCount && ImageUtils.InvalidFiles(files) == []
    requires forall i :: 0 <= i < |files| ==> ImageUtils.ProcessImage(files[i], transcode(i, files[i])).Success?
    ensures |intended| == |files| && asWritten == []
  {
    var db1 := new ImageDatabase.ImageStore();
    var panel1 := new UploadPanel(db1, None, ImageUtils.DefaultMaxCount);
    panel1.OnDrop(db1, files, transcode, now);
    var db2 := new ImageDatabase.ImageStore();
    var panel2 := new UploadPanel(db2, None, ImageUtils.DefaultMaxCount);
    panel2.OnDropAsWritten(db2, files, transcode, now);
    AllSucceed(files, transcode);
    intended, asWritten := panel1.uploaded, panel2.uploaded;
  }

  /** When every file processes, every file yields a result. */
  lemma AllSucceed(files: seq<ImageUtils.FileInfo>, transcode: (nat, ImageUtils.FileInfo) -> ImageUtils.Transcoding)
    requires forall i :: 0 <= i < |files| ==> ImageUtils.ProcessImage(files[i], transcode(i, files[i])).Success?
    ensures |ImageUtils.Successes(ImageUtils.Outcomes(files, transcode))| == |files|
  {
    var outcomes := ImageUtils.Outcomes(files, transcode);
    SuccessesOfAllSuccess(outcomes);
  }

  lemma {:induction false} SuccessesOfAllSuccess(outcomes: seq<Result<ImageUtils.ProcessedImage, string>>)
    requires forall i :: 0 <= i < |outcomes| ==> outcomes[i].Success?
    ensures |ImageUtils.Successes(outcomes)| == |outcomes|
  {
    if outcomes != [] {
      SuccessesOfAllSuccess(outcomes[..|outcomes| - 1]);
    }
  }
}
