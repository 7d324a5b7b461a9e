/**
 * File validation, the sequential batch pipeline and the aspect-preserving dimension rule of
 * the image utilities. Decoding, compression, Base64 encoding and thumbnail drawing are an
 * oracle: for each file it says what each of those steps yields, or the error it throws.
 */
module ImageUtils {
  import opened Wrappers
  import opened Text

  /** What the pipeline reads of a browser `File`. */
  datatype FileInfo = FileInfo(name: string, mimeType: string, size: nat)

  const AllowedTypes: seq<string> :=
    ["image/jpeg", "image/jpg", "image/png", "image/gif", "image/webp", "image/svg+xml"]

  /** 10 MiB */
  const MaxFileSize: nat := 10 * 1024 * 1024

  /** The per-call default of validateMultipleFiles and of the upload widget. */
  const DefaultMaxCount: nat := 20

  /** The format error lists the allow-list joined by ", ". */
  const UnsupportedTypeMessage: string :=
    "サポートされていないファイル形式です。対応形式: image/jpeg, image/jpg, image/png, image/gif, image/webp, image/svg+xml"

  /** The size error names the limit in whole MiB. */
  const TooLargeMessage: string := "ファイルサイズが大きすぎます。最大サイズ: 10MB"

  const SomeInvalidMessage: string := "一部のファイルが無効です。"

  function TooManyMessage(maxCount: nat): string
  {
    "一度にアップロードできる画像数は最大" + IntToString(maxCount) + "枚です。"
  }

  datatype Validation = Accepted | Rejected(error: string)

  /** validateImageFile: accepted iff the type is allowed and the size within the limit; the
      type is checked first, so a file failing both reports the format error. */
  function ValidateImageFile(f: FileInfo): (v: Validation)
    ensures v.Accepted? <==> f.mimeType in AllowedTypes && f.size <= MaxFileSize
    ensures f.mimeType !in AllowedTypes ==> v == Rejected(UnsupportedTypeMessage)
    ensures f.mimeType in AllowedTypes && f.size > MaxFileSize ==> v == Rejected(TooLargeMessage)
  {
    if f.mimeType !in AllowedTypes then Rejected(UnsupportedTypeMessage)
    else if f.size > MaxFileSize then Rejected(TooLargeMessage)
    else Accepted
  }

  /** A bad file of a batch: its position, its name and its own error. */
  datatype InvalidFile = InvalidFile(index: nat, name: string, error: string)

  datatype BatchValidation =
    | BatchAccepted
    | TooMany(error: string)
    | SomeInvalid(error: string, invalidFiles: seq<InvalidFile>)

  /** Every file of `files` that fails validateImageFile, in index order. */
  function InvalidFiles(files: seq<FileInfo>): seq<InvalidFile>
  {
    if files == [] then []
    else
      var n := |files| - 1;
      var v := ValidateImageFile(files[n]);
      InvalidFiles(files[..n]) + (if v.Rejected? then [InvalidFile(n, files[n].name, v.error)] else [])
  }

  /** Each entry names a bad file by its position, with that file's name and error, and the
      positions rise. */
  lemma {:induction false} InvalidFilesSound(files: seq<FileInfo>)
    ensures forall j :: 0 <= j < |InvalidFiles(files)| ==>
      && InvalidFiles(files)[j].index < |files|
      && InvalidFiles(files)[j].name == files[InvalidFiles(files)[j].index].name
      && ValidateImageFile(files[InvalidFiles(files)[j].index]) == Rejected(InvalidFiles(files)[j].error)
    ensures forall j, k :: 0 <= j < k < |InvalidFiles(files)| ==>
      InvalidFiles(files)[j].index < InvalidFiles(files)[k].index
  {
    if files != [] {
      var n := |files| - 1;
      InvalidFilesSound(files[..n]);
      assert forall i :: 0 <= i < n ==> files[..n][i] == files[i];
      var before := InvalidFiles(files[..n]);
      var v := ValidateImageFile(files[n]);
      var tail := if v.Rejected? then [InvalidFile(n, files[n].name, v.error)] else [];
      var r := InvalidFiles(files);
      assert r == before + tail;
      forall j | 0 <= j < |r|
        ensures r[j].index < |files| && r[j].name == files[r[j].index].name
        ensures ValidateImageFile(files[r[j].index]) == Rejected(r[j].error)
      {
        if j < |before| {
          assert r[j] == before[j];
          assert before[j].index < n;
          assert files[..n][before[j].index] == files[before[j].index];
        } else {
          assert r[j] == tail[0];
        }
      }
      forall j, k | 0 <= j < k < |r| ensures r[j].index < r[k].index {
        if k < |before| {
          assert r[j] == before[j] && r[k] == before[k];
        } else {
          assert r[k] == tail[0];
          if j < |before| { assert r[j] == before[j]; }
        }
      }
    }
  }

  /** Validation does not stop at the first failure: every bad file has an entry. */
  lemma {:induction false} InvalidFilesComplete(files: seq<FileInfo>, i: nat)
    requires i < |files| && ValidateImageFile(files[i]).Rejected?
    ensures exists j :: 0 <= j < |InvalidFiles(files)| && InvalidFiles(files)[j].index == i
  {
    var n := |files| - 1;
    var before := InvalidFiles(files[..n]);
    var r := InvalidFiles(files);
    if i < n {
      assert files[..n][i] == files[i];
      InvalidFilesComplete(files[..n], i);
      var j :| 0 <= j < |before| && before[j].index == i;
      assert r[j] == before[j];
    } else {
      assert r[|before|].index == n;
    }
  }

  /** validateMultipleFiles(files, maxCount) */
  method ValidateMultipleFiles(files: seq<FileInfo>, maxCount: nat) returns (v: BatchValidation)
    ensures v.TooMany? <==> |files| > maxCount
    ensures v.TooMany? ==> v.error == TooManyMessage(maxCount)
    ensures |files| <= maxCount ==> (v.BatchAccepted? <==> InvalidFiles(files) == [])
    ensures v.SomeInvalid? ==> v.error == SomeInvalidMessage && v.invalidFiles == InvalidFiles(files)
  {
    if |files| > maxCount {
      return TooMany(TooManyMessage(maxCount));
    }
    var invalid: seq<InvalidFile> := [];
    var i := 0;
    while i < |files|
      invariant 0 <= i <= |files|
      invariant invalid == InvalidFiles(files[..i])
    {
      assert files[..i + 1][..i] == files[..i];
      var check := ValidateImageFile(files[i]);
      if check.Rejected? {
        invalid := invalid + [InvalidFile(i, files[i].name, check.error)];
      }
      i := i + 1;
    }
    assert files[..|files|] == files;
    if |invalid| > 0 {
      v := SomeInvalid(SomeInvalidMessage, invalid);
    } else {
      v := BatchAccepted;
    }
  }

  /** A batch has no invalid entry exactly when every one of its files passes on its own. */
  lemma {:induction false} NoEntriesIffAllValid(files: seq<FileInfo>)
    ensures InvalidFiles(files) == [] <==> forall i :: 0 <= i < |files| ==> ValidateImageFile(files[i]).Accepted?
  {
    if files != [] {
      var n := |files| - 1;
      NoEntriesIffAllValid(files[..n]);
      assert forall i :: 0 <= i < n ==> files[..n][i] == files[i];
    }
  }

  datatype Dimensions = Dimensions(width: nat, height: nat)
  datatype Compressed = Compressed(size: nat, mimeType: string, base64: string)

  /** What the browser and the compression library yield for one file, step by step: the
      natural size, the compressed file with its Base64 text, the thumbnail data URL; and the
      generated `img_<time>_<random>` file name. */
  datatype Transcoding = Transcoding(
    metadata: Result<Dimensions, string>,
    compressed: Result<Compressed, string>,
    thumbnail: Result<string, string>,
    generatedName: string)

  datatype ProcessedImage = ProcessedImage(
    originalName: string, fileName: string, fileSize: nat, mimeType: string,
    compressed: string, thumbnail: string, width: nat, height: nat)

  /** processImage(file): metadata, then compression, then the thumbnail; the first step that
      fails decides the error. */
  function ProcessImage(file: FileInfo, t: Transcoding): (r: Result<ProcessedImage, string>)
    ensures r.Success? <==> t.metadata.Success? && t.compressed.Success? && t.thumbnail.Success?
    ensures t.metadata.Failure? ==> r == Failure(t.metadata.error)
    ensures t.metadata.Success? && t.compressed.Failure? ==> r == Failure(t.compressed.error)
    ensures t.metadata.Success? && t.compressed.Success? && t.thumbnail.Failure? ==> r == Failure(t.thumbnail.error)
    ensures r.Success? ==>
      && r.value.originalName == file.name
      && r.value.fileName == t.generatedName
      && r.value.width == t.metadata.value.width && r.value.height == t.metadata.value.height
      && r.value.fileSize == t.compressed.value.size && r.value.mimeType == t.compressed.value.mimeType
      && r.value.compressed == t.compressed.value.base64
      && r.value.thumbnail == t.thumbnail.value
  {
    match t.metadata
    case Failure(e) => Failure(e)
    case Success(dim) =>
      match t.compressed
      case Failure(e) => Failure(e)
      case Success(c) =>
        match t.thumbnail
        case Failure(e) => Failure(e)
        case Success(thumb) =>
          Success(ProcessedImage(file.name, t.generatedName, c.size, c.mimeType, c.base64, thumb, dim.width, dim.height))
  }

  datatype ProcessError = ProcessError(file: string, error: string)
  datatype Progress = Progress(completed: nat, total: nat, percentage: nat)

  /** `Math.round(completed / total * 100)`, exactly. */
  function Percentage(completed: nat, total: nat): nat
    requires total > 0
  {
    (200 * completed + total) / (2 * total)
  }

  /** The outcome of processImage for every file, in input order. */
  function Outcomes(files: seq<FileInfo>, transcode: (nat, FileInfo) -> Transcoding): (r: seq<Result<ProcessedImage, string>>)
    ensures |r| == |files|
  {
    seq(|files|, i requires 0 <= i < |files| => ProcessImage(files[i], transcode(i, files[i])))
  }

  /** The processed images among `outcomes`, in order. */
  function Successes(outcomes: seq<Result<ProcessedImage, string>>): seq<ProcessedImage>
  {
    if outcomes == [] then []
    else
      var n := |outcomes| - 1;
      Successes(outcomes[..n]) + (if outcomes[n].Success? then [outcomes[n].value] else [])
  }

  /** The error entries for the failed files among `outcomes`, in order, with the file names. */
  function Errors(files: seq<FileInfo>, outcomes: seq<Result<ProcessedImage, string>>): seq<ProcessError>
    requires |files| == |outcomes|
  {
    if outcomes == [] then []
    else
      var n := |outcomes| - 1;
      Errors(files[..n], outcomes[..n]) + (if outcomes[n].Failure? then [ProcessError(files[n].name, outcomes[n].error)] else [])
  }

  /** The progress reports of a batch of `total` files: one, after each success. */
  function Reports(outcomes: seq<Result<ProcessedImage, string>>, total: nat): seq<Progress>
    requires |outcomes| <= total
  {
    if outcomes == [] then []
    else
      var n := |outcomes| - 1;
      Reports(outcomes[..n], total) + (if outcomes[n].Success? then [Progress(n + 1, total, Percentage(n + 1, total))] else [])
  }

  /** processMultipleImages(files, onProgress): the files one after another; a success is kept
      and reported, a failure recorded under the file's name, and the loop goes on. */
  method ProcessMultipleImages(files: seq<FileInfo>, transcode: (nat, FileInfo) -> Transcoding)
    returns (results: seq<ProcessedImage>, errors: seq<ProcessError>, progress: seq<Progress>)
    ensures results == Successes(Outcomes(files, transcode))
    ensures errors == Errors(files, Outcomes(files, transcode))
    ensures progress == Reports(Outcomes(files, transcode), |files|)
  {
    ghost var outcomes := Outcomes(files, transcode);
    results, errors, progress := [], [], [];
    var i := 0;
    while i < |files|
      invariant 0 <= i <= |files|
      invariant results == Successes(outcomes[..i])
      invariant errors == Errors(files[..i], outcomes[..i])
      invariant progress == Reports(outcomes[..i], |files|)
    {
      assert outcomes[..i + 1][..i] == outcomes[..i];
      assert files[..i + 1][..i] == files[..i];
      var r := ProcessImage(files[i], transcode(i, files[i]));
      if r.Success? {
        results := results + [r.value];
        progress := progress + [Progress(i + 1, |files|, Percentage(i + 1, |files|))];
      } else {
        errors := errors + [ProcessError(files[i].name, r.error)];
      }
      i := i + 1;
    }
    assert outcomes[..|files|] == outcomes;
    assert files[..|files|] == files;
  }

  /** Every file yields exactly one result or one error. */
  lemma {:induction false} OneEntryPerFile(files: seq<FileInfo>, outcomes: seq<Result<ProcessedImage, string>>)
    requires |files| == |outcomes|
    ensures |Successes(outcomes)| + |Errors(files, outcomes)| == |files|
    ensures |Reports(outcomes, |files|)| == |Successes(outcomes)|
  {
    if outcomes != [] {
      var n := |outcomes| - 1;
      OneEntryPerFile(files[..n], outcomes[..n]);
      ReportsPerSuccess(outcomes[..n], |files|);
    }
  }

  lemma {:induction false} ReportsPerSuccess(outcomes: seq<Result<ProcessedImage, string>>, total: nat)
    requires |outcomes| <= total
    ensures |Reports(outcomes, total)| == |Successes(outcomes)|
  {
    if outcomes != [] {
      ReportsPerSuccess(outcomes[..|outcomes| - 1], total);
    }
  }

  /** Each report names a successful file by its 1-based position, with the batch size and its
      rounded percentage; positions rise, and so percentages never fall. */
  lemma {:induction false} ReportsShape(outcomes: seq<Result<ProcessedImage, string>>, total: nat)
    requires |outcomes| <= total
    ensures forall j :: 0 <= j < |Reports(outcomes, total)| ==>
      var p := Reports(outcomes, total)[j];
      && 1 <= p.completed <= |outcomes| && p.total == total
      && outcomes[p.completed - 1].Success?
      && p.percentage == Percentage(p.completed, total)
    ensures forall j, k :: 0 <= j < k < |Reports(outcomes, total)| ==>
      Reports(outcomes, total)[j].completed < Reports(outcomes, total)[k].completed
  {
    if outcomes != [] {
      var n := |outcomes| - 1;
      ReportsShape(outcomes[..n], total);
      var before := Reports(outcomes[..n], total);
      assert forall j :: 0 <= j < |before| ==> before[j].completed <= n;
    }
  }

  lemma PercentageMonotone(a: nat, b: nat, total: nat)
    requires total > 0 && a <= b
    ensures Percentage(a, total) <= Percentage(b, total)
  {
    DivMonotone(200 * a + total, 200 * b + total, 2 * total);
  }

  /** The reported percentages never decrease. */
  lemma PercentagesNonDecreasing(outcomes: seq<Result<ProcessedImage, string>>, total: nat)
    requires |outcomes| <= total
    ensures forall j, k :: 0 <= j < k < |Reports(outcomes, total)| ==>
      Reports(outcomes, total)[j].percentage <= Reports(outcomes, total)[k].percentage
  {
    ReportsShape(outcomes, total);
    var rs := Reports(outcomes, total);
    forall j, k | 0 <= j < k < |rs| ensures rs[j].percentage <= rs[k].percentage {
      PercentageMonotone(rs[j].completed, rs[k].completed, total);
    }
  }

  /** When the last file of the batch succeeds, the last report says 100. */
  lemma LastSuccessReportsHundred(outcomes: seq<Result<ProcessedImage, string>>)
    requires outcomes != [] && outcomes[|outcomes| - 1].Success?
    ensures var rs := Reports(outcomes, |outcomes|);
      rs != [] && rs[|rs| - 1] == Progress(|outcomes|, |outcomes|, 100)
  {
    var n := |outcomes|;
    DivUnique(200 * n + n, 2 * n, 100, n);
  }

  /** The dimension rule of resizeImage: when the image is wider than tall and wider than
      `maxWidth`, or else taller than `maxHeight`, that side becomes the limit and the other
      scales by the same factor; otherwise nothing changes. */
  method FitDimensions(width: nat, height: nat, maxWidth: real, maxHeight: real) returns (w: real, h: real)
    requires maxWidth >= 0.0 && maxHeight >= 0.0
    ensures width > height && (width as real) > maxWidth ==>
      w == maxWidth && h == ((height as real) * maxWidth) / (width as real)
    ensures width <= height && (height as real) > maxHeight ==>
      h == maxHeight && w == ((width as real) * maxHeight) / (height as real)
    ensures (if width > height then (width as real) <= maxWidth else (height as real) <= maxHeight) ==>
      w == width as real && h == height as real
    ensures w * (height as real) == h * (width as real)
    ensures 0.0 <= w <= width as real && 0.0 <= h <= height as real
  {
    w, h := width as real, height as real;
    if width > height {
      if w > maxWidth {
        ScaleSide(w, h, maxWidth);
        h := (h * maxWidth) / w;
        w := maxWidth;
      }
    } else {
      if h > maxHeight {
        ScaleSide(h, w, maxHeight);
        w := (w * maxHeight) / h;
        h := maxHeight;
      }
    }
  }

  function Max(a: real, b: real): real
  {
    if a >= b then a else b
  }

  function Min(a: real, b: real): real
  {
    if a <= b then a else b
  }

  /** generateThumbnail's rule: the same with one limit for both sides. The larger side ends at
      the smaller of itself and the limit, so nothing is ever enlarged. */
  method ThumbnailDimensions(width: nat, height: nat, maxSize: real) returns (w: real, h: real)
    requires maxSize >= 0.0
    ensures Max(w, h) == Min(Max(width as real, height as real), maxSize)
    ensures w * (height as real) == h * (width as real)
    ensures 0.0 <= w <= width as real && 0.0 <= h <= height as real
  {
    w, h := width as real, height as real;
    if width > height {
      if w > maxSize {
        ScaleSide(w, h, maxSize);
        h := (h * maxSize) / w;
        w := maxSize;
      }
    } else {
      if h > maxSize {
        ScaleSide(h, w, maxSize);
        w := (w * maxSize) / h;
        h := maxSize;
      }
    }
  }

  /** The shorter side scaled like the longer one cut to `m`: it shrinks, stays within `m`,
      and keeps the aspect ratio. */
  lemma ScaleSide(long: real, short: real, m: real)
    requires 0.0 <= short <= long && 0.0 <= m < long
    ensures 0.0 <= (short * m) / long <= short
    ensures (short * m) / long <= m
    ensures m * short == ((short * m) / long) * long
    ensures ((short * m) / long) * long == m * short
  {
    var s := (short * m) / long;
    assert s * long == short * m;
    MulNonNegative(short, m);
    CancelPositive(0.0, s, long);
    MulMonotone(m, long, short);
    CancelPositive(s, short, long);
    MulMonotone(short, long, m);
    CancelPositive(s, m, long);
  }

  lemma MulNonNegative(a: real, b: real)
    requires a >= 0.0 && b >= 0.0
    ensures a * b >= 0.0
  {
  }

  lemma MulMonotone(a: real, b: real, c: real)
    requires a <= b && c >= 0.0
    ensures a * c <= b * c && c * a <= c * b
  {
  }

  lemma CancelPositive(x: real, y: real, k: real)
    requires k > 0.0 && x * k <= y * k
    ensures x <= y
  {
  }

  lemma MulAtLeast(d: int, k: int)
    requires d > 0
    ensures k >= 1 ==> d * k >= d
    ensures k <= -1 ==> d * k <= -d
  {
  }

  /** Euclidean division has one quotient. */
  lemma DivUnique(x: int, d: int, q: int, r: int)
    requires d > 0 && 0 <= r < d && x == d * q + r
    ensures x / d == q
  {
    var k := x / d - q;
    assert d * k == r - x % d;
    MulAtLeast(d, k);
  }

  lemma DivMonotone(x: int, y: int, d: int)
    requires d > 0 && x <= y
    ensures x / d <= y / d
  {
    var k := x / d - y / d;
    assert d * k == (x - x % d) - (y - y % d);
    MulAtLeast(d, k);
  }
}
