/**
 * The investment form: field updates, the required-field validation, chart image attach and
 * remove, and the submit that appends one record to the stored list.
 */
module InvestmentForm {
  import opened Wrappers
  import opened Text
  import Lists
  import opened Records

  datatype Field = Symbol | CompanyName | Date | InvestmentAmount | Prediction | PredictionReason
                 | TargetPrice | StopLoss | Timeframe | Analysis

  /** The form's state: the text of every input and the attached chart images. */
  datatype FormData = FormData(
    symbol: string,
    companyName: string,
    date: string,
    investmentAmount: string,
    prediction: string,
    predictionReason: string,
    targetPrice: string,
    stopLoss: string,
    timeframe: string,
    analysis: string,
    chartImages: seq<ChartImage>)

  function Get(d: FormData, f: Field): string
  {
    match f
    case Symbol => d.symbol
    case CompanyName => d.companyName
    case Date => d.date
    case InvestmentAmount => d.investmentAmount
    case Prediction => d.prediction
    case PredictionReason => d.predictionReason
    case TargetPrice => d.targetPrice
    case StopLoss => d.stopLoss
    case Timeframe => d.timeframe
    case Analysis => d.analysis
  }

  /** `{...prev, [name]: value}`: the named field takes the value, everything else stays. */
  function With(d: FormData, f: Field, v: string): (r: FormData)
    ensures Get(r, f) == v
    ensures forall g :: g != f ==> Get(r, g) == Get(d, g)
    ensures r.chartImages == d.chartImages
  {
    match f
    case Symbol => d.(symbol := v)
    case CompanyName => d.(companyName := v)
    case Date => d.(date := v)
    case InvestmentAmount => d.(investmentAmount := v)
    case Prediction => d.(prediction := v)
    case PredictionReason => d.(predictionReason := v)
    case TargetPrice => d.(targetPrice := v)
    case StopLoss => d.(stopLoss := v)
    case Timeframe => d.(timeframe := v)
    case Analysis => d.(analysis := v)
  }

  /** The blank form: every field empty except the date, which is today's. */
  function EmptyForm(today: string): (d: FormData)
    ensures forall f :: Get(d, f) == if f == Date then today else ""
    ensures d.chartImages == []
  {
    FormData("", "", today, "", "", "", "", "", "", "", [])
  }

  // ---------------------------------------------------------------- validation

  const SymbolRequired: string := "銘柄コードは必須です"
  const CompanyRequired: string := "企業名は必須です"
  const DateRequired: string := "日付は必須です"
  const AmountInvalid: string := "有効な投資金額を入力してください"
  const PredictionRequired: string := "予想を選択してください"
  const AnalysisRequired: string := "分析内容は必須です"

  /** The part of a number before its exponent. */
  function Mantissa(s: string): (m: string)
    ensures |m| <= |s| && m == s[..|m|]
    ensures 'e' !in m && 'E' !in m
  {
    if s == [] || s[0] == 'e' || s[0] == 'E' then [] else [s[0]] + Mantissa(s[1..])
  }

  /** `parseFloat(s) > 0` for the text a number input holds: no minus sign, and a non-zero
      digit before the exponent. */
  predicate PositiveNumber(s: string)
  {
    s != [] && s[0] != '-' && exists i :: 0 <= i < |Mantissa(s)| && '1' <= Mantissa(s)[i] <= '9'
  }

  lemma {:induction false} LeadingDigitNonZero(n: nat)
    requires n >= 1
    ensures '1' <= NatToString(n, 10)[0] <= '9'
    decreases n
  {
    if n >= 10 {
      LeadingDigitNonZero(n / 10);
      assert NatToString(n, 10)[0] == NatToString(n / 10, 10)[0];
    }
  }

  lemma {:induction false} DigitsAreMantissa(s: string)
    requires forall i :: 0 <= i < |s| ==> IsDigit(s[i])
    ensures Mantissa(s) == s
  {
    if s != [] {
      DigitsAreMantissa(s[1..]);
    }
  }

  /** Every whole number from one up, written out, is an amount the form accepts; zero and any
      negative amount are refused. */
  lemma AmountCheck(n: nat, rest: string)
    ensures n >= 1 ==> PositiveNumber(NatToString(n, 10))
    ensures !PositiveNumber("0") && !PositiveNumber("-" + rest)
  {
    if n >= 1 {
      var s := NatToString(n, 10);
      NatToStringDigits(n, 10);
      DigitsAreMantissa(s);
      LeadingDigitNonZero(n);
      assert '1' <= Mantissa(s)[0] <= '9';
    }
    assert Mantissa("0") == "0";
  }

  /** `!s.trim()`: the text is blank once trimmed. */
  method IsBlank(s: string) returns (b: bool)
    ensures b <==> AllSpace(s)
  {
    b := Trim(s) == "";
    TrimEmptyIffAllSpace(s);
  }

  /** The validation rule of each field; the optional fields never fail. A text field fails
      when it is all white space, which is what an empty `trim()` means (FailsMeaning). */
  predicate Fails(d: FormData, f: Field)
  {
    match f
    case Symbol => AllSpace(d.symbol)
    case CompanyName => AllSpace(d.companyName)
    case Date => d.date == ""
    case InvestmentAmount => d.investmentAmount == "" || !PositiveNumber(d.investmentAmount)
    case Prediction => d.prediction == ""
    case Analysis => AllSpace(d.analysis)
    case _ => false
  }

  function Message(f: Field): string
  {
    match f
    case Symbol => SymbolRequired
    case CompanyName => CompanyRequired
    case Date => DateRequired
    case InvestmentAmount => AmountInvalid
    case Prediction => PredictionRequired
    case Analysis => AnalysisRequired
    case _ => ""
  }

  /** The form passes validation: none of the six required checks fails. */
  predicate Complete(d: FormData)
  {
    && !Fails(d, Symbol) && !Fails(d, CompanyName) && !Fails(d, Date)
    && !Fails(d, InvestmentAmount) && !Fails(d, Prediction) && !Fails(d, Analysis)
  }

  /** Only the six required fields have a check, so a complete form fails on no field. */
  lemma CompleteFailsNowhere(d: FormData)
    ensures Complete(d) <==> forall f :: !Fails(d, f)
  {
    if Complete(d) {
      forall f ensures !Fails(d, f) {
        match f
        case Symbol =>
        case CompanyName =>
        case Date =>
        case InvestmentAmount =>
        case Prediction =>
        case Analysis =>
        case _ =>
      }
    }
  }

  /** The three text checks are the source's `!value.trim()` tests. */
  lemma TextCheckIsTrim(d: FormData, f: Field)
    requires f == Symbol || f == CompanyName || f == Analysis
    ensures Fails(d, f) <==> Trim(Get(d, f)) == ""
  {
    TrimEmptyIffAllSpace(Get(d, f));
  }

  /** validateForm's `newErrors`: one message per failing field, filled check by check. */
  method FormErrors(d: FormData) returns (errors: map<Field, string>)
    ensures forall f :: f in errors <==> Fails(d, f)
    ensures forall f :: f in errors ==> errors[f] == Message(f)
    ensures errors == map[] <==> Complete(d)
  {
    errors := map[];
    var blankSymbol := IsBlank(d.symbol);
    var blankCompany := IsBlank(d.companyName);
    var blankAnalysis := IsBlank(d.analysis);
    NoneChecked(d);
    errors := Check(d, errors, 0, blankSymbol);
    errors := Check(d, errors, 1, blankCompany);
    errors := Check(d, errors, 2, d.date == "");
    errors := Check(d, errors, 3, d.investmentAmount == "" || !PositiveNumber(d.investmentAmount));
    errors := Check(d, errors, 4, d.prediction == "");
    errors := Check(d, errors, 5, blankAnalysis);
    AllChecked(d);
  }

  /** One `if (...) newErrors.field = message` of validateForm: the check at position `n`,
      whose outcome is `failing`, records its message when it fails. */
  method Check(d: FormData, errors: map<Field, string>, n: nat, failing: bool) returns (next: map<Field, string>)
    requires n < 6 && errors == ErrorsAfter(d, n)
    requires failing <==> Fails(d, CheckedAt(n))
    ensures next == ErrorsAfter(d, n + 1)
  {
    var f := CheckedAt(n);
    CheckOneMore(d, n);
    next := errors;
    if failing {
      next := next[f := Message(f)];
    }
  }

  /** The position of each field among validateForm's six checks; the optional fields have none. */
  function Rank(f: Field): nat
  {
    match f
    case Symbol => 0
    case CompanyName => 1
    case Date => 2
    case InvestmentAmount => 3
    case Prediction => 4
    case Analysis => 5
    case _ => 6
  }

  /** The field validateForm checks at position `n`. */
  function CheckedAt(n: nat): (f: Field)
    requires n < 6
    ensures Rank(f) == n
  {
    [Symbol, CompanyName, Date, InvestmentAmount, Prediction, Analysis][n]
  }

  /** The error map once the first `n` checks have run: each failing field among them, with its message. */
  ghost function ErrorsAfter(d: FormData, n: nat): map<Field, string>
  {
    map f | Rank(f) < n && Fails(d, f) :: Message(f)
  }

  lemma NoneChecked(d: FormData)
    ensures ErrorsAfter(d, 0) == map[]
  {
  }

  /** One more check of validateForm adds that field's message exactly when it fails. */
  lemma CheckOneMore(d: FormData, n: nat)
    requires n < 6
    ensures var f := CheckedAt(n);
      ErrorsAfter(d, n + 1) == if Fails(d, f) then ErrorsAfter(d, n)[f := Message(f)] else ErrorsAfter(d, n)
  {
    var f := CheckedAt(n);
    forall g ensures Rank(g) < n + 1 <==> Rank(g) < n || g == f {
      match g
      case Symbol =>
      case CompanyName =>
      case Date =>
      case InvestmentAmount =>
      case Prediction =>
      case Analysis =>
      case _ =>
    }
  }

  /** After the six checks the error map names exactly the failing fields. */
  lemma AllChecked(d: FormData)
    ensures forall f :: f in ErrorsAfter(d, 6) <==> Fails(d, f)
    ensures forall f :: f in ErrorsAfter(d, 6) ==> ErrorsAfter(d, 6)[f] == Message(f)
    ensures ErrorsAfter(d, 6) == map[] <==> Complete(d)
  {
    forall f | Fails(d, f) ensures Rank(f) < 6 {
      match f
      case Symbol =>
      case CompanyName =>
      case Date =>
      case InvestmentAmount =>
      case Prediction =>
      case Analysis =>
      case _ =>
    }
    if ErrorsAfter(d, 6) != map[] {
      var f :| f in ErrorsAfter(d, 6);
      assert Fails(d, f);
    }
    if !Complete(d) {
      var f :| Rank(f) < 6 && Fails(d, f);
      assert f in ErrorsAfter(d, 6);
    }
  }

  /** handleInputChange's error update: a set error of the edited field is blanked, every other
      entry stays. */
  function ClearError(errors: map<Field, string>, f: Field): (r: map<Field, string>)
    ensures r.Keys == errors.Keys
    ensures f in r ==> r[f] == ""
    ensures forall g :: g in errors && g != f ==> r[g] == errors[g]
  {
    if f in errors && errors[f] != "" then errors[f := ""] else errors
  }

  // ---------------------------------------------------------------- chart images

  /** A dropped file, with what its reader produced: the data URL and the
      `Date.now() + Math.random()` stamp taken when it finished loading. */
  datatype DroppedFile = DroppedFile(name: string, mimeType: string, dataUrl: string, stamp: real)

  predicate IsImageFile(f: DroppedFile)
  {
    StartsWith(f.mimeType, "image/")
  }

  /** The drop handler keeps only the files whose type starts with `image/`. */
  function ImageFiles(files: seq<DroppedFile>): (r: seq<DroppedFile>)
    ensures forall f :: f in r <==> f in files && StartsWith(f.mimeType, "image/")
    ensures Lists.IsSubsequence(r, files)
  {
    Lists.FilterIsSubsequence(files, IsImageFile);
    Lists.Filter(files, IsImageFile)
  }

  /** The chart image entry made for each loaded file, in drop order. */
  function Attachments(files: seq<DroppedFile>): (r: seq<ChartImage>)
    ensures |r| == |files|
    ensures forall i :: 0 <= i < |files| ==> r[i] == ChartImage(files[i].stamp, files[i].name, files[i].dataUrl)
  {
    seq(|files|, i requires 0 <= i < |files| => ChartImage(files[i].stamp, files[i].name, files[i].dataUrl))
  }

  function OtherImage(id: real): ChartImage -> bool
  {
    (img: ChartImage) => img.id != id
  }

  /** removeImage: exactly the images with `id` go; the others stay in order. */
  function WithoutImage(images: seq<ChartImage>, id: real): (r: seq<ChartImage>)
    ensures forall img :: img in r <==> img in images && img.id != id
    ensures Lists.IsSubsequence(r, images)
  {
    Lists.FilterIsSubsequence(images, OtherImage(id));
    Lists.Filter(images, OtherImage(id))
  }

  // ---------------------------------------------------------------- submit

  /** `{id: Date.now(), ...formData, createdAt}`: the form's fields with the new id and time;
      the form sets no result, profit or sector. */
  function NewRecord(id: int, d: FormData, createdAt: string): (r: InvestmentRecord)
    ensures r.id == id && r.createdAt == createdAt
    ensures r.symbol == d.symbol && r.companyName == d.companyName && r.date == d.date
    ensures r.investmentAmount == d.investmentAmount && r.prediction == d.prediction
    ensures r.predictionReason == d.predictionReason && r.targetPrice == d.targetPrice
    ensures r.stopLoss == d.stopLoss && r.timeframe == d.timeframe && r.analysis == d.analysis
    ensures r.chartImages == d.chartImages
    ensures r.result == "" && r.actualProfit == None && r.sector == ""
  {
    InvestmentRecord(id, d.symbol, d.companyName, d.date, d.investmentAmount, d.prediction,
                     d.predictionReason, d.targetPrice, d.stopLoss, d.timeframe, d.analysis,
                     d.chartImages, createdAt, "", None, "")
  }

  /** The form page's state. */
  class Form {
    var data: FormData
    var errors: map<Field, string>

    constructor(today: string)
      ensures data == EmptyForm(today) && errors == map[]
    {
      data := EmptyForm(today);
      errors := map[];
    }

    method HandleInputChange(f: Field, value: string)
      modifies this
      ensures data == With(old(data), f, value)
      ensures errors == ClearError(old(errors), f)
    {
      data := With(data, f, value);
      errors := ClearError(errors, f);
    }

    method RemoveImage(id: real)
      modifies this
      ensures data == old(data).(chartImages := WithoutImage(old(data.chartImages), id))
      ensures errors == old(errors)
    {
      data := data.(chartImages := WithoutImage(data.chartImages, id));
    }

    /** onDrop: the image files among `files` are attached after the current images. */
    method OnDrop(files: seq<DroppedFile>)
      modifies this
      ensures data == old(data).(chartImages := old(data.chartImages) + Attachments(ImageFiles(files)))
      ensures errors == old(errors)
    {
      var images := ImageFiles(files);
      data := data.(chartImages := data.chartImages + Attachments(images));
    }

    /** validateForm: the errors are replaced by the failing checks; the form is valid iff
        none fails. */
    method ValidateForm() returns (valid: bool)
      modifies this
      ensures data == old(data)
      ensures forall f :: (f in errors <==> Fails(data, f)) && (f in errors ==> errors[f] == Message(f))
      ensures valid <==> Complete(data)
    {
      errors := FormErrors(data);
      valid := |errors| == 0;
      assert valid <==> errors == map[];
    }

    /** handleSubmit: an invalid form stores nothing; a valid one appends exactly one record
        to the stored list and resets the form. */
    method HandleSubmit(storage: LocalStorage, now: int, createdAt: string, today: string) returns (saved: bool)
      modifies this, storage
      ensures saved <==> Complete(old(data))
      ensures !saved ==> storage.items == old(storage.items) && data == old(data)
      ensures saved ==> storage.items == old(storage.items)[RecordsKey :=
                RecordList(StoredRecords(old(storage.items)) + [NewRecord(now, old(data), createdAt)])]
      ensures saved ==> data == EmptyForm(today)
      ensures forall f :: f in errors <==> Fails(old(data), f)
      ensures forall f :: f in errors ==> errors[f] == Message(f)
    {
      saved := ValidateForm();
      if !saved {
        return;
      }
      var existing := StoredRecords(storage.items);
      storage.SetItem(RecordsKey, RecordList(existing + [NewRecord(now, data, createdAt)]));
      data := EmptyForm(today);
    }
  }
}
