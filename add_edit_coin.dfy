/** The add/edit coin page: its validation, which records every failing
    field, the error clean-up when fields change, the pictures, and the
    record a save assembles, tags and all. */
module AddEditCoin {
  import opened JsText
  import opened CoinDetailsForm

  const DashboardPath: string := "/collection-dashboard"
  const SaveFailed: string := "Failed to save coin. Please try again."
  const DeleteFailed: string := "Failed to delete coin. Please try again."
  const NameRequired: string := "Coin name is required"
  const DenominationRequired: string := "Denomination is required"
  const CustomDenominationRequired: string := "Custom denomination is required"
  const YearRequired: string := "Mint year is required"
  const ConditionRequired: string := "Condition is required"
  const WeightInvalid: string := "Weight must be a positive number"
  const DiameterInvalid: string := "Diameter must be a positive number"
  const PriceInvalid: string := "Price must be a valid number"

  /** A key of the error object: one per form property, and `submit`. */
  datatype ErrorKey = FieldError(key: FormKey) | SubmitError

  function Err(k: TextKey): ErrorKey
  {
    FieldError(TextField(k))
  }

  // ---------------------------------------------------------------------------
  // Validation

  /** `parseFloat(s)` is a number greater than zero, read off its digits
      and sign. */
  predicate ParsesPositive(s: string)
  {
    ParseDecimal(s).Some? && !ParseDecimal(s).value.negative && ParseDecimal(s).value.digits > 0
  }

  /** `parseFloat(s)` is a number of at least zero; "-0" counts. */
  predicate ParsesNonNegative(s: string)
  {
    ParseDecimal(s).Some? && (!ParseDecimal(s).value.negative || ParseDecimal(s).value.digits == 0)
  }

  /** Both tests mean what the page's comparisons on `parseFloat` mean:
      `isNaN(v) || v <= 0` fails the first and `isNaN(v) || v < 0` fails the
      second. */
  lemma NumberChecksMatchParseFloat(s: string)
    ensures ParsesPositive(s) <==> ParseFloat(s).Some? && ParseFloat(s).value > 0.0
    ensures ParsesNonNegative(s) <==> ParseFloat(s).Some? && ParseFloat(s).value >= 0.0
  {
  }

  /** The year check: a year that `parseInt` reads fails when it lies
      outside 1800 to the current year. A year it cannot read compares false
      both ways and passes. */
  predicate YearOutOfRange(year: string, currentYear: int)
  {
    ParseInt(year).Some? && (ParseInt(year).value < 1800 || ParseInt(year).value > currentYear)
  }

  function YearRangeMessage(currentYear: int): string
  {
    "Year must be between 1800 and " + IntToString(currentYear)
  }

  /** `isSaveDisabled`: one of the four required fields is empty, the name
      counting as empty when it is blank. */
  predicate IsSaveDisabled(f: CoinForm)
  {
    Trim(f.name) == "" || f.denomination == "" || f.year == "" || f.condition == ""
  }

  /** The outcome of each of `validateForm`'s checks on a form, `true`
      where that rule is broken. */
  datatype Verdicts = Verdicts(
    nameMissing: bool,
    denominationMissing: bool,
    customDenominationMissing: bool,
    yearMissing: bool,
    yearOutOfRange: bool,
    conditionMissing: bool,
    weightInvalid: bool,
    diameterInvalid: bool,
    priceInvalid: bool)

  /** The checks of `validateForm`: the name (blank counts as empty), the
      denomination, the custom denomination when "custom" is chosen, the
      year (present, then in range), the condition, and the three optional
      numbers, each checked only when given. */
  function Judge(f: CoinForm, currentYear: int): (v: Verdicts)
  {
    Verdicts(
      Trim(f.name) == "",
      f.denomination == "",
      f.denomination == "custom" && Trim(f.customDenomination) == "",
      f.year == "",
      YearOutOfRange(f.year, currentYear),
      f.condition == "",
      f.weight != "" && !ParsesPositive(f.weight),
      f.diameter != "" && !ParsesPositive(f.diameter),
      f.acquisitionPrice != "" && !ParsesNonNegative(f.acquisitionPrice))
  }

  /** The first part of `validateForm`: an entry for each failed
      required-field check, in the source's order. */
  method RequiredErrors(v: Verdicts, currentYear: int) returns (errors: map<ErrorKey, string>)
    ensures Err(Name) in errors <==> v.nameMissing
    ensures Err(Denomination) in errors <==> v.denominationMissing
    ensures Err(CustomDenomination) in errors <==> v.customDenominationMissing
    ensures Err(Year) in errors <==> v.yearMissing || v.yearOutOfRange
    ensures Err(Condition) in errors <==> v.conditionMissing
    ensures errors.Keys <= {Err(Name), Err(Denomination), Err(CustomDenomination), Err(Year), Err(Condition)}
    ensures Err(Name) in errors ==> errors[Err(Name)] == NameRequired
    ensures Err(Year) in errors ==>
      errors[Err(Year)] == if v.yearMissing then YearRequired else YearRangeMessage(currentYear)
    ensures Err(Denomination) in errors ==> errors[Err(Denomination)] == DenominationRequired
    ensures Err(CustomDenomination) in errors ==> errors[Err(CustomDenomination)] == CustomDenominationRequired
    ensures Err(Condition) in errors ==> errors[Err(Condition)] == ConditionRequired
  {
    var first := NamingErrors(v);
    var second := DatingErrors(v, currentYear);
    errors := first + second;
  }

  /** The name and denomination checks. */
  method NamingErrors(v: Verdicts) returns (errors: map<ErrorKey, string>)
    ensures Err(Name) in errors <==> v.nameMissing
    ensures Err(Denomination) in errors <==> v.denominationMissing
    ensures Err(CustomDenomination) in errors <==> v.customDenominationMissing
    ensures errors.Keys <= {Err(Name), Err(Denomination), Err(CustomDenomination)}
    ensures Err(Name) in errors ==> errors[Err(Name)] == NameRequired
    ensures Err(Denomination) in errors ==> errors[Err(Denomination)] == DenominationRequired
    ensures Err(CustomDenomination) in errors ==> errors[Err(CustomDenomination)] == CustomDenominationRequired
  {
    errors := map[];
    if v.nameMissing {
      errors := errors[Err(Name) := NameRequired];
    }
    if v.denominationMissing {
      errors := errors[Err(Denomination) := DenominationRequired];
    }
    if v.customDenominationMissing {
      errors := errors[Err(CustomDenomination) := CustomDenominationRequired];
    }
  }

  /** The year and condition checks. */
  method DatingErrors(v: Verdicts, currentYear: int) returns (errors: map<ErrorKey, string>)
    ensures Err(Year) in errors <==> v.yearMissing || v.yearOutOfRange
    ensures Err(Condition) in errors <==> v.conditionMissing
    ensures errors.Keys <= {Err(Year), Err(Condition)}
    ensures Err(Year) in errors ==>
      errors[Err(Year)] == if v.yearMissing then YearRequired else YearRangeMessage(currentYear)
    ensures Err(Condition) in errors ==> errors[Err(Condition)] == ConditionRequired
  {
    errors := map[];
    if v.yearMissing {
      errors := errors[Err(Year) := YearRequired];
    } else if v.yearOutOfRange {
      errors := errors[Err(Year) := YearRangeMessage(currentYear)];
    }
    if v.conditionMissing {
      errors := errors[Err(Condition) := ConditionRequired];
    }
  }

  /** The rest of `validateForm`: an entry for each failed number check. */
  method NumberErrors(v: Verdicts) returns (errors: map<ErrorKey, string>)
    ensures Err(Weight) in errors <==> v.weightInvalid
    ensures Err(Diameter) in errors <==> v.diameterInvalid
    ensures Err(AcquisitionPrice) in errors <==> v.priceInvalid
    ensures errors.Keys <= {Err(Weight), Err(Diameter), Err(AcquisitionPrice)}
    ensures Err(Weight) in errors ==> errors[Err(Weight)] == WeightInvalid
    ensures Err(Diameter) in errors ==> errors[Err(Diameter)] == DiameterInvalid
    ensures Err(AcquisitionPrice) in errors ==> errors[Err(AcquisitionPrice)] == PriceInvalid
  {
    errors := map[];
    if v.weightInvalid {
      errors := errors[Err(Weight) := WeightInvalid];
    }
    if v.diameterInvalid {
      errors := errors[Err(Diameter) := DiameterInvalid];
    }
    if v.priceInvalid {
      errors := errors[Err(AcquisitionPrice) := PriceInvalid];
    }
  }

  /** Every check passes. */
  predicate AllPass(v: Verdicts)
  {
    && !v.nameMissing && !v.denominationMissing && !v.customDenominationMissing
    && !v.yearMissing && !v.yearOutOfRange && !v.conditionMissing
    && !v.weightInvalid && !v.diameterInvalid && !v.priceInvalid
  }

  /** The required-field part of a report: the name, denomination, custom
      denomination, year and condition entries, each present exactly when
      its check failed and holding that check's message. */
  predicate ReportsRequired(errors: map<ErrorKey, string>, v: Verdicts, currentYear: int)
  {
    && (Err(Name) in errors <==> v.nameMissing)
    && (Err(Denomination) in errors <==> v.denominationMissing)
    && (Err(CustomDenomination) in errors <==> v.customDenominationMissing)
    && (Err(Year) in errors <==> v.yearMissing || v.yearOutOfRange)
    && (Err(Condition) in errors <==> v.conditionMissing)
    && (Err(Name) in errors ==> errors[Err(Name)] == NameRequired)
    && (Err(Denomination) in errors ==> errors[Err(Denomination)] == DenominationRequired)
    && (Err(CustomDenomination) in errors ==> errors[Err(CustomDenomination)] == CustomDenominationRequired)
    && (Err(Year) in errors ==>
          errors[Err(Year)] == if v.yearMissing then YearRequired else YearRangeMessage(currentYear))
    && (Err(Condition) in errors ==> errors[Err(Condition)] == ConditionRequired)
  }

  /** The number part of a report: the weight, diameter and price entries,
      each present exactly when its check failed and holding its message. */
  predicate ReportsNumbers(errors: map<ErrorKey, string>, v: Verdicts)
  {
    && (Err(Weight) in errors <==> v.weightInvalid)
    && (Err(Diameter) in errors <==> v.diameterInvalid)
    && (Err(AcquisitionPrice) in errors <==> v.priceInvalid)
    && (Err(Weight) in errors ==> errors[Err(Weight)] == WeightInvalid)
    && (Err(Diameter) in errors ==> errors[Err(Diameter)] == DiameterInvalid)
    && (Err(AcquisitionPrice) in errors ==> errors[Err(AcquisitionPrice)] == PriceInvalid)
  }

  /** An error object reports the verdicts: each property has an entry,
      with its check's message, exactly when its check failed, and there
      are no other entries. */
  predicate Reports(errors: map<ErrorKey, string>, v: Verdicts, currentYear: int)
  {
    && ReportsRequired(errors, v, currentYear)
    && ReportsNumbers(errors, v)
    && errors.Keys <= {Err(Name), Err(Denomination), Err(CustomDenomination), Err(Year), Err(Condition),
                       Err(Weight), Err(Diameter), Err(AcquisitionPrice)}
  }

  /** Merging the number entries in keeps the required-field entries. */
  lemma RequiredKept(required: map<ErrorKey, string>, numbers: map<ErrorKey, string>, v: Verdicts, currentYear: int)
    requires ReportsRequired(required, v, currentYear)
    requires numbers.Keys <= {Err(Weight), Err(Diameter), Err(AcquisitionPrice)}
    ensures ReportsRequired(required + numbers, v, currentYear)
  {
  }

  /** Merging the number entries into the required-field ones brings them
      over unchanged. */
  lemma NumbersAdded(required: map<ErrorKey, string>, numbers: map<ErrorKey, string>, v: Verdicts)
    requires ReportsNumbers(numbers, v)
    requires required.Keys <= {Err(Name), Err(Denomination), Err(CustomDenomination), Err(Year), Err(Condition)}
    ensures ReportsNumbers(required + numbers, v)
  {
  }

  /** `validateForm` returns true exactly when no error was recorded, that
      is, when every check passed. */
  lemma ReportsNothingIffAllPass(errors: map<ErrorKey, string>, v: Verdicts, currentYear: int)
    requires Reports(errors, v, currentYear)
    ensures |errors| == 0 <==> AllPass(v)
  {
    if AllPass(v) {
      assert errors.Keys == {};
    }
  }

  /** `validateForm`'s error object for the given verdicts: the
      required-field entries and the number entries in one object. */
  method ErrorsFor(v: Verdicts, currentYear: int) returns (errors: map<ErrorKey, string>)
    ensures Reports(errors, v, currentYear)
  {
    var required := RequiredErrors(v, currentYear);
    var numbers := NumberErrors(v);
    errors := required + numbers;
    RequiredKept(required, numbers, v, currentYear);
    NumbersAdded(required, numbers, v);
  }

  /** `validateForm`'s error object for a form. Each property gets an error
      exactly when its own check fails; an enabled save button rules out the
      four "required" errors, leaving at most the year's range error among
      them. */
  method CollectErrors(f: CoinForm, currentYear: int) returns (errors: map<ErrorKey, string>)
    ensures Reports(errors, Judge(f, currentYear), currentYear)
    ensures Err(Name) in errors <==> Trim(f.name) == ""
    ensures Err(Denomination) in errors <==> f.denomination == ""
    ensures Err(CustomDenomination) in errors <==> f.denomination == "custom" && Trim(f.customDenomination) == ""
    ensures Err(Year) in errors <==> f.year == "" || YearOutOfRange(f.year, currentYear)
    ensures Err(Condition) in errors <==> f.condition == ""
    ensures Err(Weight) in errors <==> f.weight != "" && !ParsesPositive(f.weight)
    ensures Err(Diameter) in errors <==> f.diameter != "" && !ParsesPositive(f.diameter)
    ensures Err(AcquisitionPrice) in errors <==> f.acquisitionPrice != "" && !ParsesNonNegative(f.acquisitionPrice)
    ensures Err(Year) in errors ==>
      errors[Err(Year)] == if f.year == "" then YearRequired else YearRangeMessage(currentYear)
    ensures !IsSaveDisabled(f) ==>
      && Err(Name) !in errors && Err(Denomination) !in errors && Err(Condition) !in errors
      && (Err(Year) in errors ==> errors[Err(Year)] == YearRangeMessage(currentYear))
  {
    errors := ErrorsFor(Judge(f, currentYear), currentYear);
  }

  /** Every year the year select offers passes the year check. */
  lemma YearOptionAccepted(currentYear: int, y: int)
    requires 1800 <= y <= currentYear
    ensures IntToString(y) != "" && !YearOutOfRange(IntToString(y), currentYear)
  {
    ParseIntOfIntToString(y);
  }

  /** A year starting with a run of digits is checked on that run alone:
      whatever follows the first non-digit is ignored. */
  lemma YearCheckReadsLeadingDigits(digits: string, rest: string, currentYear: int)
    requires digits != [] && AllDigits(digits) && (rest == [] || !IsDigit(rest[0]))
    ensures YearOutOfRange(digits + rest, currentYear) <==>
      DigitsValue(digits) < 1800 || DigitsValue(digits) > currentYear
  {
    ParseIntOfDigitsThen(digits, rest);
  }

  /** A year that starts with neither whitespace, a sign nor a digit is NaN
      to `parseInt` and so is never out of range. */
  lemma LettersAreNaN(year: string, currentYear: int)
    requires year != [] && !IsSpace(year[0]) && year[0] != '-' && year[0] != '+' && !IsDigit(year[0])
    ensures ParseInt(year) == None && !YearOutOfRange(year, currentYear)
  {
    ParseIntWithoutDigit(year);
  }

  /** Two instances of the lemmas above, as examples: "abc" passes the year
      check and "1750s" fails it as 1750. */
  lemma YearCheckExamples()
    ensures !YearOutOfRange("abc", 2024)
    ensures YearOutOfRange("1750s", 2024)
  {
    var abc := "abc";
    assert abc[0] == 'a';
    LettersAreNaN(abc, 2024);
    assert "1750s" == "1750" + "s";
    assert "1750"[..3] == "175" && "175"[..2] == "17" && "17"[..1] == "1";
    assert DigitsValue("1750") == 1750;
    YearCheckReadsLeadingDigits("1750", "s", 2024);
  }

  // ---------------------------------------------------------------------------
  // Changed fields

  /** The properties whose values differ between the two records, in key
      order: `Object.keys(newFormData).filter(...)`. */
  function ChangedKeys(a: CoinForm, b: CoinForm): (r: seq<FormKey>)
    ensures forall k :: k in r <==> Differs(a, b, k)
  {
    var p := (k: FormKey) => Differs(a, b, k);
    var r := Filter(FormKeys, p);
    forall k ensures k in r <==> Differs(a, b, k) {
      FormKeysComplete(k);
      FilterMember(FormKeys, p, k);
    }
    r
  }

  /** The `forEach` that deletes each changed property's error from a copy of
      the error object. */
  method DeleteErrors(errors: map<ErrorKey, string>, changed: seq<FormKey>) returns (r: map<ErrorKey, string>)
    ensures forall e :: e in r <==> e in errors && !(e.FieldError? && e.key in changed)
    ensures forall e :: e in r ==> r[e] == errors[e]
  {
    r := errors;
    for i := 0 to |changed|
      invariant forall e :: e in r <==> e in errors && !(e.FieldError? && e.key in changed[..i])
      invariant forall e :: e in r ==> r[e] == errors[e]
    {
      assert changed[..i + 1] == changed[..i] + [changed[i]];
      r := r - {FieldError(changed[i])};
    }
    assert changed[..|changed|] == changed;
  }

  // ---------------------------------------------------------------------------
  // The saved record

  /** Each comma-separated piece, trimmed. */
  function TrimAll(parts: seq<string>): (r: seq<string>)
    ensures |r| == |parts|
    ensures forall k :: 0 <= k < |r| ==> r[k] == Trim(parts[k])
  {
    Map(parts, Trim)
  }

  predicate NonEmpty(t: string)
  {
    t != ""
  }

  /** The saved tags: the comma-split pieces of the tags field, trimmed, the
      empty ones dropped; an empty field gives none. */
  function TagsOf(s: string): (tags: seq<string>)
    ensures forall k :: 0 <= k < |tags| ==> tags[k] != "" && IsTrimmed(tags[k])
    ensures s == "" ==> tags == []
  {
    if s == "" then []
    else
      var parts := TrimAll(Split(s, ','));
      var tags := Filter(parts, NonEmpty);
      forall k | 0 <= k < |tags| ensures IsTrimmed(tags[k]) {
        FilterMember(parts, NonEmpty, tags[k]);
        TrimmedPieceIsPiece(Split(s, ','), tags[k]);
      }
      tags
  }

  /** A text is a saved tag exactly when it is a non-empty, trimmed
      comma-split piece of a non-empty tags field. */
  lemma TagsAreTrimmedPieces(s: string, t: string)
    ensures t in TagsOf(s) <==> s != "" && t != "" && exists piece :: piece in Split(s, ',') && t == Trim(piece)
  {
    if s != "" {
      FilterMember(TrimAll(Split(s, ',')), NonEmpty, t);
      if t in TrimAll(Split(s, ',')) {
        TrimmedPieceIsPiece(Split(s, ','), t);
      }
      if exists piece :: piece in Split(s, ',') && t == Trim(piece) {
        PieceIsTrimmedPiece(Split(s, ','), t);
      }
    }
  }

  lemma TrimmedPieceIsPiece(pieces: seq<string>, t: string)
    requires t in TrimAll(pieces)
    ensures exists piece :: piece in pieces && t == Trim(piece)
  {
    var j :| 0 <= j < |TrimAll(pieces)| && TrimAll(pieces)[j] == t;
    assert pieces[j] in pieces;
  }

  lemma PieceIsTrimmedPiece(pieces: seq<string>, t: string)
    requires exists piece :: piece in pieces && t == Trim(piece)
    ensures t in TrimAll(pieces)
  {
    var piece :| piece in pieces && t == Trim(piece);
    var j :| 0 <= j < |pieces| && pieces[j] == piece;
    assert TrimAll(pieces)[j] == t;
  }

  /** The saved pictures: front then rear, each only when set. */
  function SavedImages(f: CoinForm): (images: seq<string>)
    ensures |images| <= 2
    ensures Truthy(f.frontImage) ==> |images| >= 1 && images[0] == f.frontImage.value
    ensures Truthy(f.rearImage) ==> |images| >= 1 && images[|images| - 1] == f.rearImage.value
    ensures |images| == (if Truthy(f.frontImage) then 1 else 0) + (if Truthy(f.rearImage) then 1 else 0)
  {
    (if Truthy(f.frontImage) then [f.frontImage.value] else [])
    + (if Truthy(f.rearImage) then [f.rearImage.value] else [])
  }

  /** A removed picture is not saved, and the other picture is saved as
      before. */
  lemma RemovedImageIsNotSaved(f: CoinForm, s: ImageSlot)
    ensures var g := WithImage(f, s, None);
      && |SavedImages(g)| == (if Truthy(Image(f, if s == FrontImage then RearImage else FrontImage)) then 1 else 0)
      && (Truthy(Image(f, if s == FrontImage then RearImage else FrontImage)) ==>
            SavedImages(g) == [Image(f, if s == FrontImage then RearImage else FrontImage).value])
  {
  }

  /** A coin handed to the page for editing; `props` holds the text
      properties it has, and the pictures come as a list. */
  datatype ExistingCoin = ExistingCoin(
    id: string,
    props: map<TextKey, string>,
    year: Option<int>,
    tags: Option<seq<string>>,
    images: Option<seq<string>>,
    dateAdded: string)

  /** `existingCoinData[k] || ''`. */
  function Prop(e: ExistingCoin, k: TextKey): string
  {
    if k in e.props then e.props[k] else ""
  }

  /** `images?.[i] || null`. */
  function ImageAt(e: ExistingCoin, i: nat): (img: Option<string>)
    ensures img.Some? ==> img.value != "" && e.images.Some? && i < |e.images.value| && img.value == e.images.value[i]
  {
    if e.images.Some? && i < |e.images.value| && e.images.value[i] != "" then Some(e.images.value[i]) else None
  }

  /** The form of edit mode: each text property from the coin or empty, the
      year in decimal, the tags joined with ", ", and the first two pictures. */
  function InitForm(e: ExistingCoin): (f: CoinForm)
  {
    CoinForm(
      Prop(e, Name), Prop(e, Denomination), Prop(e, CustomDenomination),
      if e.year.Some? then IntToString(e.year.value) else "",
      Prop(e, Condition), Prop(e, Rarity), Prop(e, Grade), Prop(e, MintLocation),
      Prop(e, MintMark), Prop(e, Weight), Prop(e, Diameter), Prop(e, Composition),
      Prop(e, CatalogNumber), Prop(e, AcquisitionDate), Prop(e, AcquisitionPrice),
      Prop(e, EstimatedValue),
      if e.tags.Some? then Join(e.tags.value, ", ") else "",
      Prop(e, Notes), ImageAt(e, 0), ImageAt(e, 1))
  }

  /** Each text property of the form comes from the coin, or is empty
      when the coin lacks it; the year is shown in decimal, the tags joined
      with ", ", and the first two pictures fill the two slots. */
  lemma InitFormFields(e: ExistingCoin)
    ensures forall k :: k != Year && k != Tags ==> Text(InitForm(e), k) == Prop(e, k)
    ensures InitForm(e).year == if e.year.Some? then IntToString(e.year.value) else ""
    ensures InitForm(e).tags == if e.tags.Some? then Join(e.tags.value, ", ") else ""
    ensures InitForm(e).frontImage == ImageAt(e, 0) && InitForm(e).rearImage == ImageAt(e, 1)
  {
  }

  /** Tags the page can show back unchanged: non-empty, already trimmed and
      free of commas. */
  predicate PlainTags(tags: seq<string>)
  {
    forall k :: 0 <= k < |tags| ==> tags[k] != "" && IsTrimmed(tags[k]) && ',' !in tags[k]
  }

  /** Each piece with a space in front. */
  function Prefixed(parts: seq<string>): (r: seq<string>)
    ensures |r| == |parts|
    ensures forall k :: 0 <= k < |r| ==> r[k] == " " + parts[k]
  {
    seq(|parts|, k requires 0 <= k < |parts| => " " + parts[k])
  }

  /** The pieces of a ", " join as a "," join sees them: every tag but the
      first carries the space in front. */
  function Spaced(tags: seq<string>): (r: seq<string>)
    requires |tags| >= 1
    ensures |r| == |tags| && r[0] == tags[0]
    ensures forall k :: 1 <= k < |r| ==> r[k] == " " + tags[k]
  {
    [tags[0]] + Prefixed(tags[1..])
  }

  /** A space in front of a ", " join is the "," join of the prefixed
      pieces. */
  lemma {:induction false} PrefixedJoin(parts: seq<string>)
    requires |parts| >= 1
    ensures " " + Join(parts, ", ") == Join(Prefixed(parts), ",")
    decreases |parts|
  {
    if |parts| > 1 {
      PrefixedJoin(parts[1..]);
      assert Prefixed(parts)[1..] == Prefixed(parts[1..]);
    }
  }

  /** Joining with ", " is joining the spaced tags with ",". */
  lemma JoinSpaced(tags: seq<string>)
    requires |tags| >= 1
    ensures Join(tags, ", ") == Join(Spaced(tags), ",")
  {
    if |tags| > 1 {
      var st := Spaced(tags);
      PrefixedJoin(tags[1..]);
      assert st[1..] == Prefixed(tags[1..]);
      CommaThenSpace(tags[0], Join(tags[1..], ", "));
    }
  }

  lemma CommaThenSpace(a: string, rest: string)
    ensures a + "," + (" " + rest) == a + ", " + rest
  {
    assert "," + " " == ", ";
    assert a + "," + (" " + rest) == a + ("," + " " + rest);
  }

  /** Trimming the spaced pieces of plain tags gives the tags back. */
  lemma TrimSpaced(tags: seq<string>)
    requires |tags| >= 1 && PlainTags(tags)
    ensures TrimAll(Spaced(tags)) == tags
  {
    var st := Spaced(tags);
    forall k | 0 <= k < |tags| ensures Trim(st[k]) == tags[k] {
      TrimOfTrimmed(tags[k]);
      if k > 0 {
        TrimDropsLeadingSpace(' ', tags[k]);
        assert st[k] == [' '] + tags[k];
      }
    }
  }

  /** Round trip: edit mode shows the tags joined with ", ", and saving
      splits them back into the same list, provided each tag is non-empty,
      trimmed and free of commas. */
  lemma TagsRoundTrip(tags: seq<string>)
    requires PlainTags(tags)
    ensures TagsOf(Join(tags, ", ")) == tags
  {
    if |tags| >= 1 {
      var st := Spaced(tags);
      JoinSpaced(tags);
      forall k | 0 <= k < |st| ensures ',' !in st[k] {
        if k > 0 {
          assert st[k] == [' '] + tags[k];
        }
      }
      SplitJoin(st, ',');
      assert Join(tags, ", ") != "" by {
        if |tags| > 1 {
          assert Join(tags, ", ") == tags[0] + ", " + Join(tags[1..], ", ");
        }
      }
      TrimSpaced(tags);
      FilterAll(tags, NonEmpty);
    }
  }

  /** The record a save produces: the form's properties with the id, the
      parsed year, the tag list, the picture list and the two dates laid over
      them. */
  datatype CoinRecord = CoinRecord(
    form: CoinForm,
    id: string,
    year: Option<int>,
    tags: seq<string>,
    images: seq<string>,
    dateAdded: string,
    dateModified: string)

  /** What `handleSave` assembles. In edit mode the coin's own id and date
      added are kept, and a missing coin makes the assembly throw (`None`);
      a new record gets the fresh id and the current time. */
  function BuildRecord(f: CoinForm, isEdit: bool, existing: Option<ExistingCoin>, freshId: string, nowIso: string): (r: Option<CoinRecord>)
    ensures r.None? <==> isEdit && existing.None?
    ensures r.Some? ==>
      && r.value.form == f && r.value.year == ParseInt(f.year)
      && r.value.tags == TagsOf(f.tags) && r.value.images == SavedImages(f) && r.value.dateModified == nowIso
    ensures r.Some? && isEdit ==> r.value.id == existing.value.id && r.value.dateAdded == existing.value.dateAdded
    ensures r.Some? && !isEdit ==> r.value.id == freshId && r.value.dateAdded == nowIso
  {
    if isEdit && existing.None? then None
    else
      Some(CoinRecord(
        f,
        if isEdit then existing.value.id else freshId,
        ParseInt(f.year),
        TagsOf(f.tags),
        SavedImages(f),
        if isEdit then existing.value.dateAdded else nowIso,
        nowIso))
  }

  /** Saving an edited coin without touching the form keeps its id, its date
      added, its year and, for plain tags, its tags. */
  lemma UnchangedEditKeepsCoin(e: ExistingCoin, freshId: string, nowIso: string)
    requires e.tags.Some? && PlainTags(e.tags.value)
    ensures var r := BuildRecord(InitForm(e), true, Some(e), freshId, nowIso);
      && r.Some? && r.value.id == e.id && r.value.dateAdded == e.dateAdded
      && r.value.tags == e.tags.value
      && (e.year.Some? ==> r.value.year == e.year)
  {
    TagsRoundTrip(e.tags.value);
    if e.year.Some? {
      ParseIntOfIntToString(e.year.value);
    }
  }

  // ---------------------------------------------------------------------------
  // The page

  class Page {
    const isEdit: bool
    const existing: Option<ExistingCoin>
    var formData: CoinForm
    var errors: map<ErrorKey, string>
    var isLoading: bool
    var showDeleteConfirm: bool
    var showSuccess: bool
    /** The records `handleSave` has assembled and logged so far; the
        page stores them nowhere else. */
    var logged: seq<CoinRecord>
    var navigations: seq<string>

    /** The page as it opens; in edit mode with a coin the form starts from
        that coin. */
    constructor (isEdit: bool, existing: Option<ExistingCoin>)
      ensures this.isEdit == isEdit && this.existing == existing
      ensures formData == if isEdit && existing.Some? then InitForm(existing.value) else EmptyCoinForm
      ensures errors == map[] && !isLoading && !showDeleteConfirm && !showSuccess && logged == [] && navigations == []
    {
      this.isEdit := isEdit;
      this.existing := existing;
      formData := if isEdit && existing.Some? then InitForm(existing.value) else EmptyCoinForm;
      errors := map[];
      isLoading := false;
      showDeleteConfirm := false;
      showSuccess := false;
      logged := [];
      navigations := [];
    }

    /** `handleFormChange`: the new record replaces the form, and exactly the
        errors of properties whose value changed are dropped. */
    method HandleFormChange(newFormData: CoinForm)
      modifies this
      ensures formData == newFormData
      ensures forall e :: e in errors <==>
        e in old(errors) && !(e.FieldError? && Differs(old(formData), newFormData, e.key))
      ensures forall e :: e in errors ==> errors[e] == old(errors)[e]
      ensures isLoading == old(isLoading) && showDeleteConfirm == old(showDeleteConfirm) && showSuccess == old(showSuccess)
      ensures logged == old(logged) && navigations == old(navigations)
    {
      var changed := ChangedKeys(formData, newFormData);
      formData := newFormData;
      if |changed| > 0 {
        errors := DeleteErrors(errors, changed);
      }
    }

    /** A new picture for one slot; errors are left alone. */
    method HandleImageChange(slot: ImageSlot, image: string)
      modifies this
      ensures formData == WithImage(old(formData), slot, Some(image))
      ensures errors == old(errors) && logged == old(logged) && navigations == old(navigations)
      ensures isLoading == old(isLoading) && showSuccess == old(showSuccess) && showDeleteConfirm == old(showDeleteConfirm)
    {
      formData := WithImage(formData, slot, Some(image));
    }

    /** Removing a picture empties its slot. */
    method HandleImageRemove(slot: ImageSlot)
      modifies this
      ensures formData == WithImage(old(formData), slot, None)
      ensures errors == old(errors) && logged == old(logged) && navigations == old(navigations)
      ensures isLoading == old(isLoading) && showSuccess == old(showSuccess) && showDeleteConfirm == old(showDeleteConfirm)
    {
      formData := WithImage(formData, slot, None);
    }

    /** `validateForm`: the errors are replaced by the error object of the
        form's checks, and the form is valid exactly when every check
        passes. */
    method ValidateForm(currentYear: int) returns (valid: bool)
      modifies this`errors
      ensures Reports(errors, Judge(formData, currentYear), currentYear)
      ensures valid <==> AllPass(Judge(formData, currentYear))
      ensures valid <==> |errors| == 0
    {
      var v := Judge(formData, currentYear);
      errors := ErrorsFor(v, currentYear);
      ReportsNothingIffAllPass(errors, v, currentYear);
      valid := |errors| == 0;
    }

    /** The synchronous part of `handleSave`: the form is validated, and
        loading starts only when it passes. */
    method BeginSave(currentYear: int) returns (proceed: bool)
      modifies this`errors, this`isLoading
      ensures Reports(errors, Judge(formData, currentYear), currentYear)
      ensures proceed <==> AllPass(Judge(formData, currentYear))
      ensures proceed ==> isLoading
      ensures !proceed ==> isLoading == old(isLoading)
    {
      proceed := ValidateForm(currentYear);
      if proceed {
        isLoading := true;
      }
    }

    /** The rest of `handleSave`, after the simulated call: the record is
        built from `snapshot`, the `formData` the page held when `BeginSave`
        ran (the handler belongs to that render and reads its form), and
        logged, and the success dialog opens; when the record cannot be
        assembled, the submit error is all that is left. Loading ends
        either way. Edits made while the call was pending stay in the form
        but not in the record. */
    method FinishSave(snapshot: CoinForm, freshId: string, nowIso: string)
      modifies this
      ensures !isLoading
      ensures var r := BuildRecord(snapshot, isEdit, existing, freshId, nowIso);
        && (r.Some? ==> logged == old(logged) + [r.value] && showSuccess && errors == old(errors))
        && (r.None? ==> logged == old(logged) && showSuccess == old(showSuccess) && errors == map[SubmitError := SaveFailed])
      ensures formData == old(formData) && navigations == old(navigations) && showDeleteConfirm == old(showDeleteConfirm)
    {
      var r := BuildRecord(snapshot, isEdit, existing, freshId, nowIso);
      Store(r);
    }

    /** Keeps an assembled record and opens the success dialog, or leaves
        the submit error when there is none. */
    method Store(r: Option<CoinRecord>)
      modifies this
      ensures !isLoading
      ensures r.Some? ==> logged == old(logged) + [r.value] && showSuccess && errors == old(errors)
      ensures r.None? ==> logged == old(logged) && showSuccess == old(showSuccess) && errors == map[SubmitError := SaveFailed]
      ensures formData == old(formData) && navigations == old(navigations) && showDeleteConfirm == old(showDeleteConfirm)
    {
      if r.Some? {
        logged := logged + [r.value];
        showSuccess := true;
      } else {
        errors := map[SubmitError := SaveFailed];
      }
      isLoading := false;
    }

    method HandleCancel()
      modifies this
      ensures navigations == old(navigations) + [DashboardPath]
      ensures formData == old(formData) && errors == old(errors) && logged == old(logged)
      ensures isLoading == old(isLoading) && showSuccess == old(showSuccess) && showDeleteConfirm == old(showDeleteConfirm)
    {
      navigations := navigations + [DashboardPath];
    }

    method HandleDelete()
      modifies this
      ensures showDeleteConfirm
      ensures formData == old(formData) && errors == old(errors) && logged == old(logged) && navigations == old(navigations)
      ensures isLoading == old(isLoading) && showSuccess == old(showSuccess)
    {
      showDeleteConfirm := true;
    }

    method BeginConfirmDelete()
      modifies this
      ensures isLoading
      ensures formData == old(formData) && errors == old(errors) && logged == old(logged) && navigations == old(navigations)
      ensures showSuccess == old(showSuccess) && showDeleteConfirm == old(showDeleteConfirm)
    {
      isLoading := true;
    }

    /** The rest of `confirmDelete`: back to the dashboard, or, without a
        coin to delete, the delete error. Either way loading ends and the
        confirmation closes. */
    method FinishConfirmDelete()
      modifies this
      ensures !isLoading && !showDeleteConfirm
      ensures existing.Some? ==> navigations == old(navigations) + [DashboardPath] && errors == old(errors)
      ensures existing.None? ==> navigations == old(navigations) && errors == map[SubmitError := DeleteFailed]
      ensures formData == old(formData) && logged == old(logged) && showSuccess == old(showSuccess)
    {
      if existing.Some? {
        navigations := navigations + [DashboardPath];
      } else {
        errors := map[SubmitError := DeleteFailed];
      }
      isLoading := false;
      showDeleteConfirm := false;
    }

    method HandleSuccessClose()
      modifies this
      ensures !showSuccess && navigations == old(navigations) + [DashboardPath]
      ensures formData == old(formData) && errors == old(errors) && logged == old(logged)
      ensures isLoading == old(isLoading) && showDeleteConfirm == old(showDeleteConfirm)
    {
      showSuccess := false;
      navigations := navigations + [DashboardPath];
    }
  }
}
