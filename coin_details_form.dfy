/** The coin details form of the add/edit page: the form record it edits,
    the one-field update it hands to the page, its option lists and the
    mint-year options it builds in a loop. */
module CoinDetailsForm {
  import opened JsText

  // ---------------------------------------------------------------------------
  // The form record

  /** The text properties of the form record, in their declaration order. */
  datatype TextKey =
    | Name | Denomination | CustomDenomination | Year | Condition | Rarity | Grade
    | MintLocation | MintMark | Weight | Diameter | Composition | CatalogNumber
    | AcquisitionDate | AcquisitionPrice | EstimatedValue | Tags | Notes

  /** The two picture properties. */
  datatype ImageSlot = FrontImage | RearImage

  /** A property of the form record. */
  datatype FormKey = TextField(text: TextKey) | ImageField(slot: ImageSlot)

  /** The record the add/edit page keeps: eighteen strings and two pictures,
      `None` standing for `null`. */
  datatype CoinForm = CoinForm(
    name: string, denomination: string, customDenomination: string, year: string,
    condition: string, rarity: string, grade: string, mintLocation: string,
    mintMark: string, weight: string, diameter: string, composition: string,
    catalogNumber: string, acquisitionDate: string, acquisitionPrice: string,
    estimatedValue: string, tags: string, notes: string,
    frontImage: Option<string>, rearImage: Option<string>)

  const EmptyCoinForm: CoinForm :=
    CoinForm("", "", "", "", "", "", "", "", "", "", "", "", "", "", "", "", "", "", None, None)

  /** Every property of the record, in `Object.keys` order. */
  const FormKeys: seq<FormKey> := [
    TextField(Name), TextField(Denomination), TextField(CustomDenomination), TextField(Year),
    TextField(Condition), TextField(Rarity), TextField(Grade), TextField(MintLocation),
    TextField(MintMark), TextField(Weight), TextField(Diameter), TextField(Composition),
    TextField(CatalogNumber), TextField(AcquisitionDate), TextField(AcquisitionPrice),
    TextField(EstimatedValue), TextField(Tags), TextField(Notes),
    ImageField(FrontImage), ImageField(RearImage)]

  lemma FormKeysComplete(k: FormKey)
    ensures k in FormKeys
  {
    match k {
      case TextField(t) =>
        match t {
          case Name => assert FormKeys[0] == k;
          case Denomination => assert FormKeys[1] == k;
          case CustomDenomination => assert FormKeys[2] == k;
          case Year => assert FormKeys[3] == k;
          case Condition => assert FormKeys[4] == k;
          case Rarity => assert FormKeys[5] == k;
          case Grade => assert FormKeys[6] == k;
          case MintLocation => assert FormKeys[7] == k;
          case MintMark => assert FormKeys[8] == k;
          case Weight => assert FormKeys[9] == k;
          case Diameter => assert FormKeys[10] == k;
          case Composition => assert FormKeys[11] == k;
          case CatalogNumber => assert FormKeys[12] == k;
          case AcquisitionDate => assert FormKeys[13] == k;
          case AcquisitionPrice => assert FormKeys[14] == k;
          case EstimatedValue => assert FormKeys[15] == k;
          case Tags => assert FormKeys[16] == k;
          case Notes => assert FormKeys[17] == k;
        }
      case ImageField(s) =>
        match s {
          case FrontImage => assert FormKeys[18] == k;
          case RearImage => assert FormKeys[19] == k;
        }
    }
  }

  /** `formData[key]` for a text property. */
  function Text(f: CoinForm, k: TextKey): string
  {
    match k
    case Name => f.name
    case Denomination => f.denomination
    case CustomDenomination => f.customDenomination
    case Year => f.year
    case Condition => f.condition
    case Rarity => f.rarity
    case Grade => f.grade
    case MintLocation => f.mintLocation
    case MintMark => f.mintMark
    case Weight => f.weight
    case Diameter => f.diameter
    case Composition => f.composition
    case CatalogNumber => f.catalogNumber
    case AcquisitionDate => f.acquisitionDate
    case AcquisitionPrice => f.acquisitionPrice
    case EstimatedValue => f.estimatedValue
    case Tags => f.tags
    case Notes => f.notes
  }

  /** `formData[slot]`. */
  function Image(f: CoinForm, s: ImageSlot): Option<string>
  {
    match s
    case FrontImage => f.frontImage
    case RearImage => f.rearImage
  }

  /** `{...formData, [k]: value}` for a text property: that property takes
      the value and every other property keeps its own. */
  function WithText(f: CoinForm, k: TextKey, value: string): (g: CoinForm)
    ensures Text(g, k) == value
    ensures forall j :: j != k ==> Text(g, j) == Text(f, j)
    ensures g.frontImage == f.frontImage && g.rearImage == f.rearImage
  {
    match k
    case Name => f.(name := value)
    case Denomination => f.(denomination := value)
    case CustomDenomination => f.(customDenomination := value)
    case Year => f.(year := value)
    case Condition => f.(condition := value)
    case Rarity => f.(rarity := value)
    case Grade => f.(grade := value)
    case MintLocation => f.(mintLocation := value)
    case MintMark => f.(mintMark := value)
    case Weight => f.(weight := value)
    case Diameter => f.(diameter := value)
    case Composition => f.(composition := value)
    case CatalogNumber => f.(catalogNumber := value)
    case AcquisitionDate => f.(acquisitionDate := value)
    case AcquisitionPrice => f.(acquisitionPrice := value)
    case EstimatedValue => f.(estimatedValue := value)
    case Tags => f.(tags := value)
    case Notes => f.(notes := value)
  }

  /** `{...formData, [slot]: image}`. */
  function WithImage(f: CoinForm, s: ImageSlot, image: Option<string>): (g: CoinForm)
    ensures Image(g, s) == image
    ensures forall t :: t != s ==> Image(g, t) == Image(f, t)
    ensures forall j :: Text(g, j) == Text(f, j)
  {
    match s
    case FrontImage => f.(frontImage := image)
    case RearImage => f.(rearImage := image)
  }

  /** Whether the two records hold different values for a property
      (`!==`; pictures compare by their data). */
  predicate Differs(a: CoinForm, b: CoinForm, k: FormKey)
  {
    match k
    case TextField(t) => Text(a, t) != Text(b, t)
    case ImageField(s) => Image(a, s) != Image(b, s)
  }

  /** `handleInputChange`: the record handed to the page differs from the
      current one in the edited property at most. */
  function HandleInputChange(f: CoinForm, k: TextKey, value: string): (g: CoinForm)
    ensures Text(g, k) == value
    ensures forall j :: j != TextField(k) ==> !Differs(f, g, j)
  {
    WithText(f, k, value)
  }

  /** The custom-denomination input is on screen exactly when the
      denomination select holds 'custom'. */
  predicate CustomDenominationShown(f: CoinForm)
  {
    f.denomination == "custom"
  }

  // ---------------------------------------------------------------------------
  // Options

  datatype SelectOption = SelectOption(value: string, caption: string)

  /** A select's option list: a placeholder with the empty value first, then
      options whose values are distinct and not empty. */
  predicate WellFormedOptions(options: seq<SelectOption>)
  {
    && |options| >= 1 && options[0].value == ""
    && (forall i :: 1 <= i < |options| ==> options[i].value != "")
    && (forall i, j :: 0 <= i < j < |options| ==> options[i].value != options[j].value)
  }

  const DenominationOptions: seq<SelectOption> := [
    SelectOption("", "Select denomination"),
    SelectOption("1-paisa", "1 Paisa"), SelectOption("2-paisa", "2 Paisa"),
    SelectOption("5-paisa", "5 Paisa"), SelectOption("10-paisa", "10 Paisa"),
    SelectOption("20-paisa", "20 Paisa"), SelectOption("25-paisa", "25 Paisa"),
    SelectOption("50-paisa", "50 Paisa"), SelectOption("1-rupee", "₹1"),
    SelectOption("2-rupee", "₹2"), SelectOption("5-rupee", "₹5"),
    SelectOption("10-rupee", "₹10"), SelectOption("20-rupee", "₹20"),
    SelectOption("custom", "Other/Custom")]

  const ConditionOptions: seq<SelectOption> := [
    SelectOption("", "Select condition"),
    SelectOption("poor", "Poor (P-1)"), SelectOption("fair", "Fair (FR-2)"),
    SelectOption("about-good", "About Good (AG-3)"), SelectOption("good", "Good (G-4)"),
    SelectOption("very-good", "Very Good (VG-8)"), SelectOption("fine", "Fine (F-12)"),
    SelectOption("very-fine", "Very Fine (VF-20)"),
    SelectOption("extremely-fine", "Extremely Fine (EF-40)"),
    SelectOption("about-uncirculated", "About Uncirculated (AU-50)"),
    SelectOption("uncirculated", "Uncirculated (MS-60)"),
    SelectOption("brilliant-uncirculated", "Brilliant Uncirculated (MS-65)")]

  const MintLocationOptions: seq<SelectOption> := [
    SelectOption("", "Select mint location"),
    SelectOption("mumbai", "Mumbai (Bombay)"), SelectOption("kolkata", "Kolkata (Calcutta)"),
    SelectOption("hyderabad", "Hyderabad"), SelectOption("noida", "Noida"),
    SelectOption("unknown", "Unknown"), SelectOption("foreign", "Foreign Mint")]

  const RarityOptions: seq<SelectOption> := [
    SelectOption("", "Select rarity"),
    SelectOption("common", "Common"), SelectOption("uncommon", "Uncommon"),
    SelectOption("scarce", "Scarce"), SelectOption("rare", "Rare"),
    SelectOption("very-rare", "Very Rare"), SelectOption("extremely-rare", "Extremely Rare")]

  /** Each fixed list opens with its placeholder and offers every value
      once. */
  lemma DenominationOptionsWellFormed()
    ensures WellFormedOptions(DenominationOptions)
  {
    var o := DenominationOptions;
    forall i, j | 0 <= i < j < |o|
      ensures o[i].value != o[j].value
    {
      var a, b := o[i].value, o[j].value;
      assert |a| != |b| || a[0] != b[0] || a[1] != b[1] || a[2] != b[2] || a[3] != b[3];
    }
  }

  lemma ConditionOptionsWellFormed()
    ensures WellFormedOptions(ConditionOptions)
  {
    var o := ConditionOptions;
    forall i, j | 0 <= i < j < |o|
      ensures o[i].value != o[j].value
    {
      var a, b := o[i].value, o[j].value;
      assert |a| != |b| || a[0] != b[0] || a[1] != b[1] || (|a| > 5 && a[5] != b[5]);
    }
  }

  lemma MintLocationOptionsWellFormed()
    ensures WellFormedOptions(MintLocationOptions)
  {
  }

  lemma RarityOptionsWellFormed()
    ensures WellFormedOptions(RarityOptions)
  {
  }

  /** The option of one year: its decimal form as value and caption. */
  function YearOption(year: int): (o: SelectOption)
    ensures o.value == o.caption == IntToString(year)
  {
    SelectOption(IntToString(year), IntToString(year))
  }

  /** The options are the years from currentYear down, one per year. */
  predicate CountsDown(options: seq<SelectOption>, currentYear: int)
  {
    forall i :: 0 <= i < |options| ==> options[i] == YearOption(currentYear - i)
  }

  /** Appending the next year down keeps the list counting down. */
  lemma CountsDownAppend(options: seq<SelectOption>, currentYear: int)
    requires CountsDown(options, currentYear)
    ensures CountsDown(options + [YearOption(currentYear - |options|)], currentYear)
  {
  }

  /** The mint-year options, built as the form does: from the current year
      down to 1800, one per year, value and caption both the year's decimal
      form. */
  method YearOptions(currentYear: int) returns (options: seq<SelectOption>)
    ensures |options| == if currentYear >= 1800 then currentYear - 1800 + 1 else 0
    ensures CountsDown(options, currentYear)
    ensures |options| > 0 ==>
      options[0].value == IntToString(currentYear) && options[|options| - 1].value == IntToString(1800)
  {
    options := [];
    var year := currentYear;
    while year >= 1800
      invariant year <= currentYear
      invariant currentYear >= 1800 ==> year >= 1799
      invariant currentYear < 1800 ==> year == currentYear
      invariant |options| == currentYear - year
      invariant CountsDown(options, currentYear)
      decreases year - 1799
    {
      CountsDownAppend(options, currentYear);
      options := options + [YearOption(year)];
      year := year - 1;
    }
  }


  /** Different years have different decimal forms. */
  lemma IntToStringInjective(a: int, b: int)
    requires a != b
    ensures IntToString(a) != IntToString(b)
  {
    ParseIntOfIntToString(a);
    ParseIntOfIntToString(b);
  }

  /** The year select: its placeholder, then the generated years, newest
      first; each year appears once. */
  method YearSelectOptions(currentYear: int) returns (options: seq<SelectOption>)
    ensures WellFormedOptions(options)
    ensures |options| == 1 + (if currentYear >= 1800 then currentYear - 1800 + 1 else 0)
  {
    var years := YearOptions(currentYear);
    options := [SelectOption("", "Select year")] + years;
    YearValuesDistinct(years, currentYear);
    PlaceholderFirst(years, "Select year");
  }

  /** The decimal forms of consecutive years, counting down, are non-empty
      and pairwise different. */
  lemma YearValuesDistinct(years: seq<SelectOption>, currentYear: int)
    requires CountsDown(years, currentYear)
    ensures forall i :: 0 <= i < |years| ==> years[i].value != ""
    ensures forall i, j :: 0 <= i < j < |years| ==> years[i].value != years[j].value
  {
    forall i | 0 <= i < |years| ensures years[i].value != "" {
      assert years[i].value == IntToString(currentYear - i);
    }
    forall i, j | 0 <= i < j < |years|
      ensures years[i].value != years[j].value
    {
      assert years[i].value == IntToString(currentYear - i);
      assert years[j].value == IntToString(currentYear - j);
      IntToStringInjective(currentYear - i, currentYear - j);
    }
  }

  /** A placeholder in front of non-empty, pairwise different values makes
      a well-formed option list. */
  lemma PlaceholderFirst(options: seq<SelectOption>, caption: string)
    requires forall i :: 0 <= i < |options| ==> options[i].value != ""
    requires forall i, j :: 0 <= i < j < |options| ==> options[i].value != options[j].value
    ensures WellFormedOptions([SelectOption("", caption)] + options)
  {
    var all := [SelectOption("", caption)] + options;
    forall i, j | 0 <= i < j < |all|
      ensures all[i].value != all[j].value
    {
      assert all[j] == options[j - 1];
      if i > 0 {
        assert all[i] == options[i - 1];
      }
    }
  }


}
