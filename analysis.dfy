/** `InfoPhoneApp.analyze_number`: from the text typed by the user to the
    `PhoneInfo` record the rest of the application displays. The phone-number
    library is not modelled; what it reports about a parsed number is an input
    (`NumberFacts`), and its parser is a function parameter. */
module Analysis {
  import opened Wrappers
  import opened PyText
  import opened Centroids

  /** A line-type code the name table does not list. The library numbers the
      twelve listed types 0 to 10 and 99, so an unlisted code is any other. */
  type UnlistedCode = c: nat | 10 < c && c != 99 witness 11

  /** The library's line types. `Unlisted` stands for any other code the
      library might return, which the name table does not list. */
  datatype NumberType =
    | FixedLine | Mobile | FixedLineOrMobile | TollFree | PremiumRate | SharedCost
    | Voip | PersonalNumber | Pager | Uan | Voicemail | UnknownType
    | Unlisted(code: UnlistedCode)

  /** What the library reports about one parsed number: `is_possible_number`,
      `is_valid_number`, the E.164 format, `region_code_for_number` (which may
      be `None`), `number_type`, the carrier and geographic descriptions in
      Spanish and English (empty when unknown) and the time zones. */
  datatype NumberFacts = NumberFacts(
    possible: bool,
    valid: bool,
    e164: string,
    regionCode: Option<string>,
    numberType: NumberType,
    carrierEs: string,
    carrierEn: string,
    descriptionEs: string,
    descriptionEn: string,
    timeZones: seq<string>)

  /** The library's `parse`: either the facts about a number or the message of
      a `NumberParseException`. */
  datatype ParseOutcome = Unparseable(reason: string) | Parsed(facts: NumberFacts)

  /** The two `ValueError`s `analyze_number` raises. */
  datatype AnalyzeError = EmptyNumber | NotANumber(reason: string)

  /** The `PhoneInfo` dataclass. The dataclass declares most fields optional,
      but `analyze_number`, its only producer, fills every one of them except
      `e164`; `centroid` stays optional because the map update tests it. */
  datatype PhoneInfo = PhoneInfo(
    raw: string,
    e164: Option<string>,
    region: string,
    valid: bool,
    numberType: string,
    carrier: string,
    description: string,
    timeZones: seq<string>,
    centroid: Option<Coord>)

  const NoCarrier := "No disponible"
  const NoDescription := "Ubicación no disponible"
  const UnknownRegion := "UNKNOWN"

  /** The text of each error, as the terminal shows it after "Error:". */
  function ErrorMessage(e: AnalyzeError): (m: string)
    ensures m != []
    ensures m == EmptyNumberText <==> e.EmptyNumber?
    ensures e.NotANumber? ==> EndsWith(m, e.reason)
  {
    match e
    case EmptyNumber => EmptyNumberText
    case NotANumber(reason) => "No se pudo interpretar el número: " + reason
  }

  const EmptyNumberText := "Número vacío"

  /** `TYPE_NAMES.get(ntype, str(ntype))`. */
  function TypeName(t: NumberType): (r: string)
    ensures r != []
    ensures t.Unlisted? ==> AllDigits(r) && DecimalValue(r) == t.code
  {
    match t
    case FixedLine => "FIJO"
    case Mobile => "MÓVIL"
    case FixedLineOrMobile => "FIJO/MÓVIL"
    case TollFree => "GRATUITO"
    case PremiumRate => "PRIMA"
    case SharedCost => "COSTO COMPARTIDO"
    case Voip => "VOIP"
    case PersonalNumber => "PERSONAL"
    case Pager => "BUSCAPERSONAS"
    case Uan => "UAN"
    case Voicemail => "BUZÓN"
    case UnknownType => "DESCONOCIDO"
    case Unlisted(code) => DecimalRoundTrip(code); Decimal(code)
  }

  /** A type name never starts with a digit unless the type is one the table
      does not list, so a listed name never collides with a code. */
  lemma TypeNameListed(t: NumberType)
    ensures TypeName(t) != []
    ensures IsDigit(TypeName(t)[0]) <==> t.Unlisted?
  {
  }

  /** Different line types are shown under different names. */
  lemma TypeNameInjective(a: NumberType, b: NumberType)
    ensures TypeName(a) == TypeName(b) ==> a == b
  {
    TypeNameListed(a);
    TypeNameListed(b);
    if a.Unlisted? && b.Unlisted? {
      DecimalInjective(a.code, b.code);
    }
  }

  /** `preferred or alternative or last` for strings: the first non-empty one,
      and `last` when both others are empty. */
  function Fallback(preferred: string, alternative: string, last: string): (r: string)
    ensures preferred != [] ==> r == preferred
    ensures preferred == [] && alternative != [] ==> r == alternative
    ensures preferred == [] && alternative == [] ==> r == last
  {
    Or(Or(preferred, alternative), last)
  }

  /** The record built from the stripped input and the library's facts. */
  function Describe(raw: string, f: NumberFacts): (info: PhoneInfo)
    ensures info.raw == raw && info.timeZones == f.timeZones
    ensures info.valid <==> f.possible && f.valid
    ensures info.e164.Some? <==> info.valid
    ensures info.e164.Some? ==> info.e164.value == f.e164
    ensures info.region != [] && info.carrier != [] && info.description != []
    ensures info.centroid == Some(CentroidFor(info.region))
  {
    var valid := f.possible && f.valid;
    var region := OptOr(f.regionCode, UnknownRegion);
    PhoneInfo(
      raw := raw,
      e164 := if valid then Some(f.e164) else None,
      region := region,
      valid := valid,
      numberType := TypeName(f.numberType),
      carrier := Fallback(f.carrierEs, f.carrierEn, NoCarrier),
      description := Fallback(f.descriptionEs, f.descriptionEn, NoDescription),
      timeZones := f.timeZones,
      centroid := Some(CentroidFor(region)))
  }

  /** `analyze_number(raw)`: strip, reject an empty input, parse, describe. */
  function Analyze(raw: string, parse: string -> ParseOutcome): (r: Result<PhoneInfo, AnalyzeError>)
    ensures r == Failure(EmptyNumber) <==> Strip(raw) == []
    ensures r.Success? ==> r.value.raw == Strip(raw) && r.value.raw != []
    ensures r.Success? ==>
              r.value.carrier != [] && r.value.description != []
              && r.value.region != [] && r.value.numberType != []
    ensures r.Success? ==> r.value.centroid == Some(CentroidFor(r.value.region))
    ensures r.Success? ==> (r.value.e164.Some? <==> r.value.valid)
    ensures Strip(raw) != [] ==> (r.Success? <==> parse(Strip(raw)).Parsed?)
    ensures Strip(raw) != [] && parse(Strip(raw)).Unparseable? ==>
              r == Failure(NotANumber(parse(Strip(raw)).reason))
  {
    var stripped := Strip(raw);
    if stripped == [] then Failure(EmptyNumber)
    else match parse(stripped)
      case Unparseable(reason) => Failure(NotANumber(reason))
      case Parsed(f) => Success(Describe(stripped, f))
  }

  /** An input made only of spaces is refused whatever the parser would say:
      it is refused before the parser is consulted. */
  lemma BlankInputRejected(raw: string, parse: string -> ParseOutcome)
    requires forall i :: 0 <= i < |raw| ==> IsSpace(raw[i])
    ensures Analyze(raw, parse) == Failure(EmptyNumber)
  {
    StripEmptyIff(raw);
  }

  /** The parser only ever sees the stripped input: two parsers that agree on
      it give the same analysis. */
  lemma ParserSeesStrippedInput(raw: string, p: string -> ParseOutcome, q: string -> ParseOutcome)
    requires p(Strip(raw)) == q(Strip(raw))
    ensures Analyze(raw, p) == Analyze(raw, q)
  {
  }

  /** Surrounding spaces do not change the analysis. */
  lemma AnalyzeIgnoresSurroundingSpace(raw: string, parse: string -> ParseOutcome)
    ensures Analyze(Strip(raw), parse) == Analyze(raw, parse)
  {
    StripIdempotent(raw);
  }

  /** What a successful analysis holds, field by field, in terms of the
      library's facts. */
  lemma AnalyzeFields(raw: string, parse: string -> ParseOutcome)
    requires Strip(raw) != [] && parse(Strip(raw)).Parsed?
    ensures var f := parse(Strip(raw)).facts;
      var r := Analyze(raw, parse);
      && r.Success?
      && r.value.valid == (f.possible && f.valid)
      && r.value.e164 == (if f.possible && f.valid then Some(f.e164) else None)
      && (f.regionCode.Some? && f.regionCode.value != [] ==> r.value.region == f.regionCode.value)
      && (f.regionCode.None? || f.regionCode.value == [] ==> r.value.region == UnknownRegion)
      && r.value.timeZones == f.timeZones
      && r.value.numberType == TypeName(f.numberType)
      && (f.carrierEs != [] ==> r.value.carrier == f.carrierEs)
      && (f.carrierEs == [] && f.carrierEn != [] ==> r.value.carrier == f.carrierEn)
      && (f.carrierEs == [] && f.carrierEn == [] ==> r.value.carrier == NoCarrier)
      && (f.descriptionEs != [] ==> r.value.description == f.descriptionEs)
      && (f.descriptionEs == [] && f.descriptionEn != [] ==> r.value.description == f.descriptionEn)
      && (f.descriptionEs == [] && f.descriptionEn == [] ==> r.value.description == NoDescription)
  {
  }

  /** A number whose region the library cannot tell is placed at the origin. */
  lemma UnknownRegionGoesToOrigin(raw: string, parse: string -> ParseOutcome)
    requires Strip(raw) != [] && parse(Strip(raw)).Parsed?
    requires parse(Strip(raw)).facts.regionCode.None?
    ensures Analyze(raw, parse).Success?
    ensures Analyze(raw, parse).value.centroid == Some(Origin)
  {
    UnknownRegionAtOrigin();
  }
}
