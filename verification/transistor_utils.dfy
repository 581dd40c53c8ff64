/**
 * Transistor helpers: units attached to the numeric ratings, the extraction
 * of a transistor record from a scraped datasheet page, and the
 * classification of a transistor into application tags.
 */
module TransistorUtils {
  import opened Wrappers
  import opened Text
  import opened Numbers
  import opened ComponentTypes
  import opened Seqs

  // Units

  /** The ratings that receive a unit. */
  datatype Quantity =
    | CollectorCurrent
    | CollectorEmitterVoltage
    | CollectorBaseVoltage
    | EmitterBaseVoltage
    | PowerDissipation
    | JunctionTemperature
    | TransitionFrequency
    | CollectorCapacitance

  function RatingOf(r: Ratings, q: Quantity): Option<real> {
    match q
    case CollectorCurrent => r.maxCollectorCurrent
    case CollectorEmitterVoltage => r.maxCollectorEmitterVoltage
    case CollectorBaseVoltage => r.maxCollectorBaseVoltage
    case EmitterBaseVoltage => r.maxEmitterBaseVoltage
    case PowerDissipation => r.maxPowerDissipation
    case JunctionTemperature => r.maxJunctionTemperature
    case TransitionFrequency => r.transitionFrequency
    case CollectorCapacitance => r.collectorCapacitance
  }

  /** The fixed unit of each rating. */
  function UnitOf(q: Quantity): string {
    match q
    case CollectorCurrent => "A"
    case CollectorEmitterVoltage => "V"
    case CollectorBaseVoltage => "V"
    case EmitterBaseVoltage => "V"
    case PowerDissipation => "W"
    case JunctionTemperature => "°C"
    case TransitionFrequency => "MHz"
    case CollectorCapacitance => "pF"
  }

  datatype ParameterWithUnit = ParameterWithUnit(value: real, unit: string)

  /** The eight optional `...WithUnit` fields of a detailed transistor. */
  datatype UnitFields = UnitFields(
    maxCollectorCurrentWithUnit: Option<ParameterWithUnit>,
    maxCollectorEmitterVoltageWithUnit: Option<ParameterWithUnit>,
    maxCollectorBaseVoltageWithUnit: Option<ParameterWithUnit>,
    maxEmitterBaseVoltageWithUnit: Option<ParameterWithUnit>,
    maxPowerDissipationWithUnit: Option<ParameterWithUnit>,
    maxJunctionTemperatureWithUnit: Option<ParameterWithUnit>,
    transitionFrequencyWithUnit: Option<ParameterWithUnit>,
    collectorCapacitanceWithUnit: Option<ParameterWithUnit>)

  /** A transistor with its `...WithUnit` fields. */
  datatype DetailedTransistor = DetailedTransistor(transistor: TransistorComponent, withUnit: UnitFields)

  /** The `...WithUnit` field that belongs to `q`. */
  function FieldOf(u: UnitFields, q: Quantity): Option<ParameterWithUnit> {
    match q
    case CollectorCurrent => u.maxCollectorCurrentWithUnit
    case CollectorEmitterVoltage => u.maxCollectorEmitterVoltageWithUnit
    case CollectorBaseVoltage => u.maxCollectorBaseVoltageWithUnit
    case EmitterBaseVoltage => u.maxEmitterBaseVoltageWithUnit
    case PowerDissipation => u.maxPowerDissipationWithUnit
    case JunctionTemperature => u.maxJunctionTemperatureWithUnit
    case TransitionFrequency => u.transitionFrequencyWithUnit
    case CollectorCapacitance => u.collectorCapacitanceWithUnit
  }

  /** The `...WithUnit` value of `q`: its rating paired with its unit, when the rating is present. */
  function WithUnit(r: Ratings, q: Quantity): Option<ParameterWithUnit> {
    match RatingOf(r, q)
    case None => None
    case Some(v) => Some(ParameterWithUnit(v, UnitOf(q)))
  }

  /** The `...WithUnit` fields of all eight quantities. */
  function UnitEntries(r: Ratings): UnitFields {
    UnitFields(
      WithUnit(r, CollectorCurrent), WithUnit(r, CollectorEmitterVoltage),
      WithUnit(r, CollectorBaseVoltage), WithUnit(r, EmitterBaseVoltage),
      WithUnit(r, PowerDissipation), WithUnit(r, JunctionTemperature),
      WithUnit(r, TransitionFrequency), WithUnit(r, CollectorCapacitance))
  }

  /**
   * Exactly the quantities whose rating is present (zero included) get a
   * field, holding that same value and the quantity's unit.
   */
  lemma UnitEntriesMeaning(r: Ratings)
    ensures forall q :: FieldOf(UnitEntries(r), q).Some? <==> RatingOf(r, q).Some?
    ensures forall q | FieldOf(UnitEntries(r), q).Some? ::
      FieldOf(UnitEntries(r), q).value == ParameterWithUnit(RatingOf(r, q).value, UnitOf(q))
  {
    forall q ensures FieldOf(UnitEntries(r), q) == WithUnit(r, q) {
      match q
      case CollectorCurrent =>
      case CollectorEmitterVoltage =>
      case CollectorBaseVoltage =>
      case EmitterBaseVoltage =>
      case PowerDissipation =>
      case JunctionTemperature =>
      case TransitionFrequency =>
      case CollectorCapacitance =>
    }
  }

  /**
   * `enhanceTransistorWithUnits`: copies the transistor, then sets each
   * `...WithUnit` field whose rating is not `undefined` (zero included).
   */
  method EnhanceTransistorWithUnits(t: TransistorComponent) returns (d: DetailedTransistor)
    ensures d.transistor == t
    ensures d.withUnit == UnitEntries(t.ratings)
  {
    var r := t.ratings;
    var current: Option<ParameterWithUnit> := None;
    if r.maxCollectorCurrent.Some? {
      current := Some(ParameterWithUnit(r.maxCollectorCurrent.value, "A"));
    }
    assert current == WithUnit(r, CollectorCurrent);
    var vce: Option<ParameterWithUnit> := None;
    if r.maxCollectorEmitterVoltage.Some? {
      vce := Some(ParameterWithUnit(r.maxCollectorEmitterVoltage.value, "V"));
    }
    assert vce == WithUnit(r, CollectorEmitterVoltage);
    var vcb: Option<ParameterWithUnit> := None;
    if r.maxCollectorBaseVoltage.Some? {
      vcb := Some(ParameterWithUnit(r.maxCollectorBaseVoltage.value, "V"));
    }
    assert vcb == WithUnit(r, CollectorBaseVoltage);
    var veb: Option<ParameterWithUnit> := None;
    if r.maxEmitterBaseVoltage.Some? {
      veb := Some(ParameterWithUnit(r.maxEmitterBaseVoltage.value, "V"));
    }
    assert veb == WithUnit(r, EmitterBaseVoltage);
    var power: Option<ParameterWithUnit> := None;
    if r.maxPowerDissipation.Some? {
      power := Some(ParameterWithUnit(r.maxPowerDissipation.value, "W"));
    }
    assert power == WithUnit(r, PowerDissipation);
    var temperature: Option<ParameterWithUnit> := None;
    if r.maxJunctionTemperature.Some? {
      temperature := Some(ParameterWithUnit(r.maxJunctionTemperature.value, "°C"));
    }
    assert temperature == WithUnit(r, JunctionTemperature);
    var frequency: Option<ParameterWithUnit> := None;
    if r.transitionFrequency.Some? {
      frequency := Some(ParameterWithUnit(r.transitionFrequency.value, "MHz"));
    }
    assert frequency == WithUnit(r, TransitionFrequency);
    var capacitance: Option<ParameterWithUnit> := None;
    if r.collectorCapacitance.Some? {
      capacitance := Some(ParameterWithUnit(r.collectorCapacitance.value, "pF"));
    }
    assert capacitance == WithUnit(r, CollectorCapacitance);
    var u := UnitFields(current, vce, vcb, veb, power, temperature, frequency, capacitance);
    d := DetailedTransistor(t, u);
  }

  // extractValue

  /** `lines.find(matches)`, as the index of the first line that matches. */
  function FindFirst(lines: seq<string>, matches: string -> bool): (k: Option<nat>)
    ensures k.None? <==> forall i | 0 <= i < |lines| :: !matches(lines[i])
    ensures k.Some? ==>
      && k.value < |lines|
      && matches(lines[k.value])
      && forall i | 0 <= i < k.value :: !matches(lines[i])
  {
    if lines == [] then None
    else if matches(lines[0]) then Some(0)
    else
      assert forall i | 1 <= i < |lines| :: lines[i] == lines[1..][i - 1];
      match FindFirst(lines[1..], matches)
      case None => None
      case Some(k) => Some(k + 1)
  }
  /** Each line trimmed: the lines as the `find` test sees them. */
  function TrimAll(lines: seq<string>): (r: seq<string>)
    ensures |r| == |lines| && forall i | 0 <= i < |lines| :: r[i] == Trim(lines[i])
  {
    seq(|lines|, i requires 0 <= i < |lines| => Trim(lines[i]))
  }
  /**
   * `extractValue`: '' when no line starts with `prefix` once trimmed;
   * otherwise the first such line, with `prefix.length` characters cut from
   * the untrimmed line, then trimmed.
   */
  function ExtractValue(lines: seq<string>, prefix: string): (v: string)
    ensures Trimmed(v)
  {
    var trimmed := TrimAll(lines);
    match FindFirst(trimmed, t => StartsWith(t, prefix))
    case None => ""
    case Some(k) =>
      assert |prefix| <= |trimmed[k]| <= |lines[k]|;
      Trim(lines[k][|prefix|..])
  }

  /** Without a labelled line the value is empty. */
  lemma ExtractValueWithoutLabel(lines: seq<string>, prefix: string)
    requires forall i | 0 <= i < |lines| :: !StartsWith(Trim(lines[i]), prefix)
    ensures ExtractValue(lines, prefix) == ""
  {
    var trimmed := TrimAll(lines);
    assert forall i | 0 <= i < |trimmed| :: !StartsWith(trimmed[i], prefix);
  }

  lemma {:induction false} TrimEndKeepsPrefix(p: string, r: string)
    requires p != [] && !IsWhitespace(p[|p| - 1])
    ensures |p| <= |TrimEnd(p + r)| && TrimEnd(p + r)[..|p|] == p
    decreases |r|
  {
    if r != [] && IsWhitespace(r[|r| - 1]) {
      assert (p + r)[..|p + r| - 1] == p + r[..|r| - 1];
      TrimEndKeepsPrefix(p, r[..|r| - 1]);
    }
  }
  lemma FindFirstAt(lines: seq<string>, matches: string -> bool, k: nat)
    requires k < |lines| && matches(lines[k])
    requires forall i | 0 <= i < k :: !matches(lines[i])
    ensures FindFirst(lines, matches) == Some(k)
  {
  }
  /** The first labelled line gives the value: its text after `|prefix|` characters, trimmed. */
  lemma ExtractValueAt(lines: seq<string>, prefix: string, k: nat)
    requires k < |lines| && StartsWith(Trim(lines[k]), prefix)
    requires forall i | 0 <= i < k :: !StartsWith(Trim(lines[i]), prefix)
    ensures |prefix| <= |lines[k]| && ExtractValue(lines, prefix) == Trim(lines[k][|prefix|..])
  {
    FindFirstAt(TrimAll(lines), t => StartsWith(t, prefix), k);
  }

  /** A line made of whitespace, the label and the rest is labelled by it. */
  lemma PaddedLineIsLabelled(w: string, prefix: string, rest: string)
    requires AllWhitespace(w)
    requires prefix != [] && !IsWhitespace(prefix[0]) && !IsWhitespace(prefix[|prefix| - 1])
    ensures StartsWith(Trim(w + prefix + rest), prefix)
  {
    var body := prefix + rest;
    assert w + prefix + rest == w + body;
    assert body[0] == prefix[0];
    TrimAfterPadding(w, body);
    TrimEndKeepsPrefix(prefix, rest);
  }

  /** A line that starts with the label itself yields the rest of that line, trimmed. */
  lemma ExtractValueOfPrefixedLine(lines: seq<string>, prefix: string, k: nat, rest: string)
    requires prefix != [] && !IsWhitespace(prefix[0]) && !IsWhitespace(prefix[|prefix| - 1])
    requires k < |lines| && lines[k] == prefix + rest
    requires forall i | 0 <= i < k :: !StartsWith(Trim(lines[i]), prefix)
    ensures ExtractValue(lines, prefix) == Trim(rest)
  {
    var line := lines[k];
    assert StartsWith(Trim(line), prefix) by {
      TrimEndKeepsPrefix(prefix, rest);
    }
    ExtractValueAt(lines, prefix, k);
    assert line[|prefix|..] == rest;
  }

  /**
   * The cut is taken from the untrimmed line: on a line indented by `w` the
   * value keeps the last `|w|` characters of the label.
   */
  lemma ExtractValueOfIndentedLine(lines: seq<string>, w: string, prefix: string, rest: string, k: nat)
    requires w != [] && AllWhitespace(w) && |w| <= |prefix|
    requires !IsWhitespace(prefix[0]) && !IsWhitespace(prefix[|prefix| - 1])
    requires k < |lines| && lines[k] == w + prefix + rest
    requires forall i | 0 <= i < k :: !StartsWith(Trim(lines[i]), prefix)
    ensures ExtractValue(lines, prefix) == Trim(prefix[|prefix| - |w|..] + rest)
  {
    PaddedLineIsLabelled(w, prefix, rest);
    ExtractValueAt(lines, prefix, k);
    CutInsideLabel(w, prefix, rest);
  }

  /** Cutting `|prefix|` characters from `w + prefix + rest` keeps the last `|w|` characters of the label. */
  lemma CutInsideLabel(w: string, prefix: string, rest: string)
    requires |w| <= |prefix|
    ensures (w + prefix + rest)[|prefix|..] == prefix[|prefix| - |w|..] + rest
  {
    var line := w + prefix + rest;
    var r := prefix[|prefix| - |w|..] + rest;
    assert |line[|prefix|..]| == |r|;
    forall i | 0 <= i < |r| ensures line[|prefix|..][i] == r[i] {
      if i < |w| {
        assert line[|prefix| + i] == prefix[|prefix| - |w| + i];
      } else {
        assert line[|prefix| + i] == rest[i - |w|];
      }
    }
  }

  // extractTransistorFromScrapedData

  const TypeDesignatorLabel := "Type Designator:"
  const MaterialLabel := "Material of Transistor:"
  const PolarityLabel := "Polarity:"
  const PackageLabel := "Package:"
  const PowerLabel := "Maximum Collector Power Dissipation (Pc):"
  const CollectorBaseLabel := "Maximum Collector-Base Voltage |Vcb|:"
  const CollectorEmitterLabel := "Maximum Collector-Emitter Voltage |Vce|:"
  const EmitterBaseLabel := "Maximum Emitter-Base Voltage |Veb|:"
  const CurrentLabel := "Maximum Collector Current |Ic max|:"
  const GainLabel := "Forward Current Transfer Ratio (hFE), MIN:"
  const TemperatureLabel := "Max. Operating Junction Temperature (Tj):"
  const FrequencyLabel := "Transition Frequency (ft):"
  const CapacitanceLabel := "Collector Capacitance (Cc):"
  const PdfViewUrl := "https://alltransistors.com/adv/pdfview.php?doc="

  /** One match of the datasheet pattern: the size (`\d+K`), the title line and the PDF file name. */
  datatype DatasheetMatch = DatasheetMatch(size: string, title: string, file: string)

  /**
   * The results of the regular expressions the page is searched with: the
   * captured description and manufacturer texts (`None` when the pattern
   * does not match), the datasheet matches in the text after
   * "Datasheet (PDF)", and the part numbers found on the "Datasheet:" line.
   */
  datatype PagePatterns = PagePatterns(
    description: string -> Option<string>,
    manufacturer: string -> Option<string>,
    datasheets: string -> seq<DatasheetMatch>,
    partNumbers: string -> seq<string>)

  /** `s.substring(start, end)`: both ends clamped to the text, swapped when out of order. */
  function JsSubstring(s: string, start: int, end: int): (r: string)
    ensures |r| <= |s|
    ensures 0 <= start <= end <= |s| ==> r == s[start..end]
  {
    var a := if start < 0 then 0 else if start > |s| then |s| else start;
    var b := if end < 0 then 0 else if end > |s| then |s| else end;
    if a <= b then s[a..b] else s[b..a]
  }

  /** `substring` does not depend on the order of its arguments. */
  lemma JsSubstringSymmetric(s: string, start: int, end: int)
    ensures JsSubstring(s, start, end) == JsSubstring(s, end, start)
  {
  }

  /** `s.split('\n\n')[0]`: the text before the first blank line, or all of it. */
  function FirstParagraph(s: string): (p: string)
    ensures StartsWith(s, p)
    ensures !Contains(s, "\n\n") ==> p == s
  {
    var k := IndexOf(s, "\n\n");
    if k < 0 then s else s[..k]
  }

  /** `${x}` for an optional number: "undefined" when absent. */
  function NumberText(x: Option<real>, fmt: real -> string): string {
    match x
    case None => "undefined"
    case Some(v) => fmt(v)
  }

  /**
   * The description found on the page before the fallback: the trimmed
   * DESCRIPTION match; otherwise the first paragraph starting ten characters
   * after "Package:" (only when "Package:" is not at the very start), kept
   * when longer than 20 characters; otherwise empty.
   */
  function ScrapedDescription(text: string, found: Option<string>): (d: string)
    ensures Trimmed(d)
  {
    match found
    case Some(m) => Trim(m)
    case None =>
      var k := IndexOf(text, PackageLabel);
      if k > 0 then
        var para := FirstParagraph(JsSubstring(text, k + 10, |text|));
        if |para| > 20 then Trim(para) else ""
      else ""
  }

  /** The generated description used when the page gives none of at least 20 characters. */
  function FallbackDescription(polarity: string, material: string, vce: Option<real>, ic: Option<real>, fmt: real -> string): string {
    polarity + " " + material + " transistor with " + NumberText(vce, fmt) + "V collector-emitter voltage and "
    + NumberText(ic, fmt) + "A collector current capability."
  }

  /** The description: the scraped one when it has at least 20 characters, else the generated one. */
  function DescriptionOf(scraped: string, fallback: string): (d: string)
    requires |fallback| >= 20
    ensures |d| >= 20
    ensures |scraped| >= 20 ==> d == scraped
    ensures |scraped| < 20 ==> d == fallback
  {
    if |scraped| < 20 then fallback else scraped
  }

  /** The manufacturer: the trimmed match, or "Various" when the pattern does not match. */
  function ManufacturerOf(found: Option<string>): (m: string)
    ensures found.None? ==> m == "Various"
    ensures found.Some? ==> m == Trim(found.value)
  {
    match found
    case None => "Various"
    case Some(name) => Trim(name)
  }

  /** The `type` of the record and of its equivalents: "<polarity> Transistor" only for NPN and PNP. */
  function TransistorKind(polarity: string): (k: string)
    ensures polarity == "NPN" ==> k == "NPN Transistor"
    ensures polarity == "PNP" ==> k == "PNP Transistor"
    ensures polarity != "NPN" && polarity != "PNP" ==> k == "Transistor"
  {
    if polarity == "NPN" || polarity == "PNP" then polarity + " Transistor" else "Transistor"
  }

  /** The number after `key`, as `extractNumericValue(extractValue(lines, key))`. */
  function ScrapedNumber(lines: seq<string>, key: string): Option<real> {
    ExtractNumericValue(ExtractValue(lines, key))
  }

  /** The nine ratings read from the labelled lines; the noise level is not on the page. */
  function ScrapedRatings(lines: seq<string>): Ratings {
    Ratings(
      ScrapedNumber(lines, CurrentLabel), ScrapedNumber(lines, CollectorEmitterLabel),
      ScrapedNumber(lines, CollectorBaseLabel), ScrapedNumber(lines, EmitterBaseLabel),
      ScrapedNumber(lines, PowerLabel), ScrapedNumber(lines, TemperatureLabel),
      ScrapedNumber(lines, FrequencyLabel), ScrapedNumber(lines, CapacitanceLabel),
      ScrapedNumber(lines, GainLabel), None)
  }

  /** A space before digits and a unit that does not end in whitespace is all that `trim` removes. */
  lemma SpacedNumberTrimmed(d: string, unit: string)
    requires d != [] && AllDigits(d)
    requires unit == [] || !IsWhitespace(unit[|unit| - 1])
    ensures Trim(" " + (d + unit)) == d + unit
  {
    var value := d + unit;
    assert value[0] == d[0];
    DigitIsNotWhitespace(d[0]);
    SpaceIsWhitespace();
    TrimAfterPadding(" ", value);
    LastOfDigitsAndUnit(d, unit);
    TrimEndKeepsNonWhitespaceEnd(value);
  }

  lemma DigitIsNotWhitespace(c: char)
    requires IsDigit(c)
    ensures !IsWhitespace(c)
  {
  }

  lemma SpaceIsWhitespace()
    ensures AllWhitespace(" ")
  {
    assert IsWhitespace(" "[0]);
  }

  lemma LastOfDigitsAndUnit(d: string, unit: string)
    requires d != [] && AllDigits(d)
    requires unit == [] || !IsWhitespace(unit[|unit| - 1])
    ensures !IsWhitespace((d + unit)[|d + unit| - 1])
  {
    if unit == [] {
      assert (d + unit)[|d + unit| - 1] == d[|d| - 1];
    } else {
      assert (d + unit)[|d + unit| - 1] == unit[|unit| - 1];
    }
  }

  /** A labelled line `label value unit` gives back the whole number written on it. */
  lemma ScrapedNumberOfLine(lines: seq<string>, key: string, k: nat, n: nat, unit: string)
    requires key != [] && !IsWhitespace(key[0]) && !IsWhitespace(key[|key| - 1])
    requires k < |lines| && lines[k] == key + " " + NatToString(n) + unit
    requires forall i | 0 <= i < k :: !StartsWith(Trim(lines[i]), key)
    requires unit == [] || (!IsDigit(unit[0]) && unit[0] != '.' && !IsWhitespace(unit[|unit| - 1]))
    ensures ScrapedNumber(lines, key) == Some(n as real)
  {
    var d := NatToString(n);
    DigitsValueOfNatToString(n);
    assert lines[k] == key + (" " + (d + unit)) by {
      assert key + " " + d + unit == key + (" " + (d + unit));
    }
    ScrapedDigitsOfLine(lines, key, k, d, unit);
  }

  lemma ScrapedDigitsOfLine(lines: seq<string>, key: string, k: nat, d: string, unit: string)
    requires key != [] && !IsWhitespace(key[0]) && !IsWhitespace(key[|key| - 1])
    requires d != [] && AllDigits(d)
    requires k < |lines| && lines[k] == key + (" " + (d + unit))
    requires forall i | 0 <= i < k :: !StartsWith(Trim(lines[i]), key)
    requires unit == [] || (!IsDigit(unit[0]) && unit[0] != '.' && !IsWhitespace(unit[|unit| - 1]))
    ensures ScrapedNumber(lines, key) == Some(DigitsValue(d) as real)
  {
    ExtractValueOfPrefixedLine(lines, key, k, " " + (d + unit));
    SpacedNumberTrimmed(d, unit);
    ExtractNumericValueOfDigits(d, unit);
  }

  /** A spec entry: the number and its unit, or "N/A" when the number is absent or zero. */
  function SpecText(x: Option<real>, unit: string, fmt: real -> string): (s: string)
    ensures !Truthy(x) ==> s == "N/A"
    ensures Truthy(x) ==> s == fmt(x.value) + unit
  {
    if Truthy(x) then fmt(x.value) + unit else "N/A"
  }

  /** The twelve `specs` entries of a scraped record. */
  function SpecsOf(polarity: string, material: string, packageType: string, r: Ratings, fmt: real -> string): map<string, string> {
    map[
      "Polarity" := polarity,
      "Material" := material,
      "Package" := packageType,
      "Collector Power Dissipation" := SpecText(r.maxPowerDissipation, "W", fmt),
      "Collector-Base Voltage" := SpecText(r.maxCollectorBaseVoltage, "V", fmt),
      "Collector-Emitter Voltage" := SpecText(r.maxCollectorEmitterVoltage, "V", fmt),
      "Emitter-Base Voltage" := SpecText(r.maxEmitterBaseVoltage, "V", fmt),
      "Collector Current" := SpecText(r.maxCollectorCurrent, "A", fmt),
      "Current Gain (hFE)" := SpecText(r.hFE, "", fmt),
      "Junction Temperature" := SpecText(r.maxJunctionTemperature, "°C", fmt),
      "Transition Frequency" := SpecText(r.transitionFrequency, "MHz", fmt),
      "Collector Capacitance" := SpecText(r.collectorCapacitance, "pF", fmt)]
  }

  /** The title as it appears in the link: lowercased, each whitespace run replaced by "_". */
  function DatasheetSlug(title: string): string {
    ReplaceWhitespaceRuns(ToLower(title), "_")
  }

  /** The slug holds no whitespace, so the link has none from the title. */
  lemma DatasheetSlugHasNoWhitespace(title: string)
    ensures forall i | 0 <= i < |DatasheetSlug(title)| :: !IsWhitespace(DatasheetSlug(title)[i])
  {
    ReplaceWhitespaceRunsRemovesWhitespace(ToLower(title), "_");
  }

  /** The datasheet entry of one match: "<title> (<size>)" and the viewer link for the file. */
  function DatasheetOf(m: DatasheetMatch): Datasheet {
    var title := Trim(m.title);
    Datasheet(title + " (" + m.size + ")", PdfViewUrl + m.file + "&dire=_" + DatasheetSlug(title))
  }

  /** Every datasheet link opens the viewer, and every datasheet is named by its trimmed title. */
  lemma DatasheetOfLinks(m: DatasheetMatch)
    ensures StartsWith(DatasheetOf(m).url, PdfViewUrl)
    ensures StartsWith(DatasheetOf(m).name, Trim(m.title))
  {
    var title := Trim(m.title);
    StartsWithThree(PdfViewUrl, m.file, "&dire=_", DatasheetSlug(title));
    StartsWithThree(title, " (", m.size, ")");
  }

  /** A text starts with the first of the pieces it is joined from. */
  lemma StartsWithThree(a: string, b: string, c: string, d: string)
    ensures StartsWith(a + b + c + d, a)
  {
    assert (a + b + c + d)[..|a|] == a;
  }

  /** The datasheets loop: pushes one entry per match, in match order. */
  method CollectDatasheets(matches: seq<DatasheetMatch>) returns (datasheets: seq<Datasheet>)
    ensures datasheets == Map(matches, DatasheetOf)
  {
    datasheets := [];
    for i := 0 to |matches|
      invariant datasheets == Map(matches[..i], DatasheetOf)
    {
      MapPush(matches, i, DatasheetOf);
      datasheets := datasheets + [DatasheetOf(matches[i])];
    }
    assert matches[..|matches|] == matches;
  }

  /** The entry for a related part number. */
  function EquivalentOf(part: string, designator: string, polarity: string): EquivalentRef {
    EquivalentRef(part, part, TransistorKind(polarity), "Potential equivalent for " + designator, "Various", "/component/" + part, None)
  }

  /** The equivalents loop as a function: every part number other than the designator, in order. */
  function EquivalentsOf(parts: seq<string>, designator: string, polarity: string): seq<EquivalentRef> {
    if parts == [] then []
    else
      var last := parts[|parts| - 1];
      EquivalentsOf(parts[..|parts| - 1], designator, polarity)
      + (if last != designator then [EquivalentOf(last, designator, polarity)] else [])
  }

  /**
   * The equivalents never include the part itself; every other part number
   * found appears, each as a generic entry linking to its own page.
   */
  lemma {:induction false} EquivalentsOfMeaning(parts: seq<string>, designator: string, polarity: string)
    ensures |EquivalentsOf(parts, designator, polarity)| <= |parts|
    ensures forall e | e in EquivalentsOf(parts, designator, polarity) ::
      e.id != designator && e.id in parts && e == EquivalentOf(e.id, designator, polarity)
    ensures forall p | p in parts && p != designator :: EquivalentOf(p, designator, polarity) in EquivalentsOf(parts, designator, polarity)
  {
    if parts != [] {
      var init := parts[..|parts| - 1];
      var last := parts[|parts| - 1];
      EquivalentsOfMeaning(init, designator, polarity);
      assert parts == init + [last];
      assert forall p | p in parts :: p in init || p == last;
    }
  }

  /** The equivalents loop: skips the designator and pushes one entry per other part number. */
  method CollectEquivalents(parts: seq<string>, designator: string, polarity: string) returns (equivalents: seq<EquivalentRef>)
    ensures equivalents == EquivalentsOf(parts, designator, polarity)
  {
    equivalents := [];
    for i := 0 to |parts|
      invariant equivalents == EquivalentsOf(parts[..i], designator, polarity)
    {
      assert parts[..i + 1][..i] == parts[..i];
      if parts[i] != designator {
        equivalents := equivalents + [EquivalentOf(parts[i], designator, polarity)];
      }
    }
    assert parts[..|parts|] == parts;
  }

  /** The datasheet matches: searched from "Datasheet (PDF)" onwards, only when it occurs after the start. */
  function DatasheetMatches(text: string, patterns: PagePatterns): seq<DatasheetMatch> {
    var k := IndexOf(text, "Datasheet (PDF)");
    if k > 0 then patterns.datasheets(text[k..]) else []
  }

  /**
   * The related part numbers: searched on the text from "Datasheet:" to the
   * next line break, only when "Datasheet:" occurs after the start. Without a
   * following line break `substring` swaps its arguments and the text before
   * "Datasheet:" is searched instead.
   */
  function RelatedParts(text: string, patterns: PagePatterns): seq<string> {
    var k := IndexOf(text, "Datasheet:");
    if k > 0 then patterns.partNumbers(JsSubstring(text, k, IndexOfFrom(text, "\n", k))) else []
  }

  /** The record the extractor returns for a page, with its two loops as the functions they compute. */
  function ExtractedRecord(text: Option<string>, patterns: PagePatterns, fmt: real -> string): Option<TransistorComponent> {
    if !TruthyText(text) || !Contains(text.value, TypeDesignatorLabel) then None
    else
      var page := text.value;
      var lines := Split(page, '\n');
      var designator := ExtractValue(lines, TypeDesignatorLabel);
      var material := ExtractValue(lines, MaterialLabel);
      var polarity := ExtractValue(lines, PolarityLabel);
      var packageType := ExtractValue(lines, PackageLabel);
      var ratings := ScrapedRatings(lines);
      var fallback := FallbackDescription(polarity, material, ratings.maxCollectorEmitterVoltage, ratings.maxCollectorCurrent, fmt);
      Some(TransistorComponent(
        Component(
          designator, designator, TransistorKind(polarity),
          DescriptionOf(ScrapedDescription(page, patterns.description(page)), fallback),
          ManufacturerOf(patterns.manufacturer(page)),
          Some(polarity), Some(material), Some(packageType),
          Some(SpecsOf(polarity, material, packageType, ratings, fmt)),
          Some(Map(DatasheetMatches(page, patterns), DatasheetOf)),
          Some(EquivalentsOf(RelatedParts(page, patterns), designator, polarity)),
          "/component/" + designator),
        ratings))
  }

  /**
   * `extractTransistorFromScrapedData`: `None` (null) unless the page text is
   * present, non-empty and holds "Type Designator:"; otherwise the record
   * built from the labelled lines of the text.
   */
  method ExtractTransistorFromScrapedData(text: Option<string>, patterns: PagePatterns, fmt: real -> string)
    returns (r: Option<TransistorComponent>)
    ensures r == ExtractedRecord(text, patterns, fmt)
    ensures r.None? <==> !TruthyText(text) || !Contains(text.value, TypeDesignatorLabel)
    ensures r.Some? ==>
      var lines := Split(text.value, '\n');
      var designator := ExtractValue(lines, TypeDesignatorLabel);
      var polarity := ExtractValue(lines, PolarityLabel);
      var c := r.value.component;
      && c.id == designator && c.name == designator && c.href == "/component/" + designator
      && c.kind == TransistorKind(polarity)
      && c.polarity == Some(polarity)
      && c.material == Some(ExtractValue(lines, MaterialLabel))
      && c.package == Some(ExtractValue(lines, PackageLabel))
      && r.value.ratings == ScrapedRatings(lines)
      && |c.description| >= 20
      && (|ScrapedDescription(text.value, patterns.description(text.value))| >= 20 ==>
            c.description == ScrapedDescription(text.value, patterns.description(text.value)))
      && c.description == DescriptionOf(ScrapedDescription(text.value, patterns.description(text.value)),
           FallbackDescription(polarity, ExtractValue(lines, MaterialLabel), r.value.ratings.maxCollectorEmitterVoltage,
             r.value.ratings.maxCollectorCurrent, fmt))
      && c.manufacturer == ManufacturerOf(patterns.manufacturer(text.value))
      && c.specs == Some(SpecsOf(polarity, ExtractValue(lines, MaterialLabel), ExtractValue(lines, PackageLabel), r.value.ratings, fmt))
      && c.datasheets == Some(Map(DatasheetMatches(text.value, patterns), DatasheetOf))
      && c.equivalents == Some(EquivalentsOf(RelatedParts(text.value, patterns), designator, polarity))
  {
    if !TruthyText(text) || IndexOf(text.value, TypeDesignatorLabel) < 0 {
      return None;
    }
    var page := text.value;
    var lines := Split(page, '\n');
    var designator := ExtractValue(lines, TypeDesignatorLabel);
    var material := ExtractValue(lines, MaterialLabel);
    var polarity := ExtractValue(lines, PolarityLabel);
    var packageType := ExtractValue(lines, PackageLabel);
    var ratings := ScrapedRatings(lines);

    var scraped := ScrapedDescription(page, patterns.description(page));
    var fallback := FallbackDescription(polarity, material, ratings.maxCollectorEmitterVoltage, ratings.maxCollectorCurrent, fmt);
    var description := DescriptionOf(scraped, fallback);
    var manufacturer := ManufacturerOf(patterns.manufacturer(page));

    var datasheets := CollectDatasheets(DatasheetMatches(page, patterns));
    var equivalents := CollectEquivalents(RelatedParts(page, patterns), designator, polarity);

    var component := Component(
      designator, designator, TransistorKind(polarity), description, manufacturer,
      Some(polarity), Some(material), Some(packageType),
      Some(SpecsOf(polarity, material, packageType, ratings, fmt)),
      Some(datasheets), Some(equivalents), "/component/" + designator);
    r := Some(TransistorComponent(component, ratings));
  }

  // Application tags

  /** `x && x > t` for an optional rating. */
  predicate Above(x: Option<real>, t: real) {
    Truthy(x) && x.value > t
  }

  /** The application tags; `Name` gives the text the source uses for each. */
  datatype Tag = Power | HighFrequency | Rf | HighVoltage | HighCurrent | Audio | LowNoise | General {
    function Name(): string {
      match this
      case Power => "power"
      case HighFrequency => "high-frequency"
      case Rf => "rf"
      case HighVoltage => "high-voltage"
      case HighCurrent => "high-current"
      case Audio => "audio"
      case LowNoise => "low-noise"
      case General => "general"
    }
  }

  /** Position of each tag in the order `determineTransistorApplication` considers them; "general" comes last. */
  function Rank(tag: Tag): nat {
    match tag
    case Power => 0
    case HighFrequency => 1
    case Rf => 2
    case HighVoltage => 3
    case HighCurrent => 4
    case Audio => 5
    case LowNoise => 6
    case General => 7
  }

  /** The tag at position `k` of that order. */
  function TagAt(k: nat): (tag: Tag)
    requires k < 7
    ensures Rank(tag) == k
  {
    [Power, HighFrequency, Rf, HighVoltage, HighCurrent, Audio, LowNoise][k]
  }

  /** The threshold rule behind each tag; "general" has none. */
  predicate TagRule(r: Ratings, tag: Tag) {
    match tag
    case Power => Above(r.maxPowerDissipation, 5.0)
    case HighFrequency => Above(r.transitionFrequency, 100.0)
    case Rf => Above(r.transitionFrequency, 100.0) && r.transitionFrequency.value > 1000.0
    case HighVoltage => Above(r.maxCollectorEmitterVoltage, 100.0)
    case HighCurrent => Above(r.maxCollectorCurrent, 5.0)
    case Audio =>
      Above(r.hFE, 100.0) && Above(r.maxCollectorEmitterVoltage, 20.0) && Above(r.maxCollectorCurrent, 0.1)
    case LowNoise =>
      Truthy(r.collectorCapacitance) && r.collectorCapacitance.value < 10.0 && Above(r.hFE, 100.0)
    case General => false
  }

  /** `[tag]` when `holds`, otherwise nothing: one conditional push. */
  function Push(holds: bool, tag: Tag): seq<Tag> {
    if holds then [tag] else []
  }

  /** The tags among the first `k` of the order whose rule holds, in that order. */
  function TagsThatHold(r: Ratings, k: nat): seq<Tag>
    requires k <= 7
  {
    if k == 0 then [] else TagsThatHold(r, k - 1) + Push(TagRule(r, TagAt(k - 1)), TagAt(k - 1))
  }

  /** Exactly the tags among the first `k` whose rule holds, each once, in the order. */
  lemma {:induction false} TagsThatHoldMembers(r: Ratings, k: nat)
    requires k <= 7
    ensures forall t :: t in TagsThatHold(r, k) <==> Rank(t) < k && TagRule(r, t)
    ensures forall i, j | 0 <= i < j < |TagsThatHold(r, k)| :: Rank(TagsThatHold(r, k)[i]) < Rank(TagsThatHold(r, k)[j])
    ensures forall i | 0 <= i < |TagsThatHold(r, k)| :: Rank(TagsThatHold(r, k)[i]) < k
  {
    if k > 0 {
      TagsThatHoldMembers(r, k - 1);
      var tag := TagAt(k - 1);
      forall t ensures Rank(t) < k && TagRule(r, t) ==> Rank(t) < k - 1 || t == tag {
        if Rank(t) == k - 1 {
          match t
          case Power =>
          case HighFrequency =>
          case Rf =>
          case HighVoltage =>
          case HighCurrent =>
          case Audio =>
          case LowNoise =>
          case General =>
        }
      }
    }
  }

  /**
   * The application tags of a transistor: the tags whose rule holds, in
   * the order, or "general" alone when none holds.
   */
  function Applications(r: Ratings): seq<Tag> {
    var tagged := TagsThatHold(r, 7);
    if tagged == [] then [General] else tagged
  }

  /** The tags are distinct, a tag other than "general" appears exactly when its rule holds, and "general" only alone. */
  lemma ApplicationsMeaning(r: Ratings)
    ensures |Applications(r)| >= 1
    ensures forall i, j | 0 <= i < j < |Applications(r)| :: Applications(r)[i] != Applications(r)[j]
    ensures forall t | t != General :: t in Applications(r) <==> TagRule(r, t)
    ensures General in Applications(r) <==> forall t :: !TagRule(r, t)
    ensures General in Applications(r) ==> Applications(r) == [General]
    ensures Rf in Applications(r) ==> HighFrequency in Applications(r)
    ensures Power in Applications(r) <==> r.maxPowerDissipation.Some? && r.maxPowerDissipation.value > 5.0
  {
    var tagged := TagsThatHold(r, 7);
    TagsThatHoldMembers(r, 7);
    assert forall t :: Rank(t) < 7 <==> t != General;
    if tagged != [] {
      assert tagged[0] in tagged;
    }
  }

  /** The tags that hold, tag by tag in the order of the table. */
  lemma TagsThatHoldUnrolled(r: Ratings)
    ensures TagsThatHold(r, 1) == Push(TagRule(r, Power), Power)
    ensures TagsThatHold(r, 3) == TagsThatHold(r, 1) + Push(TagRule(r, HighFrequency), HighFrequency) + Push(TagRule(r, Rf), Rf)
    ensures TagsThatHold(r, 4) == TagsThatHold(r, 3) + Push(TagRule(r, HighVoltage), HighVoltage)
    ensures TagsThatHold(r, 5) == TagsThatHold(r, 4) + Push(TagRule(r, HighCurrent), HighCurrent)
    ensures TagsThatHold(r, 6) == TagsThatHold(r, 5) + Push(TagRule(r, Audio), Audio)
    ensures TagsThatHold(r, 7) == TagsThatHold(r, 6) + Push(TagRule(r, LowNoise), LowNoise)
  {
    assert TagsThatHold(r, 1) == [] + Push(TagRule(r, Power), Power);
  }

  /** `determineTransistorApplication`: pushes each tag whose rule holds, then "general" if none did. */
  method DetermineTransistorApplication(t: TransistorComponent) returns (applications: seq<Tag>)
    ensures applications == Applications(t.ratings)
  {
    var r := t.ratings;
    TagsThatHoldUnrolled(r);
    applications := [];
    if Truthy(r.maxPowerDissipation) && r.maxPowerDissipation.value > 5.0 {
      applications := applications + [Power];
    }
    assert applications == TagsThatHold(r, 1);
    if Truthy(r.transitionFrequency) && r.transitionFrequency.value > 100.0 {
      applications := applications + [HighFrequency];
      if r.transitionFrequency.value > 1000.0 {
        applications := applications + [Rf];
      }
    }
    assert applications == TagsThatHold(r, 3);
    if Truthy(r.maxCollectorEmitterVoltage) && r.maxCollectorEmitterVoltage.value > 100.0 {
      applications := applications + [HighVoltage];
    }
    assert applications == TagsThatHold(r, 4);
    if Truthy(r.maxCollectorCurrent) && r.maxCollectorCurrent.value > 5.0 {
      applications := applications + [HighCurrent];
    }
    assert applications == TagsThatHold(r, 5);
    if Truthy(r.hFE) && r.hFE.value > 100.0
      && Truthy(r.maxCollectorEmitterVoltage) && r.maxCollectorEmitterVoltage.value > 20.0
      && Truthy(r.maxCollectorCurrent) && r.maxCollectorCurrent.value > 0.1
    {
      applications := applications + [Audio];
    }
    assert applications == TagsThatHold(r, 6);
    if Truthy(r.collectorCapacitance) && r.collectorCapacitance.value < 10.0
      && Truthy(r.hFE) && r.hFE.value > 100.0
    {
      applications := applications + [LowNoise];
    }
    assert applications == TagsThatHold(r, 7);
    if |applications| == 0 {
      applications := applications + [General];
    }
  }

  const PowerAudioUse := "Audio power amplifiers, power supplies, motor control"
  const PowerUse := "Power supplies, motor drivers, switching regulators"
  const RfLowNoiseUse := "RF amplifiers, oscillators, mixers, low-noise front-ends"
  const RfUse := "RF circuits, oscillators, high-speed switching"
  const AudioUse := "Audio preamplifiers, audio drivers, audio output stages"
  const HighVoltageUse := "High-voltage drivers, CRT circuits, switching power supplies"
  const HighCurrentUse := "Power supplies, motor drivers, high-current switching"
  const LowNoiseUse := "Low-noise amplifiers, sensitive instrumentation, audio preamplifiers"
  const GeneralUse := "General-purpose amplification and switching applications"

  /**
   * `getTransistorApplications`: the text of the first rule that matches, in
   * the order power+audio, power, high-frequency+low-noise, high-frequency,
   * audio, high-voltage, high-current, low-noise, then the general fallback.
   */
  function GetTransistorApplications(t: TransistorComponent): (text: string)
    ensures var r := t.ratings;
      && (text == PowerAudioUse <==> TagRule(r, Power) && TagRule(r, Audio))
      && (text == PowerUse <==> TagRule(r, Power) && !TagRule(r, Audio))
      && (text == RfLowNoiseUse <==> !TagRule(r, Power) && TagRule(r, HighFrequency) && TagRule(r, LowNoise))
      && (text == RfUse <==> !TagRule(r, Power) && TagRule(r, HighFrequency) && !TagRule(r, LowNoise))
      && (text == AudioUse <==> !TagRule(r, Power) && !TagRule(r, HighFrequency) && TagRule(r, Audio))
      && (text == HighVoltageUse <==>
            !TagRule(r, Power) && !TagRule(r, HighFrequency) && !TagRule(r, Audio) && TagRule(r, HighVoltage))
      && (text == HighCurrentUse <==>
            !TagRule(r, Power) && !TagRule(r, HighFrequency) && !TagRule(r, Audio) && !TagRule(r, HighVoltage)
            && TagRule(r, HighCurrent))
      && (text == LowNoiseUse <==>
            !TagRule(r, Power) && !TagRule(r, HighFrequency) && !TagRule(r, Audio) && !TagRule(r, HighVoltage)
            && !TagRule(r, HighCurrent) && TagRule(r, LowNoise))
    ensures text == GeneralUse <==> Applications(t.ratings) == [General]
  {
    var apps := Applications(t.ratings);
    ApplicationsMeaning(t.ratings);
    if Power in apps && Audio in apps then PowerAudioUse
    else if Power in apps then PowerUse
    else if HighFrequency in apps && LowNoise in apps then RfLowNoiseUse
    else if HighFrequency in apps then RfUse
    else if Audio in apps then AudioUse
    else if HighVoltage in apps then HighVoltageUse
    else if HighCurrent in apps then HighCurrentUse
    else if LowNoise in apps then LowNoiseUse
    else GeneralUse
  }
}
