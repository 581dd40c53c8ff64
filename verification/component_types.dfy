/**
 * The catalogue records: a component as the pages and chunk files carry it,
 * and the transistor record with its optional numeric ratings.
 */
module ComponentTypes {
  import opened Wrappers

  datatype Datasheet = Datasheet(name: string, url: string)

  /** An entry of a component's `equivalents` list. */
  datatype EquivalentRef = EquivalentRef(
    id: string,
    name: string,
    kind: string,
    description: string,
    manufacturer: string,
    href: string,
    compatibilityScore: Option<real>)

  /** A catalogue component; `kind` is the source's `type` field. */
  datatype Component = Component(
    id: string,
    name: string,
    kind: string,
    description: string,
    manufacturer: string,
    polarity: Option<string>,
    material: Option<string>,
    package: Option<string>,
    specs: Option<map<string, string>>,
    datasheets: Option<seq<Datasheet>>,
    equivalents: Option<seq<EquivalentRef>>,
    href: string)

  /** The optional numeric ratings of a transistor, in the source's own units. */
  datatype Ratings = Ratings(
    maxCollectorCurrent: Option<real>,
    maxCollectorEmitterVoltage: Option<real>,
    maxCollectorBaseVoltage: Option<real>,
    maxEmitterBaseVoltage: Option<real>,
    maxPowerDissipation: Option<real>,
    maxJunctionTemperature: Option<real>,
    transitionFrequency: Option<real>,
    collectorCapacitance: Option<real>,
    hFE: Option<real>,
    noiseLevel: Option<real>)

  /** A transistor: a component together with its ratings. */
  datatype TransistorComponent = TransistorComponent(component: Component, ratings: Ratings)

  const NoRatings := Ratings(None, None, None, None, None, None, None, None, None, None)

  /** JavaScript truthiness of an optional number: present and not zero. */
  predicate Truthy(x: Option<real>) {
    x.Some? && x.value != 0.0
  }

  /** JavaScript truthiness of an optional text: present and not empty. */
  predicate TruthyText(x: Option<string>) {
    x.Some? && x.value != ""
  }

  /** `x || fallback` for an optional text. */
  function TextOr(x: Option<string>, fallback: string): (r: string)
    ensures TruthyText(x) ==> r == x.value
    ensures !TruthyText(x) ==> r == fallback
  {
    if TruthyText(x) then x.value else fallback
  }
}
