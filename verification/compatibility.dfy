/** The two compatibility tables of the scorer: which target weather (or
    occasion) earns an item a partial-match bonus. Each table maps an item's
    value to the list of targets it is compatible with; a value that is not a
    key of the table is compatible with nothing. */
module Compatibility {

  /** `isWeatherCompatible`'s table, keyed by the item's weather. */
  const WeatherTable: map<string, seq<string>> := map[
    "summer" := ["spring"],
    "winter" := ["fall"],
    "spring" := ["summer", "fall"],
    "fall" := ["winter", "spring"]]

  /** `isOccasionCompatible`'s table, keyed by the item's occasion. */
  const OccasionTable: map<string, seq<string>> := map[
    "casual" := ["work"],
    "work" := ["casual"],
    "formal" := ["party"],
    "party" := ["formal"]]

  /** The weather pairs (item value, target value) the table lists, written
      out as a reference. */
  const WeatherPairs: set<(string, string)> := {
    ("summer", "spring"),
    ("winter", "fall"),
    ("spring", "summer"), ("spring", "fall"),
    ("fall", "winter"), ("fall", "spring")}

  const OccasionPairs: set<(string, string)> := {
    ("casual", "work"),
    ("work", "casual"),
    ("formal", "party"),
    ("party", "formal")}

  /** A table lookup with the corrected behaviour: only the table's own keys
      are consulted, and every other value is compatible with nothing. */
  function LookupCompatible(table: map<string, seq<string>>, key: string, target: string): bool {
    key in table && target in table[key]
  }

  function IsWeatherCompatible(itemWeather: string, targetWeather: string): (r: bool)
    ensures r <==> (itemWeather, targetWeather) in WeatherPairs
    ensures itemWeather !in WeatherTable ==> !r
  {
    LookupCompatible(WeatherTable, itemWeather, targetWeather)
  }

  function IsOccasionCompatible(itemOccasion: string, targetOccasion: string): (r: bool)
    ensures r <==> (itemOccasion, targetOccasion) in OccasionPairs
    ensures itemOccasion !in OccasionTable ==> !r
  {
    LookupCompatible(OccasionTable, itemOccasion, targetOccasion)
  }

  /** The lookups are written one way round (item value to target), but the
      data in both tables happens to be symmetric, and no value is listed as
      compatible with itself (an exact match is scored separately). */
  lemma TablesSymmetricAndIrreflexive(a: string, b: string)
    ensures IsWeatherCompatible(a, b) <==> IsWeatherCompatible(b, a)
    ensures IsOccasionCompatible(a, b) <==> IsOccasionCompatible(b, a)
    ensures !IsWeatherCompatible(a, a) && !IsOccasionCompatible(a, a)
  {
  }

  /** Named cases: spring is compatible with summer, summer is not with fall,
      work is with casual, formal is not with casual, and unknown values are
      compatible with nothing. */
  lemma CompatibilityExamples()
    ensures IsWeatherCompatible("spring", "summer")
    ensures !IsWeatherCompatible("summer", "fall")
    ensures IsOccasionCompatible("work", "casual")
    ensures !IsOccasionCompatible("formal", "casual")
    ensures !IsWeatherCompatible("monsoon", "summer") && !IsOccasionCompatible("sporty", "casual")
  {
  }

  // ---------------------------------------------------------------------------
  // The lookup as written. The source indexes a plain object literal with the
  // item's value and calls `includes` on what it finds, guarded only by
  // optional chaining. A plain object also answers for the names it inherits
  // from Object.prototype; what it finds there is a function (or, for
  // "__proto__", Object.prototype itself), which is not nullish and has no
  // `includes`, so the call throws a TypeError.

  /** The property names every plain object inherits from Object.prototype
      (ECMAScript 2023, section 20.1.3, and Annex B.2.2). */
  const ObjectPrototypeMembers: set<string> := {
    "constructor", "hasOwnProperty", "isPrototypeOf", "propertyIsEnumerable",
    "toLocaleString", "toString", "valueOf", "__proto__",
    "__defineGetter__", "__defineSetter__", "__lookupGetter__", "__lookupSetter__"}

  /** What `table[key]` evaluates to. */
  datatype Property = OwnList(values: seq<string>) | InheritedMember | Undefined

  /** The result of a call that may throw. */
  datatype Outcome = Returned(value: bool) | ThrewTypeError

  function PropertyOf(table: map<string, seq<string>>, key: string): Property {
    if key in table then OwnList(table[key])
    else if key in ObjectPrototypeMembers then InheritedMember
    else Undefined
  }

  /** `table[key]?.includes(target) || false`, as the source evaluates it. */
  function CompatibleAsWritten(table: map<string, seq<string>>, key: string, target: string): (r: Outcome)
    ensures r == ThrewTypeError <==> key !in table && key in ObjectPrototypeMembers
  {
    match PropertyOf(table, key)
    case OwnList(values) => Returned(target in values)
    case InheritedMember => ThrewTypeError
    case Undefined => Returned(false)
  }

  /** Away from the inherited names, the code as written and the corrected
      lookup agree, for both tables. */
  lemma AsWrittenAgreesOffPrototype(key: string, target: string)
    requires key !in ObjectPrototypeMembers
    ensures CompatibleAsWritten(WeatherTable, key, target) == Returned(IsWeatherCompatible(key, target))
    ensures CompatibleAsWritten(OccasionTable, key, target) == Returned(IsOccasionCompatible(key, target))
  {
  }

  /** The discrepancy: an item whose occasion (free text on the upload form) is
      "toString" reaches the lookup whenever the request names another occasion,
      and the lookup throws instead of answering false. */
  lemma InheritedKeyThrows()
    ensures CompatibleAsWritten(OccasionTable, "toString", "work") == ThrewTypeError
    ensures CompatibleAsWritten(WeatherTable, "constructor", "summer") == ThrewTypeError
    ensures !IsOccasionCompatible("toString", "work") && !IsWeatherCompatible("constructor", "summer")
  {
  }
}
