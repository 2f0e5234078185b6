/** The rule-based suggestion path: keep the items that no given criterion
    rules out, fall back to the whole wardrobe when none survive, and group
    the result by category. */
module RuleFilter {
  import opened Clothing

  /** The `matches` flag of the filter callback. An occasion or weather
      criterion rules an item out only when the item has a value of its own
      that differs; the colour preference rules it out whenever the colours
      differ. */
  predicate Matches(item: Item, prefs: Preferences, weather: string, occasion: string) {
    && !(occasion != "" && item.occasion != "" && item.occasion != occasion)
    && !(weather != "" && item.weather != "" && item.weather != weather)
    && !(prefs.color != "" && item.color != prefs.color)
  }

  /** `wardrobe.filter(...)` with the callback above. */
  function Survivors(wardrobe: seq<Item>, prefs: Preferences, weather: string, occasion: string): (r: seq<Item>)
    ensures forall x :: x in r <==> x in wardrobe && Matches(x, prefs, weather, occasion)
    ensures |r| <= |wardrobe|
  {
    if wardrobe == [] then []
    else
      assert wardrobe == [wardrobe[0]] + wardrobe[1..];
      (if Matches(wardrobe[0], prefs, weather, occasion) then [wardrobe[0]] else [])
      + Survivors(wardrobe[1..], prefs, weather, occasion)
  }

  /** The filter keeps the wardrobe's order: it distributes over concatenation. */
  lemma {:induction false} SurvivorsAppend(a: seq<Item>, b: seq<Item>, prefs: Preferences, weather: string, occasion: string)
    ensures Survivors(a + b, prefs, weather, occasion)
         == Survivors(a, prefs, weather, occasion) + Survivors(b, prefs, weather, occasion)
  {
    if a == [] {
      assert a + b == b;
    } else {
      assert (a + b)[1..] == a[1..] + b;
      SurvivorsAppend(a[1..], b, prefs, weather, occasion);
    }
  }

  /** The rule filter of the suggestion endpoint. */
  function Filter(wardrobe: seq<Item>, prefs: Preferences, weather: string, occasion: string): (g: Groups)
    // fallback: with no survivor, every item of a known category is suggested
    ensures (forall x :: x in wardrobe ==> !Matches(x, prefs, weather, occasion)) ==>
      g == GroupByCategory(wardrobe)
    // otherwise every suggested item passes the filter
    ensures (exists x :: x in wardrobe && Matches(x, prefs, weather, occasion)) ==>
      g == GroupByCategory(Survivors(wardrobe, prefs, weather, occasion)) &&
      forall x :: x in g.tops + g.bottoms + g.shoes + g.accessories ==> Matches(x, prefs, weather, occasion)
    // every suggested item comes from the wardrobe and sits in its own bucket
    ensures forall x :: x in g.tops ==> x in wardrobe && x.category == Top
    ensures forall x :: x in g.bottoms ==> x in wardrobe && x.category == Bottom
    ensures forall x :: x in g.shoes ==> x in wardrobe && x.category == Shoes
    ensures forall x :: x in g.accessories ==> x in wardrobe && x.category == Accessories
  {
    var survivors := Survivors(wardrobe, prefs, weather, occasion);
    assert |survivors| > 0 ==> survivors[0] in survivors;
    var suggestions := if |survivors| == 0 then wardrobe else survivors;
    GroupByCategory(suggestions)
  }

  /** Absence is not a mismatch: an item without an occasion (or without a
      weather) is judged as if that criterion had not been given. */
  lemma UnsetFieldNeverRejects(item: Item, prefs: Preferences, weather: string, occasion: string)
    ensures item.occasion == "" ==> Matches(item, prefs, weather, occasion) == Matches(item, prefs, weather, "")
    ensures item.weather == "" ==> Matches(item, prefs, weather, occasion) == Matches(item, prefs, "", occasion)
    ensures item.occasion == "" && item.weather == "" ==>
      (Matches(item, prefs, weather, occasion) <==> prefs.color == "" || item.color == prefs.color)
  {
  }

  /** A colour preference has no such guard: a set preference that differs
      from the item's colour always rejects it. */
  lemma ColorMismatchRejects(item: Item, prefs: Preferences, weather: string, occasion: string)
    requires prefs.color != "" && item.color != prefs.color
    ensures !Matches(item, prefs, weather, occasion)
  {
  }

  /** An empty wardrobe gives four empty buckets, without error. */
  lemma EmptyWardrobe(prefs: Preferences, weather: string, occasion: string)
    ensures Filter([], prefs, weather, occasion) == Groups([], [], [], [])
  {
  }
}
