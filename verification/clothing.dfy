/** Clothing items, the criteria of a suggestion request, and the grouping of
    items into the four category buckets that both the rule filter and the
    outfit composer use.

    An optional text field (an item's style, occasion or weather; the request's
    weather, occasion, colour or style) is the empty string when it is unset.
    Every test the server makes on these fields is a JavaScript truthiness test
    or a strict comparison against a non-empty value, and both treat an unset
    field and "" alike. */
module Clothing {

  /** A stored clothing item, as far as the recommendation core reads it. */
  datatype Item = Item(
    id: string,
    name: string,
    category: string,
    color: string,
    style: string,
    occasion: string,
    weather: string)

  /** The `preferences` object the client always sends. */
  datatype Preferences = Preferences(color: string, style: string)

  /** The criteria of one request. */
  datatype Criteria = Criteria(preferences: Preferences, weather: string, occasion: string)

  /** The grouped result, one bucket per known category. */
  datatype Groups = Groups(
    tops: seq<Item>,
    bottoms: seq<Item>,
    shoes: seq<Item>,
    accessories: seq<Item>)

  const Top := "top"
  const Bottom := "bottom"
  const Shoes := "shoes"
  const Accessories := "accessories"

  predicate KnownCategory(category: string) {
    category == Top || category == Bottom || category == Shoes || category == Accessories
  }

  /** `s.filter(item => item.category === category)`: the items of one
      category, with their multiplicities. */
  function OfCategory(s: seq<Item>, category: string): (r: seq<Item>)
    ensures forall x :: x in r <==> x in s && x.category == category
    ensures forall x: Item :: x.category == category ==> multiset(r)[x] == multiset(s)[x]
    ensures |r| <= |s|
  {
    if s == [] then []
    else
      assert s == [s[0]] + s[1..];
      (if s[0].category == category then [s[0]] else []) + OfCategory(s[1..], category)
  }

  /** Filtering keeps the original relative order: it distributes over
      concatenation, so each bucket is the input with the other items struck out. */
  lemma {:induction false} OfCategoryAppend(a: seq<Item>, b: seq<Item>, category: string)
    ensures OfCategory(a + b, category) == OfCategory(a, category) + OfCategory(b, category)
  {
    if a == [] {
      assert a + b == b;
    } else {
      assert (a + b)[1..] == a[1..] + b;
      OfCategoryAppend(a[1..], b, category);
    }
  }

  /** The four bucket filters of the grouping step. */
  function GroupByCategory(s: seq<Item>): (g: Groups)
    ensures forall x :: x in g.tops <==> x in s && x.category == Top
    ensures forall x :: x in g.bottoms <==> x in s && x.category == Bottom
    ensures forall x :: x in g.shoes <==> x in s && x.category == Shoes
    ensures forall x :: x in g.accessories <==> x in s && x.category == Accessories
    ensures forall x: Item :: !KnownCategory(x.category) ==>
      x !in g.tops && x !in g.bottoms && x !in g.shoes && x !in g.accessories
  {
    Groups(OfCategory(s, Top), OfCategory(s, Bottom), OfCategory(s, Shoes), OfCategory(s, Accessories))
  }
}
