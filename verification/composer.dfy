/** `generateAIOutfits`: three attempts, each picking the best-scoring top,
    bottom and shoes and, on a coin flip, the best-scoring accessory; the
    non-empty outfits are returned ranked by score.

    `Math.random() > 0.3` is replaced by an injected sequence of coin flips,
    one per attempt. */
module Composer {
  import opened Clothing
  import opened Scoring
  import opened Ranking
  import opened Description

  const AttemptCount := 3

  /** An item together with its score, as the per-category `map` builds it. */
  datatype Scored = Scored(item: Item, score: nat)

  datatype Outfit = Outfit(id: nat, name: string, items: seq<Item>, score: nat, description: string)

  function ScoreOf(p: Scored): int { p.score }
  function OutfitScore(o: Outfit): int { o.score }
  function OutfitId(o: Outfit): int { o.id }

  /** `items.map(item => ({ item, score: scoreItem(item, ...) }))`. */
  function ScoreAll(items: seq<Item>, c: Criteria): seq<Scored> {
    seq(|items|, j requires 0 <= j < |items| => Scored(items[j], Score(items[j], c)))
  }

  /** `scored.sort((a, b) => b.score - a.score)[0]`: the head of the stable
      descending sort. */
  function BestOf(items: seq<Item>, c: Criteria): Scored
    requires |items| > 0
  {
    SortDesc(ScoreAll(items, c), ScoreOf)[0]
  }

  /** The pick of a category is its first item of maximal score: every item
      scores at most as much, and every item before it scores strictly less. */
  lemma BestOfIsFirstMaximum(items: seq<Item>, c: Criteria)
    requires |items| > 0
    ensures exists k :: 0 <= k < |items| && BestOf(items, c) == Scored(items[k], Score(items[k], c))
                        && (forall j :: 0 <= j < k ==> Score(items[j], c) < Score(items[k], c))
    ensures forall j :: 0 <= j < |items| ==> Score(items[j], c) <= BestOf(items, c).score
  {
    var s := ScoreAll(items, c);
    SortDescHead(s, ScoreOf);
    var k := FirstMax(s, ScoreOf);
    assert BestOf(items, c) == s[k];
    assert forall j :: 0 <= j < |items| ==> ScoreOf(s[j]) == Score(items[j], c);
  }

  /** The reference choice for one slot: the first item of largest score in
      the bucket, when the bucket has items and the slot is taken. */
  function Chosen(bucket: seq<Item>, c: Criteria, taken: bool): (r: seq<Item>)
    ensures |r| == SlotSize(bucket, taken)
    ensures |r| == 1 ==>
      exists k :: 0 <= k < |bucket| && r[0] == bucket[k]
        && (forall j :: 0 <= j < |bucket| ==> Score(bucket[j], c) <= Score(bucket[k], c))
        && (forall j :: 0 <= j < k ==> Score(bucket[j], c) < Score(bucket[k], c))
  {
    if |bucket| > 0 && taken then
      var s := ScoreAll(bucket, c);
      var k := FirstMax(s, ScoreOf);
      assert forall j :: 0 <= j < |bucket| ==> ScoreOf(s[j]) == Score(bucket[j], c);
      [bucket[k]]
    else []
  }

  /** The selection step for one category: score every item with
      `scoreItem`, sort descending and take the head. */
  method PickBest(items: seq<Item>, c: Criteria) returns (best: Item, score: nat)
    requires |items| > 0
    ensures Scored(best, score) == BestOf(items, c)
  {
    var scored: seq<Scored> := [];
    for k := 0 to |items|
      invariant |scored| == k
      invariant forall j :: 0 <= j < k ==> scored[j] == Scored(items[j], Score(items[j], c))
    {
      var s := ScoreItem(items[k], c);
      scored := scored + [Scored(items[k], s)];
    }
    assert scored == ScoreAll(items, c);
    var ranked := SortDesc(scored, ScoreOf);
    best, score := ranked[0].item, ranked[0].score;
  }

  /** The pick for one slot: the best item of the category, when the
      category has items and the slot is taken. */
  function Slot(bucket: seq<Item>, c: Criteria, taken: bool): seq<Scored> {
    if |bucket| > 0 && taken then [BestOf(bucket, c)] else []
  }

  /** The picks of one attempt, in the order top, bottom, shoes, accessory. */
  function Picks(g: Groups, c: Criteria, flip: bool): seq<Scored> {
    Slot(g.tops, c, true) + Slot(g.bottoms, c, true) + Slot(g.shoes, c, true) + Slot(g.accessories, c, flip)
  }

  function ItemsOf(ps: seq<Scored>): seq<Item> {
    seq(|ps|, j requires 0 <= j < |ps| => ps[j].item)
  }

  function TotalScore(ps: seq<Scored>): nat {
    if ps == [] then 0 else TotalScore(ps[..|ps| - 1]) + ps[|ps| - 1].score
  }

  /** The sum of the scores of some items, an independent reference for an
      outfit's score. */
  function SumScores(items: seq<Item>, c: Criteria): nat {
    if items == [] then 0 else SumScores(items[..|items| - 1], c) + Score(items[|items| - 1], c)
  }

  function DigitChar(d: nat): char
    requires d < 10
  {
    ('0' as int + d) as char
  }

  /** The decimal numeral of `n`, as a template literal renders it. */
  function Numeral(n: nat): string {
    if n < 10 then [DigitChar(n)] else Numeral(n / 10) + [DigitChar(n % 10)]
  }

  /** Attempt `i` (counting from 0) of the composer's loop. */
  function Attempt(g: Groups, c: Criteria, i: nat, flip: bool): Outfit {
    var ps := Picks(g, c, flip);
    Outfit(i + 1, "Outfit " + Numeral(i + 1), ItemsOf(ps), TotalScore(ps),
           Describe(ItemsOf(ps), c.weather, c.occasion))
  }

  /** The attempts of one request, as a function of the attempt number and
      its coin. */
  function Builder(g: Groups, c: Criteria): (nat, bool) -> Outfit {
    (i: nat, flip: bool) => Attempt(g, c, i, flip)
  }

  /** The outfits of the first `n` attempts, attempt `i` with coin `flips[i]`. */
  function Attempts(build: (nat, bool) -> Outfit, flips: seq<bool>, n: nat): seq<Outfit>
    requires n <= |flips|
  {
    if n == 0 then [] else Attempts(build, flips, n - 1) + [build(n - 1, flips[n - 1])]
  }

  /** The `if (outfit.items.length > 0) outfits.push(outfit)` filter. */
  function KeepNonEmpty(os: seq<Outfit>): seq<Outfit> {
    if os == [] then []
    else KeepNonEmpty(os[..|os| - 1]) + (if |os[|os| - 1].items| > 0 then [os[|os| - 1]] else [])
  }

  /** The composer's result for a wardrobe, criteria and coin flips. */
  function Compose(wardrobe: seq<Item>, c: Criteria, flips: seq<bool>): seq<Outfit>
    requires |flips| == AttemptCount
  {
    SortDesc(KeepNonEmpty(Attempts(Builder(GroupByCategory(wardrobe), c), flips, AttemptCount)), OutfitScore)
  }

  /** `generateAIOutfits`: collect the non-empty attempts, then sort them by
      descending score. */
  method GenerateOutfits(wardrobe: seq<Item>, c: Criteria, flips: seq<bool>) returns (outfits: seq<Outfit>)
    requires |flips| == AttemptCount
    ensures outfits == Compose(wardrobe, c, flips)
    ensures |outfits| <= AttemptCount
    ensures forall o :: o in outfits ==> |o.items| > 0 && 1 <= o.id <= AttemptCount
    ensures StablyOrdered(outfits, OutfitScore, OutfitId)
    ensures forall o :: o in outfits ==> o == Attempt(GroupByCategory(wardrobe), c, o.id - 1, flips[o.id - 1])
  {
    var kept := CollectAttempts(GroupByCategory(wardrobe), c, flips);
    outfits := SortDesc(kept, OutfitScore);
    ComposeShape(wardrobe, c, flips);
    ComposeMembers(wardrobe, c, flips);
  }

  /** The composer's loop: build each attempt's outfit by pushing the picked
      items and adding up their scores, and keep the non-empty ones. */
  method CollectAttempts(g: Groups, c: Criteria, flips: seq<bool>) returns (kept: seq<Outfit>)
    requires |flips| == AttemptCount
    ensures kept == KeepNonEmpty(Attempts(Builder(g, c), flips, AttemptCount))
  {
    kept := [];
    for i := 0 to AttemptCount
      invariant kept == KeepNonEmpty(Attempts(Builder(g, c), flips, i))
    {
      var outfit := BuildOutfit(g, c, i, flips[i]);
      assert outfit == Builder(g, c)(i, flips[i]);
      if |outfit.items| > 0 {
        kept := kept + [outfit];
      }
      NextAttempt(Builder(g, c), flips, i);
    }
  }

  /** One more turn of the loop appends attempt `i` when it is non-empty. */
  lemma NextAttempt(build: (nat, bool) -> Outfit, flips: seq<bool>, i: nat)
    requires i < |flips|
    ensures KeepNonEmpty(Attempts(build, flips, i + 1))
         == KeepNonEmpty(Attempts(build, flips, i))
            + (if |build(i, flips[i]).items| > 0 then [build(i, flips[i])] else [])
  {
    KeepNonEmptySnoc(Attempts(build, flips, i), build(i, flips[i]));
  }

  lemma KeepNonEmptySnoc(os: seq<Outfit>, o: Outfit)
    ensures KeepNonEmpty(os + [o]) == KeepNonEmpty(os) + (if |o.items| > 0 then [o] else [])
  {
    assert (os + [o])[..|os|] == os;
  }

  /** The body of the composer's loop: an outfit whose `items` receive one
      push per filled slot and whose `score` grows by the pick's score. */
  method BuildOutfit(g: Groups, c: Criteria, i: nat, flip: bool) returns (outfit: Outfit)
    ensures outfit == Attempt(g, c, i, flip)
  {
    var items: seq<Item> := [];
    var score: nat := 0;
    items, score := FillSlot(items, score, g.tops, c, true);
    assert items == ItemsOf(Slot(g.tops, c, true)) && score == TotalScore(Slot(g.tops, c, true));
    items, score := FillSlot(items, score, g.bottoms, c, true);
    items, score := FillSlot(items, score, g.shoes, c, true);
    items, score := FillSlot(items, score, g.accessories, c, flip);
    PicksBySlot(g, c, flip);
    AttemptOf(g, c, i, flip, items, score);
    outfit := Outfit(i + 1, "Outfit " + Numeral(i + 1), items, score, Describe(items, c.weather, c.occasion));
  }

  lemma AttemptOf(g: Groups, c: Criteria, i: nat, flip: bool, items: seq<Item>, score: nat)
    requires items == ItemsOf(Picks(g, c, flip)) && score == TotalScore(Picks(g, c, flip))
    ensures Attempt(g, c, i, flip)
         == Outfit(i + 1, "Outfit " + Numeral(i + 1), items, score, Describe(items, c.weather, c.occasion))
  {
  }

  /** One selection block of the loop body: when the category has items (and,
      for the accessory, the coin came up), push its best item and add its
      score. */
  method FillSlot(items: seq<Item>, score: nat, bucket: seq<Item>, c: Criteria, taken: bool)
    returns (items': seq<Item>, score': nat)
    ensures items' == items + ItemsOf(Slot(bucket, c, taken))
    ensures score' == score + TotalScore(Slot(bucket, c, taken))
  {
    items', score' := items, score;
    if |bucket| > 0 && taken {
      var best, s := PickBest(bucket, c);
      items', score' := items + [best], score + s;
      assert Slot(bucket, c, taken) == [Scored(best, s)];
      assert TotalScore([Scored(best, s)]) == s;
    } else {
      assert ItemsOf([]) == [];
    }
  }

  /** The items and score of an attempt, slot by slot. */
  lemma PicksBySlot(g: Groups, c: Criteria, flip: bool)
    ensures ItemsOf(Picks(g, c, flip))
         == ItemsOf(Slot(g.tops, c, true)) + ItemsOf(Slot(g.bottoms, c, true))
            + ItemsOf(Slot(g.shoes, c, true)) + ItemsOf(Slot(g.accessories, c, flip))
    ensures TotalScore(Picks(g, c, flip))
         == TotalScore(Slot(g.tops, c, true)) + TotalScore(Slot(g.bottoms, c, true))
            + TotalScore(Slot(g.shoes, c, true)) + TotalScore(Slot(g.accessories, c, flip))
  {
    var a, b, d, e := Slot(g.tops, c, true), Slot(g.bottoms, c, true), Slot(g.shoes, c, true),
                      Slot(g.accessories, c, flip);
    ConcatPicks(a, b);
    ConcatPicks(a + b, d);
    ConcatPicks(a + b + d, e);
  }

  lemma {:induction false} ConcatPicks(a: seq<Scored>, b: seq<Scored>)
    ensures ItemsOf(a + b) == ItemsOf(a) + ItemsOf(b)
    ensures TotalScore(a + b) == TotalScore(a) + TotalScore(b)
  {
    if b != [] {
      var b' := b[..|b| - 1];
      assert (a + b)[..|a + b| - 1] == a + b';
      ConcatPicks(a, b');
    } else {
      assert a + b == a;
    }
  }

  /** What the composer returns: at most three outfits, none empty, numbered
      1 to 3, ranked by non-increasing score, and attempts of equal score in
      attempt order (the sort is stable). */
  lemma ComposeShape(wardrobe: seq<Item>, c: Criteria, flips: seq<bool>)
    requires |flips| == AttemptCount
    ensures var r := Compose(wardrobe, c, flips);
      && |r| <= AttemptCount
      && (forall o :: o in r ==> |o.items| > 0 && 1 <= o.id <= AttemptCount)
      && StablyOrdered(r, OutfitScore, OutfitId)
  {
    var g := GroupByCategory(wardrobe);
    BuilderShape(g, c);
    AttemptsNumbered(Builder(g, c), g, flips, AttemptCount);
    RankedShape(Attempts(Builder(g, c), flips, AttemptCount));
  }

  /** Keeping the non-empty outfits of a numbered sequence and sorting them. */
  lemma RankedShape(attempts: seq<Outfit>)
    requires Numbered(attempts)
    ensures var r := SortDesc(KeepNonEmpty(attempts), OutfitScore);
      && |r| <= |attempts|
      && (forall o :: o in r ==> |o.items| > 0 && 1 <= o.id <= |attempts|)
      && StablyOrdered(r, OutfitScore, OutfitId)
  {
    var kept := KeepNonEmpty(attempts);
    KeepNonEmptyMembers(attempts);
    KeepNonEmptyOrdered(attempts);
    SortDescStable(kept, OutfitScore, OutfitId);
    var r := SortDesc(kept, OutfitScore);
    forall o | o in r ensures |o.items| > 0 && 1 <= o.id <= |attempts| {
      assert o in multiset(r);
      assert o in kept;
      var m :| 0 <= m < |attempts| && attempts[m] == o;
    }
  }

  /** The composer returns exactly the non-empty attempts: every outfit is
      the attempt its id names, and every attempt with items is returned. */
  lemma ComposeMembers(wardrobe: seq<Item>, c: Criteria, flips: seq<bool>)
    requires |flips| == AttemptCount
    ensures var g := GroupByCategory(wardrobe);
      forall o :: o in Compose(wardrobe, c, flips) ==>
        1 <= o.id <= AttemptCount && o == Attempt(g, c, o.id - 1, flips[o.id - 1])
    ensures var g := GroupByCategory(wardrobe);
      forall i :: 0 <= i < AttemptCount && |Attempt(g, c, i, flips[i]).items| > 0 ==>
        Attempt(g, c, i, flips[i]) in Compose(wardrobe, c, flips)
  {
    var g := GroupByCategory(wardrobe);
    var build := Builder(g, c);
    BuilderShape(g, c);
    BuiltMembers(build, g, flips, AttemptCount);
    assert Compose(wardrobe, c, flips) == SortDesc(KeepNonEmpty(Attempts(build, flips, AttemptCount)), OutfitScore);
    forall i: nat, f: bool ensures build(i, f) == Attempt(g, c, i, f) {
    }
  }

  /** The same for any builder that numbers its attempts from 1. */
  lemma BuiltMembers(build: (nat, bool) -> Outfit, g: Groups, flips: seq<bool>, n: nat)
    requires n <= |flips| && BuildsAttempts(build, g)
    ensures forall o :: o in SortDesc(KeepNonEmpty(Attempts(build, flips, n)), OutfitScore) ==>
      1 <= o.id <= n && o == build(o.id - 1, flips[o.id - 1])
    ensures forall i :: 0 <= i < n && |build(i, flips[i]).items| > 0 ==>
      build(i, flips[i]) in SortDesc(KeepNonEmpty(Attempts(build, flips, n)), OutfitScore)
  {
    AttemptsNumbered(build, g, flips, n);
    AttemptsIndex(build, flips, n);
    RankedMembers(Attempts(build, flips, n));
  }

  /** Attempt `j` is the builder's outfit for index `j` and its coin. */
  lemma {:induction false} AttemptsIndex(build: (nat, bool) -> Outfit, flips: seq<bool>, n: nat)
    requires n <= |flips|
    ensures |Attempts(build, flips, n)| == n
    ensures forall j :: 0 <= j < n ==> Attempts(build, flips, n)[j] == build(j, flips[j])
  {
    if n > 0 {
      AttemptsIndex(build, flips, n - 1);
    }
  }

  /** Ranking the non-empty outfits of a numbered sequence returns exactly
      those outfits, each found at the position its id names. */
  lemma RankedMembers(os: seq<Outfit>)
    requires Numbered(os)
    ensures forall o :: o in SortDesc(KeepNonEmpty(os), OutfitScore) ==>
      1 <= o.id <= |os| && o == os[o.id - 1] && |o.items| > 0
    ensures forall j :: 0 <= j < |os| && |os[j].items| > 0 ==> os[j] in SortDesc(KeepNonEmpty(os), OutfitScore)
  {
    var r := SortDesc(KeepNonEmpty(os), OutfitScore);
    KeepNonEmptyMembers(os);
    SameMembers(KeepNonEmpty(os), r);
    forall o | o in r ensures 1 <= o.id <= |os| && o == os[o.id - 1] && |o.items| > 0 {
      assert o in os;
      var j :| 0 <= j < |os| && os[j] == o;
      assert o.id == j + 1;
    }
  }

  lemma SameMembers(a: seq<Outfit>, b: seq<Outfit>)
    requires multiset(a) == multiset(b)
    ensures forall o :: o in a <==> o in b
  {
    forall o ensures o in a <==> o in b {
      assert o in a <==> o in multiset(a);
    }
  }

  /** The filter keeps exactly the non-empty attempts. */
  lemma {:induction false} KeepNonEmptyMembers(os: seq<Outfit>)
    ensures |KeepNonEmpty(os)| <= |os|
    ensures forall o :: o in KeepNonEmpty(os) <==> o in os && |o.items| > 0
  {
    if os != [] {
      var init := os[..|os| - 1];
      KeepNonEmptyMembers(init);
      assert os == init + [os[|os| - 1]];
    }
  }

  /** It keeps them in order: attempts numbered in increasing order stay so. */
  lemma {:induction false} KeepNonEmptyOrdered(os: seq<Outfit>)
    requires Numbered(os)
    ensures RankIncreasing(KeepNonEmpty(os), OutfitId)
  {
    if os != [] {
      var init, last := os[..|os| - 1], os[|os| - 1];
      KeepNonEmptyOrdered(init);
      KeepNonEmptyMembers(init);
      var k := KeepNonEmpty(init);
      var r := KeepNonEmpty(os);
      if |last.items| > 0 {
        assert r == k + [last];
        forall i, j | 0 <= i < j < |r| ensures OutfitId(r[i]) < OutfitId(r[j]) {
          if j == |k| {
            assert r[i] in init;
            var m :| 0 <= m < |init| && init[m] == r[i];
            assert os[m] == r[i];
          } else {
            assert r[i] == k[i] && r[j] == k[j];
          }
        }
      } else {
        assert r == k + [];
      }
    }
  }

  /** Outfits numbered 1, 2, 3, ... in sequence order. */
  ghost predicate Numbered(os: seq<Outfit>) {
    forall i :: 0 <= i < |os| ==> os[i].id == i + 1
  }

  /** The number of items of an attempt with this coin. */
  function AttemptSize(g: Groups, flip: bool): nat {
    SlotSize(g.tops, true) + SlotSize(g.bottoms, true) + SlotSize(g.shoes, true) + SlotSize(g.accessories, flip)
  }

  /** Outfit i has the number of items attempt i picks. */
  ghost predicate Sized(os: seq<Outfit>, g: Groups, flips: seq<bool>) {
    |os| <= |flips| && forall i :: 0 <= i < |os| ==> |os[i].items| == AttemptSize(g, flips[i])
  }

  /** Attempt i is outfit i + 1, numbered 1, 2, 3 in order, and holds the
      number of items its coin calls for. */
  lemma {:induction false} AttemptsNumbered(build: (nat, bool) -> Outfit, g: Groups, flips: seq<bool>, n: nat)
    requires n <= |flips|
    requires BuildsAttempts(build, g)
    ensures |Attempts(build, flips, n)| == n
    ensures Numbered(Attempts(build, flips, n))
    ensures Sized(Attempts(build, flips, n), g, flips)
  {
    if n > 0 {
      var prev := Attempts(build, flips, n - 1);
      AttemptsNumbered(build, g, flips, n - 1);
      var k: nat, f := n - 1, flips[n - 1];
      assert build(k, f).id == k + 1 && |build(k, f).items| == AttemptSize(g, f);
      NumberedSnoc(prev, build(k, f));
      SizedSnoc(prev, build(k, f), g, flips);
    }
  }

  /** What `AttemptShape` says of every attempt, for a builder. */
  ghost predicate BuildsAttempts(build: (nat, bool) -> Outfit, g: Groups) {
    forall i: nat, flip: bool :: build(i, flip).id == i + 1 && |build(i, flip).items| == AttemptSize(g, flip)
  }

  lemma BuilderShape(g: Groups, c: Criteria)
    ensures BuildsAttempts(Builder(g, c), g)
  {
    forall i: nat, flip: bool
      ensures Builder(g, c)(i, flip).id == i + 1 && |Builder(g, c)(i, flip).items| == AttemptSize(g, flip)
    {
      AttemptShape(g, c, i, flip);
    }
  }

  lemma SizedSnoc(os: seq<Outfit>, o: Outfit, g: Groups, flips: seq<bool>)
    requires Sized(os, g, flips) && |os| < |flips| && |o.items| == AttemptSize(g, flips[|os|])
    ensures Sized(os + [o], g, flips)
  {
  }

  lemma AttemptId(g: Groups, c: Criteria, i: nat, flip: bool)
    ensures Attempt(g, c, i, flip).id == i + 1
  {
  }

  lemma NumberedSnoc(os: seq<Outfit>, o: Outfit)
    requires Numbered(os) && o.id == |os| + 1
    ensures Numbered(os + [o])
  {
  }

  /** The items and score of an attempt are those of its picks. */
  lemma AttemptParts(g: Groups, c: Criteria, i: nat, flip: bool)
    ensures Attempt(g, c, i, flip).items == ItemsOf(Picks(g, c, flip))
    ensures Attempt(g, c, i, flip).score == TotalScore(Picks(g, c, flip))
  {
  }

  function SlotSize(bucket: seq<Item>, taken: bool): nat {
    if |bucket| > 0 && taken then 1 else 0
  }

  /** One slot holds the best item of its bucket, or nothing, and its score is
      that item's score. */
  lemma SlotFacts(bucket: seq<Item>, c: Criteria, taken: bool)
    ensures ItemsOf(Slot(bucket, c, taken)) == Chosen(bucket, c, taken)
    ensures |ItemsOf(Slot(bucket, c, taken))| == SlotSize(bucket, taken)
    ensures forall x :: x in ItemsOf(Slot(bucket, c, taken)) ==> x in bucket
    ensures TotalScore(Slot(bucket, c, taken)) == SumScores(ItemsOf(Slot(bucket, c, taken)), c)
  {
    if |bucket| > 0 && taken {
      SortDescHead(ScoreAll(bucket, c), ScoreOf);
      var k := FirstMax(ScoreAll(bucket, c), ScoreOf);
      assert BestOf(bucket, c) == ScoreAll(bucket, c)[k] == Scored(bucket[k], Score(bucket[k], c));
      assert ItemsOf(Slot(bucket, c, taken)) == [bucket[k]];
      assert SumScores([bucket[k]], c) == Score(bucket[k], c);
      assert TotalScore([BestOf(bucket, c)]) == BestOf(bucket, c).score;
    } else {
      assert ItemsOf([]) == [];
    }
  }

  lemma {:induction false} SumScoresAppend(a: seq<Item>, b: seq<Item>, c: Criteria)
    ensures SumScores(a + b, c) == SumScores(a, c) + SumScores(b, c)
  {
    if b == [] {
      assert a + b == a;
    } else {
      assert (a + b)[..|a + b| - 1] == a + b[..|b| - 1];
      SumScoresAppend(a, b[..|b| - 1], c);
    }
  }

  /** One attempt: a top, a bottom and shoes when the wardrobe has them, an
      accessory when it has one and the coin came up; every item comes from
      its bucket, and the outfit's score is the sum of its items' scores. */
  lemma AttemptShape(g: Groups, c: Criteria, i: nat, flip: bool)
    ensures var o := Attempt(g, c, i, flip);
      && o.id == i + 1
      && o.items == Chosen(g.tops, c, true) + Chosen(g.bottoms, c, true)
                    + Chosen(g.shoes, c, true) + Chosen(g.accessories, c, flip)
      && |o.items| == AttemptSize(g, flip)
      && (forall x :: x in o.items ==> x in g.tops || x in g.bottoms || x in g.shoes || x in g.accessories)
      && o.score == SumScores(o.items, c)
  {
    AttemptId(g, c, i, flip);
    AttemptParts(g, c, i, flip);
    PicksShape(g, c, flip);
  }

  lemma PicksShape(g: Groups, c: Criteria, flip: bool)
    ensures var items := ItemsOf(Picks(g, c, flip));
      && items == Chosen(g.tops, c, true) + Chosen(g.bottoms, c, true)
                  + Chosen(g.shoes, c, true) + Chosen(g.accessories, c, flip)
      && |items| == AttemptSize(g, flip)
      && (forall x :: x in items ==> x in g.tops || x in g.bottoms || x in g.shoes || x in g.accessories)
      && TotalScore(Picks(g, c, flip)) == SumScores(items, c)
  {
    SlotFacts(g.tops, c, true);
    SlotFacts(g.bottoms, c, true);
    SlotFacts(g.shoes, c, true);
    SlotFacts(g.accessories, c, flip);
    JoinSlots(Slot(g.tops, c, true), Slot(g.bottoms, c, true), Slot(g.shoes, c, true),
              Slot(g.accessories, c, flip), c);
  }

  /** Putting four slots together adds up their sizes, members and scores. */
  lemma JoinSlots(a: seq<Scored>, b: seq<Scored>, d: seq<Scored>, e: seq<Scored>, c: Criteria)
    requires TotalScore(a) == SumScores(ItemsOf(a), c) && TotalScore(b) == SumScores(ItemsOf(b), c)
    requires TotalScore(d) == SumScores(ItemsOf(d), c) && TotalScore(e) == SumScores(ItemsOf(e), c)
    ensures var items := ItemsOf(a + b + d + e);
      && items == ItemsOf(a) + ItemsOf(b) + ItemsOf(d) + ItemsOf(e)
      && |items| == |a| + |b| + |d| + |e|
      && (forall x :: x in items ==> x in ItemsOf(a) || x in ItemsOf(b) || x in ItemsOf(d) || x in ItemsOf(e))
      && TotalScore(a + b + d + e) == SumScores(items, c)
  {
    ConcatPicks(a, b);
    ConcatPicks(a + b, d);
    ConcatPicks(a + b + d, e);
    SumScoresAppend(ItemsOf(a), ItemsOf(b), c);
    SumScoresAppend(ItemsOf(a) + ItemsOf(b), ItemsOf(d), c);
    SumScoresAppend(ItemsOf(a) + ItemsOf(b) + ItemsOf(d), ItemsOf(e), c);
  }

  /** Without accessories the coin has no effect: every attempt picks the
      same items with the same score and description. */
  lemma NoAccessoriesSameAttempts(g: Groups, c: Criteria, i: nat, j: nat, f1: bool, f2: bool)
    requires g.accessories == []
    ensures Attempt(g, c, i, f1).items == Attempt(g, c, j, f2).items
    ensures Attempt(g, c, i, f1).score == Attempt(g, c, j, f2).score
    ensures Attempt(g, c, i, f1).description == Attempt(g, c, j, f2).description
  {
    assert Picks(g, c, f1) == Picks(g, c, f2);
  }

  /** The number of coins that came up. */
  function CountTrue(flips: seq<bool>): nat {
    if flips == [] then 0 else CountTrue(flips[..|flips| - 1]) + (if flips[|flips| - 1] then 1 else 0)
  }

  /** How many attempts survive the non-empty filter: all of them when there
      is a top, a bottom or shoes; those whose coin came up when there are
      only accessories; none otherwise. */
  function ExpectedCount(g: Groups, flips: seq<bool>): nat {
    if |g.tops| > 0 || |g.bottoms| > 0 || |g.shoes| > 0 then |flips|
    else if |g.accessories| > 0 then CountTrue(flips)
    else 0
  }

  /** A run of attempts of the expected sizes shrinks to the expected count. */
  lemma {:induction false} KeptCount(os: seq<Outfit>, g: Groups, flips: seq<bool>)
    requires Sized(os, g, flips)
    ensures |KeepNonEmpty(os)| == ExpectedCount(g, flips[..|os|])
  {
    if os != [] {
      var n := |os|;
      var init := os[..n - 1];
      assert Sized(init, g, flips);
      KeptCount(init, g, flips);
      KeepNonEmptySnoc(init, os[n - 1]);
      assert init + [os[n - 1]] == os;
      assert flips[..n][..n - 1] == flips[..n - 1];
    }
  }

  /** The number of outfits the composer returns, by what the wardrobe holds. */
  lemma ComposeCount(wardrobe: seq<Item>, c: Criteria, flips: seq<bool>)
    requires |flips| == AttemptCount
    ensures |Compose(wardrobe, c, flips)| == ExpectedCount(GroupByCategory(wardrobe), flips)
  {
    var g := GroupByCategory(wardrobe);
    BuilderShape(g, c);
    AttemptsNumbered(Builder(g, c), g, flips, AttemptCount);
    RankedCount(Attempts(Builder(g, c), flips, AttemptCount), g, flips);
  }

  lemma RankedCount(attempts: seq<Outfit>, g: Groups, flips: seq<bool>)
    requires Sized(attempts, g, flips) && |attempts| == |flips|
    ensures |SortDesc(KeepNonEmpty(attempts), OutfitScore)| == ExpectedCount(g, flips)
  {
    KeptCount(attempts, g, flips);
    assert flips[..|attempts|] == flips;
  }

  /** A wardrobe with a top, a bottom or shoes yields all three outfits. */
  lemma ComposeFull(wardrobe: seq<Item>, c: Criteria, flips: seq<bool>, x: Item)
    requires |flips| == AttemptCount
    requires x in wardrobe && x.category in {Top, Bottom, Shoes}
    ensures |Compose(wardrobe, c, flips)| == AttemptCount
  {
    ComposeCount(wardrobe, c, flips);
    var g := GroupByCategory(wardrobe);
    assert x in g.tops || x in g.bottoms || x in g.shoes;
  }

  /** A wardrobe with no item of a known category yields no outfit. */
  lemma ComposeEmpty(wardrobe: seq<Item>, c: Criteria, flips: seq<bool>)
    requires |flips| == AttemptCount
    requires forall x :: x in wardrobe ==> !KnownCategory(x.category)
    ensures Compose(wardrobe, c, flips) == []
  {
    ComposeCount(wardrobe, c, flips);
    NoBuckets(wardrobe);
  }

  lemma NoBuckets(wardrobe: seq<Item>)
    requires forall x :: x in wardrobe ==> !KnownCategory(x.category)
    ensures var g := GroupByCategory(wardrobe);
      g.tops == [] && g.bottoms == [] && g.shoes == [] && g.accessories == []
  {
    var g := GroupByCategory(wardrobe);
    assert forall s: seq<Item> :: |s| > 0 ==> s[0] in s;
  }
}
