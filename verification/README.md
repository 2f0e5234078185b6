# Wardrobe outfit recommendation, in Dafny

This project models the recommendation core of a personal wardrobe web
application. A user keeps clothing items. Each item has a category (`top`,
`bottom`, `shoes`, `accessories`), a colour and optional style, occasion
and weather tags. The user asks for suggestions by preferred colour and
style, a season and an occasion. There are two suggestion paths:

- **Rule-based.** Keep the items that no given criterion rules out. Fall
  back to the whole wardrobe when nothing survives. Group the result by
  category (module `RuleFilter`).
- **Composed.** Score every item:
  - +3 for an exact weather match, +1 for a compatible season;
  - the same for the occasion;
  - +2 each for the preferred colour and style.

  Then make three attempts. Each picks the best-scoring top, bottom and
  shoes, plus the best accessory when a coin comes up. Each attempt's score
  and a one-sentence description are recorded. The non-empty attempts come
  back ranked by score (modules `Scoring`, `Compatibility`, `Ranking`,
  `Description`, `Composer`).

The client derives the request's season from a measured temperature and
picks an icon for the reported condition (module `WeatherUi`).

Modelling choices:

- **Unset fields.** An optional text field is a `string`; the empty string
  stands for "unset". Every test the code makes on these fields is
  truthiness or `===` against a set value, so an absent field and an empty
  one behave alike.
- **Randomness.** `Math.random() > 0.3` is replaced by a sequence of coins,
  one per attempt.
- **Sorting.** `Array.prototype.sort` is stable (ECMAScript 2023, section
  23.1.3.30). It is modelled by a stable insertion sort, `Ranking.SortDesc`.
  "Sort descending and take the head" is proved to be the first element of
  largest score.
- **Imperative parts are methods.** `scoreItem`, the per-category selection
  and the three-attempt loop keep their running totals and pushes, as
  methods. Each is proved equal to a specification function, and the
  properties are proved about those functions.

Two facts about the code that the model states outright:

- **Compatibility is symmetric.** Each table lists a pair in both
  directions: `summer` lists `spring` and `spring` lists `summer`
  (server/index.js:425-438), and likewise for every other pair of either
  table. So a summer item earns the compatibility point for a spring
  request, and a spring item for a summer request.
  `Compatibility.TablesSymmetricAndIrreflexive` and
  `Scoring.PointsSymmetric` state this.
- **When the colour clause appears.** The "featuring ... colors" clause is
  added whenever the outfit has an item (`colors.length > 0`,
  server/index.js:450), even if every colour is empty.

## Model

| member | source | states |
|---|---|---|
| Clothing.OfCategory | server/index.js:319-322 | the category filter keeps exactly the items of that category, each as often as in the wardrobe, and never grows |
| Clothing.OfCategoryAppend | server/index.js:281-284 | the category filter keeps wardrobe order: it distributes over concatenation |
| Clothing.GroupByCategory | server/index.js:280-285 | each bucket holds exactly the wardrobe items of its category; an item of any other category is in no bucket |
| RuleFilter.Survivors | server/index.js:253-272 | an item survives iff no criterion rules it out, and the result is no longer than the wardrobe |
| RuleFilter.SurvivorsAppend | server/index.js:253-272 | the filter keeps wardrobe order (distributes over concatenation) |
| RuleFilter.Filter | server/index.js:253-285 | with no survivor, the groups are those of the whole wardrobe; otherwise those of the survivors, and every suggested item passes the filter; every suggested item is in the wardrobe and in its category's bucket |
| RuleFilter.UnsetFieldNeverRejects | server/index.js:257-264 | an item without an occasion (or weather) is judged as if that criterion were absent |
| RuleFilter.ColorMismatchRejects | server/index.js:266-269 | a set colour preference that differs from the item's colour always rejects it |
| RuleFilter.EmptyWardrobe | server/index.js:274-285 | an empty wardrobe gives four empty buckets |
| Compatibility.IsWeatherCompatible | server/index.js:423-431 | weather compatibility is exactly the listed season pairs; unknown seasons are compatible with nothing |
| Compatibility.IsOccasionCompatible | server/index.js:433-441 | occasion compatibility is exactly the listed occasion pairs; unknown occasions are compatible with nothing |
| Compatibility.TablesSymmetricAndIrreflexive | server/index.js:424-439 | both tables are symmetric and list no value as compatible with itself |
| Compatibility.CompatibilityExamples | server/index.js:424-439 | spring/summer and work/casual are compatible; summer/fall, formal/casual and unknown values are not |
| Compatibility.CompatibleAsWritten | server/index.js:440 | the lookup as the code evaluates it throws a TypeError iff the key is not a table entry but is a name inherited from Object.prototype |
| Compatibility.AsWrittenAgreesOffPrototype | server/index.js:423-441 | off the inherited names, the lookup as written returns the closed-table answer, for both tables |
| Compatibility.InheritedKeyThrows | server/index.js:433-441 | an item occasion "toString" against request "work" (and weather "constructor" against "summer") throws, where the closed lookup answers false |
| Scoring.AxisPoints | server/index.js:329-338 | 3 points iff the values are set and equal, 1 iff set, different and compatible, 0 otherwise |
| Scoring.WeatherPoints | server/index.js:329-332 | weather earns 3 for an exact match, 1 for a compatible season, else 0 |
| Scoring.OccasionPoints | server/index.js:335-338 | occasion earns 3 for an exact match, 1 for a compatible occasion, else 0 |
| Scoring.PreferencePointsFor | server/index.js:341-348 | a preference earns 2 iff it is set and the item's value equals it |
| Scoring.Score | server/index.js:325-351 | a score is at most 10, and is 10 iff weather, occasion, colour and style are all requested and all match exactly |
| Scoring.ScoreItem | server/index.js:325-351 | the running total equals the reference score, and is at most 10 |
| Scoring.NoCriteriaScoresZero | server/index.js:325-351 | with no criteria every item scores 0 |
| Scoring.WeatherOnlyExamples | server/index.js:329-332 | weather-only scores: exact 3, neighbour 1 in either direction, unlisted 0, no item weather 0 |
| Scoring.PointsSymmetric | server/index.js:329-338 | swapping the item's value and the requested value leaves weather and occasion points unchanged |
| Ranking.Insert | server/index.js:419 | insertion adds exactly one element and keeps the rest |
| Ranking.InsertSorted | server/index.js:419 | inserting into a non-increasing sequence keeps it non-increasing |
| Ranking.SortDesc | server/index.js:419 | the sort is a permutation of its input, in non-increasing key order |
| Ranking.FirstMax | server/index.js:368-374 | the index of an element of largest key before which every key is strictly smaller |
| Ranking.SortDescHead | server/index.js:368-374 | the head of the descending sort is the first element of largest key |
| Ranking.InsertStable | server/index.js:419 | inserting an element of lowest rank keeps "descending by key, ascending by rank among equal keys" |
| Ranking.SortDescStable | server/index.js:419 | the sort is stable: input in rank order comes out by descending key and, among equal keys, in rank order |
| Description.Join | server/index.js:448 | joining no parts gives the empty string, and one part gives that part |
| Description.JoinAppend | server/index.js:448 | joining two non-empty lists is joining each with one separator between them |
| Description.CategoriesOf | server/index.js:444 | the categories of the items, one per item, in order |
| Description.ColorsOf | server/index.js:445 | the colours of the items, one per item, in order |
| Description.FirstStyle | server/index.js:446-456 | empty iff no item has a style; otherwise the style of the first styled item |
| Description.StyleClause | server/index.js:446-456 | the style clause is present iff some item has a style, and then names the style of the first styled item |
| Description.Details | server/index.js:450-466 | the text after the opening clause ends with a full stop |
| Description.Describe | server/index.js:443-467 | the description starts with "A <categories> combination" and ends with a full stop |
| Description.OccasionEnding | server/index.js:462-466 | with an occasion, the description ends " and ideal for <occasion> occasions." |
| Description.WeatherEnding | server/index.js:458-466 | with a weather and no occasion, it ends ", perfect for <weather> weather." |
| Description.ColorsOnlyEnding | server/index.js:450-466 | with items, no style, weather or occasion, it ends " featuring <colours> colors." |
| Description.ColorsOnlyDetails | server/index.js:450-466 | in that case the whole text after the opening is the colour clause and the stop |
| Description.WeatherThenOccasion | server/index.js:458-466 | with a weather and an occasion, the weather clause comes first and the occasion clause closes the sentence |
| Description.ColorsThenStyle | server/index.js:450-466 | a styled outfit with a weather and no occasion ends " featuring <colours> colors with a <style> style, perfect for <weather> weather." |
| Description.PlainDetails | server/index.js:454-466 | without style, weather and occasion only the colour clause precedes the stop |
| Composer.BestOfIsFirstMaximum | server/index.js:366-375 | the pick of a category is its first item of largest score: no item scores more, every earlier item scores less |
| Composer.PickBest | server/index.js:366-375 | scoring each item, sorting and taking the head yields the reference pick |
| Composer.Chosen | server/index.js:366-408 | the reference pick of a slot: the first item of largest score in a non-empty bucket when the slot is taken, nothing otherwise |
| Composer.SlotFacts | server/index.js:366-408 | a slot's items are exactly the reference pick, taken from its bucket, and it scores that item's score |
| Composer.FillSlot | server/index.js:399-408 | one selection block pushes the slot's pick and adds its score |
| Composer.PicksBySlot | server/index.js:366-408 | an attempt's items and score are those of its four slots in order |
| Composer.PicksShape | server/index.js:366-408 | an attempt's items are, in order, the reference picks of tops, bottoms and shoes, then of accessories when its coin is up; it scores the sum of their scores |
| Composer.BuildOutfit | server/index.js:358-411 | the loop body builds exactly the reference attempt |
| Composer.AttemptId | server/index.js:359 | attempt i is numbered i + 1 |
| Composer.AttemptShape | server/index.js:357-411 | attempt i is numbered i + 1; its items are, in order, the first best top, bottom and shoes of the non-empty buckets, then the first best accessory when its coin is up; it scores the sum of its items' scores |
| Composer.NoAccessoriesSameAttempts | server/index.js:399-408 | without accessories every attempt has the same items, score and description, whatever the coins |
| Composer.BuilderShape | server/index.js:357-411 | every attempt of a request has the number and size above |
| Composer.AttemptsNumbered | server/index.js:357-416 | the attempts are numbered 1, 2, 3 in order and each has its expected size |
| Composer.NextAttempt | server/index.js:413-415 | one more turn of the loop appends the attempt iff it is non-empty |
| Composer.KeepNonEmptyMembers | server/index.js:413-415 | the kept outfits are exactly the non-empty ones |
| Composer.KeepNonEmptyOrdered | server/index.js:413-415 | the kept outfits stay in attempt order |
| Composer.CollectAttempts | server/index.js:356-416 | the loop keeps exactly the non-empty attempts, in order |
| Composer.GenerateOutfits | server/index.js:315-420 | the composer returns the reference result: at most three outfits, none empty, numbered within 1 to 3, by non-increasing score, ties in attempt order, each outfit being the attempt its id names |
| Composer.RankedShape | server/index.js:413-419 | sorting the kept outfits of numbered attempts gives a stably ranked list of non-empty outfits |
| Composer.ComposeMembers | server/index.js:356-419 | every returned outfit is the attempt its id names, and every attempt with items is returned |
| Composer.ComposeShape | server/index.js:315-420 | the reference result has at most three non-empty outfits, stably ranked by score |
| Composer.KeptCount | server/index.js:413-415 | attempts of the expected sizes keep the expected number |
| Composer.RankedCount | server/index.js:413-419 | sorting keeps that number |
| Composer.ComposeCount | server/index.js:315-420 | the number of outfits is 3 when there is a top, bottom or shoes; the number of coins that came up when there are only accessories; otherwise 0 |
| Composer.ComposeFull | server/index.js:315-420 | a wardrobe with a top, bottom or shoes yields three outfits |
| Composer.ComposeEmpty | server/index.js:315-420 | a wardrobe with no item of a known category yields no outfit |
| Composer.NoBuckets | server/index.js:319-322 | such a wardrobe has four empty buckets |
| WeatherUi.Season | client/src/components/Suggestions.js:307-312 | winter below 10 degrees, spring below 20, fall below 30, summer from 30; always a selector value |
| WeatherUi.SeasonMonotone | client/src/components/Suggestions.js:307-312 | a warmer reading never gives an earlier band |
| WeatherUi.SeasonIsTableKey | client/src/components/Suggestions.js:307-312 | every derived season is a key of the weather compatibility table |
| WeatherUi.RequestWeather | client/src/components/Suggestions.js:333 | with a reading, the request carries its season; without, the selector's value |
| WeatherUi.Icon | client/src/components/Suggestions.js:293-305 | a listed condition gets its icon; the default icon iff the condition is not listed |
| WeatherUi.IconExamples | client/src/components/Suggestions.js:294-304 | mist and fog share an icon; clear, rain, snow and thunderstorm differ; unknown conditions get the default |

## Left out

- **HTTP and accounts.** The HTTP endpoints, authentication, the MongoDB
  queries and the JSON responses are not modelled. The endpoints return
  early on an empty wardrobe (server/index.js:248-250, 301-303); the model
  instead shows that an empty wardrobe yields empty groups and no outfit.
- **Uploads and other client screens.** Image upload and the wardrobe
  management screens are out of scope. So are item deletion, the dashboard
  and the React rendering and state of the suggestion page.
- **Weather service.** The weather fetch from the external service is I/O.
  The temperature and condition it returns are parameters.
- **Coin probability.** The coin's probability (0.7) is not modelled. The
  coins are an input sequence with one coin per attempt. The code draws
  only when accessories exist; since the draws are independent, indexing
  them by attempt gives the same distribution of results.
- **Missing request fields.** A request without a `preferences` object
  makes the code throw at `preferences.color`. The model always has
  preferences.
- **Non-string values.** Values other than strings in the request are not
  modelled. Unset and empty fields are both the empty string.
- WeatherUi.Season: takes a real temperature. It does not model NaN or a
  missing temperature: every comparison would be false, so the code would
  return "summer".
- WeatherUi.Icon: does not model inherited names in the icon table. A
  condition such as "toString" makes `icons[condition]` answer with an
  inherited function instead of the default icon. Conditions come from the
  weather service's fixed vocabulary, which contains no such name.
- Description.Describe: states the opening clause, the closing stop and
  the endings, not one complete concrete sentence. The literal text is
  modelled clause by clause in `Opening`, `ColorClause`, `StyleClause`,
  `WeatherClause` and `OccasionClause`.
- Description.Details: its own contract fixes only the closing full stop.
  The order of the clauses is stated by `OccasionEnding`, `WeatherEnding`,
  `WeatherThenOccasion`, `ColorsThenStyle` and `ColorsOnlyEnding`, and the
  presence of the style clause by `StyleClause`; no lemma states a
  description with every clause present as one literal sentence.
- **The sort comparator.** `b.score - a.score` is modelled as a comparison
  of the score keys. Scores are small naturals, so the subtraction never
  overflows or yields NaN.
- **The unused `context` argument** of `scoreItem` is not modelled.

## Findings

| source | as written | input that shows it | evidently intended | confidence | as-written member | corrected member |
|---|---|---|---|---|---|---|
| server/index.js:440 | the occasion table is a plain object looked up with optional chaining only, so an item occasion naming an inherited Object.prototype member finds a function, and calling `includes` on it throws a TypeError (the endpoint answers 500) | an item whose occasion is "toString" (the occasion is free text on the upload form, client/src/components/Wardrobe.js:366-371), and a request for occasion "work" | an occasion missing from the table is compatible with nothing, so the item scores 0 on that axis | not executed | Compatibility.InheritedKeyThrows | Compatibility.IsOccasionCompatible |

The rest of the model uses the corrected lookup. `Scoring.Score`, and
through it `Composer.Compose` and `Composer.GenerateOutfits`, score an item
whose occasion is "toString" with 0 occasion points. So where the code
throws and answers 500, the model returns scored outfits.
