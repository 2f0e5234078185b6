/** `generateOutfitDescription`: the one-sentence text attached to an outfit,
    built from the chosen items and the request's weather and occasion. */
module Description {
  import opened Clothing

  /** `Array.prototype.join(sep)` over strings. */
  function Join(parts: seq<string>, sep: string): (r: string)
    ensures |parts| == 0 ==> r == ""
    ensures |parts| == 1 ==> r == parts[0]
  {
    if |parts| == 0 then ""
    else if |parts| == 1 then parts[0]
    else parts[0] + sep + Join(parts[1..], sep)
  }

  /** Joining two non-empty lists is joining each and putting one separator
      between them. */
  lemma {:induction false} JoinAppend(a: seq<string>, b: seq<string>, sep: string)
    requires |a| > 0 && |b| > 0
    ensures Join(a + b, sep) == Join(a, sep) + sep + Join(b, sep)
  {
    if |a| == 1 {
      assert (a + b)[1..] == b;
    } else {
      assert (a + b)[1..] == a[1..] + b;
      JoinAppend(a[1..], b, sep);
    }
  }

  function CategoriesOf(items: seq<Item>): (r: seq<string>)
    ensures |r| == |items| && forall j :: 0 <= j < |items| ==> r[j] == items[j].category
  {
    seq(|items|, j requires 0 <= j < |items| => items[j].category)
  }

  function ColorsOf(items: seq<Item>): (r: seq<string>)
    ensures |r| == |items| && forall j :: 0 <= j < |items| ==> r[j] == items[j].color
  {
    seq(|items|, j requires 0 <= j < |items| => items[j].color)
  }

  /** `styles[0]` of `items.filter(item => item.style).map(item => item.style)`:
      the style of the first item that has one, or "" when none has. */
  function FirstStyle(items: seq<Item>): (r: string)
    ensures r == "" <==> forall j :: 0 <= j < |items| ==> items[j].style == ""
    ensures r != "" ==> exists k :: 0 <= k < |items| && items[k].style == r &&
                                    forall j :: 0 <= j < k ==> items[j].style == ""
  {
    if |items| == 0 then ""
    else if items[0].style != "" then items[0].style
    else
      var r := FirstStyle(items[1..]);
      if r != "" then
        var k :| 0 <= k < |items[1..]| && items[1..][k].style == r &&
                 forall j :: 0 <= j < k ==> items[1..][j].style == "";
        assert items[k + 1].style == r;
        r
      else r
  }

  /** The fixed opening clause, "A <categories joined by ' and '> combination". */
  function Opening(items: seq<Item>): string {
    "A " + Join(CategoriesOf(items), " and ") + " combination"
  }

  function ColorClause(items: seq<Item>): string {
    if |items| > 0 then " featuring " + Join(ColorsOf(items), ", ") + " colors" else ""
  }

  /** Present exactly when some item has a style, and then naming the style
      of the first such item. */
  function StyleClause(items: seq<Item>): (r: string)
    ensures r == "" <==> forall j :: 0 <= j < |items| ==> items[j].style == ""
    ensures r != "" ==> exists k :: 0 <= k < |items| && r == " with a " + items[k].style + " style"
                                    && items[k].style != "" && forall j :: 0 <= j < k ==> items[j].style == ""
  {
    if FirstStyle(items) != "" then " with a " + FirstStyle(items) + " style" else ""
  }

  function WeatherClause(weather: string): string {
    if weather != "" then ", perfect for " + weather + " weather" else ""
  }

  function OccasionClause(occasion: string): string {
    if occasion != "" then " and ideal for " + occasion + " occasions" else ""
  }

  /** Everything after the opening clause: the colours (whenever there is at
      least one item), the first style, the weather and the occasion, each
      only when present, and a closing full stop. */
  function Details(items: seq<Item>, weather: string, occasion: string): (t: string)
    ensures |t| > 0 && t[|t| - 1] == '.'
  {
    ColorClause(items) + StyleClause(items) + WeatherClause(weather) + OccasionClause(occasion) + "."
  }

  /** The description, "A <categories> combination" followed by the details. */
  function Describe(items: seq<Item>, weather: string, occasion: string): (d: string)
    ensures |d| > |Opening(items)| && d[..|Opening(items)|] == Opening(items)
    ensures d[|d| - 1] == '.'
  {
    EndsWithConcat(Opening(items), Details(items, weather, occasion));
    Opening(items) + Details(items, weather, occasion)
  }

  predicate EndsWith(s: string, suffix: string) {
    |suffix| <= |s| && s[|s| - |suffix|..] == suffix
  }

  /** With an occasion, the description ends with the occasion clause. */
  lemma OccasionEnding(items: seq<Item>, weather: string, occasion: string)
    requires occasion != ""
    ensures EndsWith(Describe(items, weather, occasion), " and ideal for " + occasion + " occasions.")
  {
    var o := OccasionClause(occasion);
    assert o + "." == " and ideal for " + occasion + " occasions.";
    ClauseEnding(ColorClause(items) + StyleClause(items), WeatherClause(weather), o);
    EndsWithExtend(Opening(items), Details(items, weather, occasion), o + ".");
  }

  /** With a weather and no occasion, it ends with the weather clause. */
  lemma WeatherEnding(items: seq<Item>, weather: string)
    requires weather != ""
    ensures EndsWith(Describe(items, weather, ""), ", perfect for " + weather + " weather.")
  {
    var w := WeatherClause(weather);
    assert w + "." == ", perfect for " + weather + " weather.";
    ClauseEnding(ColorClause(items) + StyleClause(items), w, OccasionClause(""));
    EndsWithExtend(Opening(items), Details(items, weather, ""), w + ".");
  }

  /** With neither and no styled item, the colour list closes the sentence. */
  lemma ColorsOnlyEnding(items: seq<Item>)
    requires |items| > 0 && FirstStyle(items) == ""
    ensures EndsWith(Describe(items, "", ""), " featuring " + Join(ColorsOf(items), ", ") + " colors.")
  {
    ColorsOnlyDetails(items);
    EndsWithExtend(Opening(items), Details(items, "", ""), " featuring " + Join(ColorsOf(items), ", ") + " colors.");
  }

  /** With both a weather and an occasion, the weather clause comes first and
      the occasion clause closes the sentence. */
  lemma WeatherThenOccasion(items: seq<Item>, weather: string, occasion: string)
    requires weather != "" && occasion != ""
    ensures EndsWith(Describe(items, weather, occasion),
                     ", perfect for " + weather + " weather and ideal for " + occasion + " occasions.")
  {
    var tail := WeatherClause(weather) + OccasionClause(occasion) + ".";
    WeatherOccasionText(weather, occasion);
    ClauseEnding(ColorClause(items) + StyleClause(items), WeatherClause(weather), OccasionClause(occasion));
    EndsWithExtend(Opening(items), Details(items, weather, occasion), tail);
  }

  lemma WeatherOccasionText(weather: string, occasion: string)
    requires weather != "" && occasion != ""
    ensures WeatherClause(weather) + OccasionClause(occasion) + "."
            == ", perfect for " + weather + " weather and ideal for " + occasion + " occasions."
  {
  }

  /** A styled outfit names its style right after the colour list, and the
      weather clause follows the style. */
  lemma ColorsThenStyle(items: seq<Item>, weather: string)
    requires FirstStyle(items) != "" && weather != ""
    ensures EndsWith(Describe(items, weather, ""),
                     " featuring " + Join(ColorsOf(items), ", ") + " colors with a " + FirstStyle(items)
                     + " style, perfect for " + weather + " weather.")
  {
    var c, st, w := ColorClause(items), StyleClause(items), WeatherClause(weather);
    var tail := c + st + w + ".";
    assert Details(items, weather, "") == tail;
    ColorsStyleText(items, weather);
    EndsWithExtend(Opening(items), Details(items, weather, ""), tail);
  }

  lemma ColorsStyleText(items: seq<Item>, weather: string)
    requires FirstStyle(items) != "" && weather != ""
    ensures ColorClause(items) + StyleClause(items) + WeatherClause(weather) + "."
            == " featuring " + Join(ColorsOf(items), ", ") + " colors with a " + FirstStyle(items)
               + " style, perfect for " + weather + " weather."
  {
    assert |items| > 0;
    var list, style := Join(ColorsOf(items), ", "), FirstStyle(items);
    assert ColorClause(items) == " featuring " + list + " colors";
    assert StyleClause(items) == " with a " + style + " style";
    assert WeatherClause(weather) == ", perfect for " + weather + " weather";
    ThreeClauses(list, style, weather);
  }

  lemma ThreeClauses(list: string, style: string, weather: string)
    ensures " featuring " + list + " colors" + (" with a " + style + " style")
            + (", perfect for " + weather + " weather") + "."
            == " featuring " + list + " colors with a " + style + " style, perfect for " + weather + " weather."
  {
  }

  lemma ColorsOnlyDetails(items: seq<Item>)
    requires |items| > 0 && FirstStyle(items) == ""
    ensures Details(items, "", "") == " featuring " + Join(ColorsOf(items), ", ") + " colors."
  {
    PlainDetails(items);
    var list := Join(ColorsOf(items), ", ");
    assert ColorClause(items) == " featuring " + list + " colors";
    OneClause(list);
  }

  lemma OneClause(list: string)
    ensures " featuring " + list + " colors" + "." == " featuring " + list + " colors."
  {
  }

  lemma PlainDetails(items: seq<Item>)
    requires FirstStyle(items) == ""
    ensures Details(items, "", "") == ColorClause(items) + "."
  {
    var col := ColorClause(items);
    assert StyleClause(items) == [] && WeatherClause("") == [] && OccasionClause("") == [];
    assert col + [] + [] + [] + "." == col + ".";
  }

  lemma ClauseEnding(head: string, w: string, o: string)
    ensures EndsWith(head + w + o + ".", o + ".")
    ensures o == "" ==> EndsWith(head + w + o + ".", w + ".")
    ensures EndsWith(head + w + o + ".", w + o + ".")
  {
    assert head + w + o + "." == head + (w + o + ".");
    EndsWithConcat(head, w + o + ".");
    assert head + w + o + "." == (head + w) + (o + ".");
    EndsWithConcat(head + w, o + ".");
    if o == "" {
      assert head + w + o + "." == head + (w + ".");
      EndsWithConcat(head, w + ".");
    }
  }

  lemma EndsWithConcat(a: string, b: string)
    ensures EndsWith(a + b, b) && (a + b)[..|a|] == a
  {
  }

  lemma EndsWithExtend(s: string, t: string, u: string)
    ensures EndsWith(t, u) ==> EndsWith(s + t, u)
  {
    if EndsWith(t, u) {
      assert (s + t)[|s + t| - |u|..] == t[|t| - |u|..];
    }
  }
}
