/**
 * The condition-to-icon classifier of the weather panel (`getWeatherImage`).
 *
 * A free-text condition description, possibly absent, is mapped to one of five
 * fixed asset paths by case-insensitive substring tests in a fixed order:
 * sun/clear, then rain/drizzle, then cloud/overcast, then snow/blizzard, and
 * the generic cloud icon when nothing matches. Text mentioning "cloud" or
 * "overcast" gets the asset named `drizzle.png`; that is what the component
 * does and it is kept here.
 */
module ConditionIcon {
  import opened Options

  const ClearIcon := "/assets/clear.png"
  const RainIcon := "/assets/rain.png"
  const DrizzleIcon := "/assets/drizzle.png"
  const SnowIcon := "/assets/snow.png"
  const CloudIcon := "/assets/cloud.png"

  /** The five icons the classifier can choose from. */
  const Icons: set<string> := {ClearIcon, RainIcon, DrizzleIcon, SnowIcon, CloudIcon}

  // ---------------------------------------------------------------------------
  // Lower-casing (ASCII) and substring search, as used by the classifier
  // ---------------------------------------------------------------------------

  /** `toLowerCase` on one character, restricted to ASCII letters. */
  function LowerChar(c: char): char
  {
    if 'A' <= c <= 'Z' then (c as int - 'A' as int + 'a' as int) as char else c
  }

  /** `toLowerCase` on a whole string: every character lower-cased in place. */
  function Lower(s: string): (r: string)
    ensures |r| == |s|
    ensures forall i :: 0 <= i < |s| ==> r[i] == LowerChar(s[i])
  {
    if s == [] then [] else [LowerChar(s[0])] + Lower(s[1..])
  }

  /** `text.includes(word)`: tries `word` at each position of `text`, left to right. */
  function Includes(text: string, word: string): bool
    decreases |text|
  {
    if |word| > |text| then false
    else if text[..|word|] == word then true
    else Includes(text[1..], word)
  }

  /** `word` stands in `text` starting at position `i`. */
  ghost predicate OccursAt(text: string, word: string, i: int)
  {
    0 <= i && i + |word| <= |text| && text[i..i + |word|] == word
  }

  /** `word` stands somewhere in `text`. */
  ghost predicate Occurs(text: string, word: string)
  {
    exists i :: OccursAt(text, word, i)
  }

  /** `word` (written in lower case) stands in `s` when letter case is ignored. */
  ghost predicate Mentions(s: string, word: string)
  {
    Occurs(Lower(s), word)
  }

  // ---------------------------------------------------------------------------
  // The classifier
  // ---------------------------------------------------------------------------

  /**
   * `getWeatherImage(condition)`: an absent or empty condition gives the clear
   * icon; otherwise the first keyword group found in the lower-cased text
   * decides, and no match gives the generic cloud icon.
   */
  function WeatherImage(condition: Option<string>): (icon: string)
    ensures icon in Icons
  {
    if condition == None || condition.value == "" then ClearIcon
    else
      var text := Lower(condition.value);
      if Includes(text, "sun") || Includes(text, "clear") then ClearIcon
      else if Includes(text, "rain") || Includes(text, "drizzle") then RainIcon
      else if Includes(text, "cloud") || Includes(text, "overcast") then DrizzleIcon
      else if Includes(text, "snow") || Includes(text, "blizzard") then SnowIcon
      else CloudIcon
  }

  // ---------------------------------------------------------------------------
  // Properties
  // ---------------------------------------------------------------------------

  /** The left-to-right scan finds `word` exactly when it occurs somewhere. */
  lemma {:induction false} IncludesIffOccurs(text: string, word: string)
    ensures Includes(text, word) <==> Occurs(text, word)
    decreases |text|
  {
    if |word| > |text| {
      assert forall i :: !OccursAt(text, word, i);
    } else if text[..|word|] == word {
      assert OccursAt(text, word, 0);
    } else {
      var tail := text[1..];
      IncludesIffOccurs(tail, word);
      if Occurs(tail, word) {
        var j :| OccursAt(tail, word, j);
        assert text[j + 1..j + 1 + |word|] == tail[j..j + |word|];
        assert OccursAt(text, word, j + 1);
      }
      if Occurs(text, word) {
        var i :| OccursAt(text, word, i);
        assert i != 0;
        assert tail[i - 1..i - 1 + |word|] == text[i..i + |word|];
        assert OccursAt(tail, word, i - 1);
      }
    }
  }

  /** Each keyword test of the classifier is a case-insensitive mention. */
  lemma KeywordTests(s: string)
    ensures Includes(Lower(s), "sun") <==> Mentions(s, "sun")
    ensures Includes(Lower(s), "clear") <==> Mentions(s, "clear")
    ensures Includes(Lower(s), "rain") <==> Mentions(s, "rain")
    ensures Includes(Lower(s), "drizzle") <==> Mentions(s, "drizzle")
    ensures Includes(Lower(s), "cloud") <==> Mentions(s, "cloud")
    ensures Includes(Lower(s), "overcast") <==> Mentions(s, "overcast")
    ensures Includes(Lower(s), "snow") <==> Mentions(s, "snow")
    ensures Includes(Lower(s), "blizzard") <==> Mentions(s, "blizzard")
  {
    var text := Lower(s);
    IncludesIffOccurs(text, "sun");
    IncludesIffOccurs(text, "clear");
    IncludesIffOccurs(text, "rain");
    IncludesIffOccurs(text, "drizzle");
    IncludesIffOccurs(text, "cloud");
    IncludesIffOccurs(text, "overcast");
    IncludesIffOccurs(text, "snow");
    IncludesIffOccurs(text, "blizzard");
  }

  /** An absent or empty condition is shown with the clear icon. */
  lemma MissingConditionIsClear(condition: Option<string>)
    requires condition == None || condition == Some("")
    ensures WeatherImage(condition) == ClearIcon
  {
  }

  /**
   * The clear icon is chosen exactly for empty text and for text mentioning
   * "sun" or "clear", whatever other keywords it also mentions.
   */
  lemma ClearIconExactly(s: string)
    ensures WeatherImage(Some(s)) == ClearIcon <==>
      s == "" || Mentions(s, "sun") || Mentions(s, "clear")
  {
    KeywordTests(s);
  }

  /** The rain icon is chosen exactly for rain/drizzle text that mentions neither sun nor clear. */
  lemma RainIconExactly(s: string)
    ensures WeatherImage(Some(s)) == RainIcon <==>
      !Mentions(s, "sun") && !Mentions(s, "clear") &&
      (Mentions(s, "rain") || Mentions(s, "drizzle"))
  {
    KeywordTests(s);
  }

  /**
   * The asset named `drizzle.png` is chosen exactly for cloud/overcast text
   * that mentions none of the earlier keywords.
   */
  lemma DrizzleIconExactly(s: string)
    ensures WeatherImage(Some(s)) == DrizzleIcon <==>
      !Mentions(s, "sun") && !Mentions(s, "clear") &&
      !Mentions(s, "rain") && !Mentions(s, "drizzle") &&
      (Mentions(s, "cloud") || Mentions(s, "overcast"))
  {
    KeywordTests(s);
  }

  /** The snow icon is chosen exactly for snow/blizzard text that matches no earlier group. */
  lemma SnowIconExactly(s: string)
    ensures WeatherImage(Some(s)) == SnowIcon <==>
      !Mentions(s, "sun") && !Mentions(s, "clear") &&
      !Mentions(s, "rain") && !Mentions(s, "drizzle") &&
      !Mentions(s, "cloud") && !Mentions(s, "overcast") &&
      (Mentions(s, "snow") || Mentions(s, "blizzard"))
  {
    KeywordTests(s);
  }

  /** The generic cloud icon is chosen exactly for non-empty text that mentions no keyword. */
  lemma CloudIconExactly(s: string)
    ensures WeatherImage(Some(s)) == CloudIcon <==>
      s != "" &&
      !Mentions(s, "sun") && !Mentions(s, "clear") &&
      !Mentions(s, "rain") && !Mentions(s, "drizzle") &&
      !Mentions(s, "cloud") && !Mentions(s, "overcast") &&
      !Mentions(s, "snow") && !Mentions(s, "blizzard")
  {
    KeywordTests(s);
  }

  /** Rain outranks cloud: "cloudy with rain" is shown as rain. */
  lemma RainBeatsCloud(s: string)
    requires Mentions(s, "rain") && Mentions(s, "cloud")
    requires !Mentions(s, "sun") && !Mentions(s, "clear")
    ensures WeatherImage(Some(s)) == RainIcon
  {
    RainIconExactly(s);
  }

  /** A word cannot occur in a text that lacks one of the word's characters. */
  lemma AbsentChar(text: string, word: string, j: int)
    requires 0 <= j < |word| && word[j] !in text
    ensures !Occurs(text, word)
  {
  }

  /** Lower-casing the provider's "Cloudy with rain" changes only its first letter. */
  lemma LowerCloudyWithRain()
    ensures Lower("Cloudy with rain") == "cloudy with rain"
  {
    var s, t := "Cloudy with rain", "cloudy with rain";
    assert LowerChar('C') == 'c';
    forall i | 1 <= i < |s| ensures LowerChar(s[i]) == s[i] {}
    assert s[1..] == t[1..];
  }

  /** "cloudy with rain" holds "rain" but neither "sun" nor "clear". */
  lemma KeywordsOfCloudyWithRain()
    ensures Occurs("cloudy with rain", "rain")
    ensures !Occurs("cloudy with rain", "sun") && !Occurs("cloudy with rain", "clear")
  {
    var t := "cloudy with rain";
    assert !Occurs(t, "sun") by { assert 's' !in t; AbsentChar(t, "sun", 0); }
    assert !Occurs(t, "clear") by { assert 'e' !in t; AbsentChar(t, "clear", 2); }
    assert OccursAt(t, "rain", 12) by { assert t[12..16] == "rain"; }
  }

  /** The provider's "Cloudy with rain" is shown with the rain icon, not a cloud one. */
  lemma CloudyWithRainIsRain()
    ensures WeatherImage(Some("Cloudy with rain")) == RainIcon
  {
    LowerCloudyWithRain();
    KeywordsOfCloudyWithRain();
    RainIconExactly("Cloudy with rain");
  }

  /** Lower-casing twice changes nothing more. */
  lemma LowerIdempotent(s: string)
    ensures Lower(Lower(s)) == Lower(s)
  {
  }

  /** Texts that agree up to letter case get the same icon. */
  lemma CaseInsensitive(s: string, t: string)
    requires Lower(s) == Lower(t)
    ensures WeatherImage(Some(s)) == WeatherImage(Some(t))
  {
  }

  /** Classifying a text and classifying its lower-cased form give the same icon. */
  lemma LowerCaseSameIcon(s: string)
    ensures WeatherImage(Some(Lower(s))) == WeatherImage(Some(s))
  {
    LowerIdempotent(s);
    CaseInsensitive(Lower(s), s);
  }
}
