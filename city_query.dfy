/**
 * The text tests of the chat page (src/app/page.tsx): the city pattern
 * `/weather in ([a-zA-Z\s]+)/i` and the two guards of the submit handler,
 * `!input.trim()` and `input.toLowerCase().includes('weather in')`.
 */
module CityQuery {
  import opened Wrappers

  predicate IsAsciiLetter(c: char)
  {
    ('a' <= c <= 'z') || ('A' <= c <= 'Z')
  }

  /** `\s` of a JavaScript regex: white space and line terminators, also what `trim` strips. */
  predicate IsJsWhitespace(c: char)
  {
    var n := c as int;
    n == 0x09 || n == 0x0A || n == 0x0B || n == 0x0C || n == 0x0D || n == 0x20
    || n == 0xA0 || n == 0x1680 || (0x2000 <= n <= 0x200A)
    || n == 0x2028 || n == 0x2029 || n == 0x202F || n == 0x205F || n == 0x3000 || n == 0xFEFF
  }

  /**
   * `[a-zA-Z\s]` under the `i` flag. Without the `u` flag a character outside
   * ASCII never folds onto an ASCII letter, so the class stays ASCII letters
   * and white space.
   */
  predicate InCityClass(c: char)
  {
    IsAsciiLetter(c) || IsJsWhitespace(c)
  }

  function AsciiLower(c: char): char
  {
    if 'A' <= c <= 'Z' then (c as int + 32) as char else c
  }

  /** The literal part of the pattern, with its trailing space. */
  const Phrase: string := "weather in "

  /** The text the submit guard looks for, without the trailing space. */
  const GuardPhrase: string := "weather in"

  /** `s` holds the lower-case ASCII text `phrase` at `i`, ignoring ASCII case. */
  predicate PhraseAt(s: string, i: int, phrase: string)
  {
    0 <= i && i + |phrase| <= |s| && forall k :: 0 <= k < |phrase| ==> AsciiLower(s[i + k]) == phrase[k]
  }

  /** The pattern matches at `i`: the phrase, then at least one class character. */
  predicate MatchAt(s: string, i: int)
  {
    PhraseAt(s, i, Phrase) && i + |Phrase| < |s| && InCityClass(s[i + |Phrase|])
  }

  /** The greedy group `([a-zA-Z\s]+)`: the longest prefix of class characters. */
  function CityRun(s: string): (r: string)
    ensures |r| <= |s| && r == s[..|r|]
    ensures forall k :: 0 <= k < |r| ==> InCityClass(r[k])
    ensures |r| < |s| ==> !InCityClass(s[|r|])
  {
    if s == [] || !InCityClass(s[0]) then []
    else
      var rest := CityRun(s[1..]);
      assert s == [s[0]] + s[1..];
      [s[0]] + rest
  }

  /** The regex engine's scan: the leftmost position at or after `i` where the pattern matches. */
  function FirstMatch(s: string, i: nat): (r: Option<nat>)
    requires i <= |s|
    ensures r.None? <==> forall j :: i <= j < |s| ==> !MatchAt(s, j)
    ensures r.Some? ==> i <= r.value < |s| && MatchAt(s, r.value)
    ensures r.Some? ==> forall k :: i <= k < r.value ==> !MatchAt(s, k)
    decreases |s| - i
  {
    if i + |Phrase| >= |s| then None
    else if MatchAt(s, i) then Some(i)
    else FirstMatch(s, i + 1)
  }

  /** `message.match(/weather in ([a-zA-Z\s]+)/i)?.[1]`. */
  function ExtractCity(message: string): (r: Option<string>)
    ensures r.None? <==> forall j :: 0 <= j < |message| ==> !MatchAt(message, j)
    ensures r.Some? ==> exists j :: 0 <= j < |message| && MatchAt(message, j)
                                    && (forall k :: 0 <= k < j ==> !MatchAt(message, k))
                                    && r.value == CityRun(message[j + |Phrase|..])
    ensures r.Some? ==> |r.value| >= 1 && forall k :: 0 <= k < |r.value| ==> InCityClass(r.value[k])
  {
    match FirstMatch(message, 0)
    case None => None
    case Some(j) => Some(CityRun(message[j + |Phrase|..]))
  }

  /** `s.trimStart()`: what is left after the leading white space. */
  function TrimStart(s: string): (r: string)
    ensures |r| <= |s| && r == s[|s| - |r|..]
    ensures forall k :: 0 <= k < |s| - |r| ==> IsJsWhitespace(s[k])
    ensures r != [] ==> !IsJsWhitespace(r[0])
  {
    if s != [] && IsJsWhitespace(s[0]) then TrimStart(s[1..]) else s
  }

  /** `s.trimEnd()`: what is left before the trailing white space. */
  function TrimEnd(s: string): (r: string)
    ensures |r| <= |s| && r == s[..|r|]
    ensures forall k :: |r| <= k < |s| ==> IsJsWhitespace(s[k])
    ensures r != [] ==> !IsJsWhitespace(r[|r| - 1])
  {
    if s != [] && IsJsWhitespace(s[|s| - 1]) then TrimEnd(s[..|s| - 1]) else s
  }

  /** `s.trim()`. */
  function Trim(s: string): string
  {
    TrimEnd(TrimStart(s))
  }

  /** `!input.trim()`: trimming leaves the empty string, that is, the input is white space only. */
  function IsBlank(s: string): (r: bool)
    ensures r <==> forall k :: 0 <= k < |s| ==> IsJsWhitespace(s[k])
  {
    var t := TrimStart(s);
    assert forall k :: |s| - |t| <= k < |s| ==> s[k] == t[k - (|s| - |t|)];
    Trim(s) == ""
  }

  /** `s.toLowerCase()` on ASCII letters; every other character is left as it is. */
  function LowerAscii(s: string): (r: string)
    ensures |r| == |s|
    ensures forall k :: 0 <= k < |s| ==> r[k] == AsciiLower(s[k])
  {
    if s == [] then [] else [AsciiLower(s[0])] + LowerAscii(s[1..])
  }

  /** `needle` occurs in `s` at position `i`. */
  predicate OccursAt(s: string, i: int, needle: string)
  {
    0 <= i && i + |needle| <= |s| && s[i..i + |needle|] == needle
  }

  /** `s.includes(needle)`. */
  predicate Includes(s: string, needle: string)
  {
    exists i :: 0 <= i <= |s| - |needle| && OccursAt(s, i, needle)
  }

  /** An occurrence in the lowered text is an occurrence in the original, ASCII case ignored. */
  lemma LoweredOccurrence(s: string, i: int, phrase: string)
    ensures OccursAt(LowerAscii(s), i, phrase) <==> PhraseAt(s, i, phrase)
  {
    var l := LowerAscii(s);
    if 0 <= i && i + |phrase| <= |s| {
      var w := l[i..i + |phrase|];
      forall k | 0 <= k < |phrase| ensures w[k] == AsciiLower(s[i + k]) {
        assert w[k] == l[i + k];
      }
    }
  }

  /**
   * `s.toLowerCase().includes('weather in')`: the phrase occurs somewhere,
   * ASCII case ignored. Lowering only ASCII gives the same answer. Only two
   * non-ASCII characters lower to text holding an ASCII letter: U+0130 yields
   * `i` and a combining dot, which is never followed by `n`, and U+212A KELVIN
   * SIGN yields `k`, which the phrase does not contain.
   */
  function MentionsWeather(s: string): (r: bool)
    ensures r <==> exists i :: 0 <= i <= |s| - |GuardPhrase| && PhraseAt(s, i, GuardPhrase)
  {
    var l := LowerAscii(s);
    assert forall i :: OccursAt(l, i, GuardPhrase) <==> PhraseAt(s, i, GuardPhrase) by {
      forall i ensures OccursAt(l, i, GuardPhrase) <==> PhraseAt(s, i, GuardPhrase) {
        LoweredOccurrence(s, i, GuardPhrase);
      }
    }
    Includes(l, GuardPhrase)
  }

  /** A city is only ever extracted from input that passes both submit guards. */
  lemma ExtractionPassesGuards(s: string)
    requires ExtractCity(s).Some?
    ensures MentionsWeather(s) && !IsBlank(s)
  {
    var j :| 0 <= j < |s| && MatchAt(s, j);
    assert PhraseAt(s, j, Phrase);
    assert forall k :: 0 <= k < |GuardPhrase| ==> GuardPhrase[k] == Phrase[k];
    assert PhraseAt(s, j, GuardPhrase);
    assert AsciiLower(s[j + 0]) == Phrase[0] == 'w';
    assert !IsJsWhitespace(s[j]);
  }

  /** The group stops at the first character outside the class. */
  lemma ExtractExample()
    ensures ExtractCity("Weather in Paris?") == Some("Paris")
  {
    var m := "Weather in Paris?";
    assert MatchAt(m, 0) by {
      assert forall k :: 0 <= k < |Phrase| ==> AsciiLower(m[k]) == Phrase[k];
    }
    assert m[11..] == "Paris?";
    assert CityRun(m[11..]) == "Paris" by {
      assert CityRun("?") == "";
      assert CityRun("s?") == "s";
      assert CityRun("is?") == "is";
      assert CityRun("ris?") == "ris";
      assert CityRun("aris?") == "aris";
    }
  }
}
