/** The strength heuristic of calculatePasswordStrength (main.go:135-197):
    a length bonus, a bonus per character class present and a variety bonus,
    summed, divided by 100 and clamped at 1. Scores are exact reals. */
module Strength {
  import opened Pools

  /** Number of bytes the UTF-8 encoding of rune `r` takes. */
  function Utf8Length(r: char): (n: nat)
    ensures 1 <= n <= 4
    ensures n == 1 <==> r as int < 0x80
  {
    if r as int < 0x80 then 1
    else if r as int < 0x800 then 2
    else if r as int < 0x10000 then 3
    else 4
  }

  /** `len(password)`: the byte length of the string, not its rune count. */
  function ByteLength(s: string): (n: nat)
    ensures n >= |s|
  {
    if s == [] then 0 else ByteLength(s[..|s| - 1]) + Utf8Length(s[|s| - 1])
  }

  /** A string of ASCII runes is as many bytes long as it has runes. */
  lemma {:induction false} AsciiByteLength(s: string)
    requires forall i :: 0 <= i < |s| ==> s[i] as int < 0x80
    ensures ByteLength(s) == |s|
  {
    if s != [] {
      AsciiByteLength(s[..|s| - 1]);
    }
  }

  /** Whether some rune of `s` is classified as `k`. */
  predicate HasClass(s: string, k: CharClass)
  {
    exists i :: 0 <= i < |s| && Classify(s[i]) == Classified(k)
  }

  /** Points for the presence of class `k`. */
  function ClassBonus(k: CharClass): real
  {
    match k
    case Upper => 10.0
    case Lower => 10.0
    case Number => 10.0
    case Special => 15.0
  }

  /** The number of distinct classes present, `varietyCount`. */
  function Variety(s: string): (n: nat)
    ensures n <= 4
  {
    (if HasClass(s, Upper) then 1 else 0) + (if HasClass(s, Lower) then 1 else 0)
    + (if HasClass(s, Number) then 1 else 0) + (if HasClass(s, Special) then 1 else 0)
  }

  /** Half a point per byte, but only for strings longer than 8 bytes. */
  function LengthBonus(s: string): (b: real)
    ensures b >= 0.0
    ensures ByteLength(s) <= 8 <==> b == 0.0
  {
    if ByteLength(s) > 8 then ByteLength(s) as real * 0.5 else 0.0
  }

  /** The bonuses for the classes present: 10, 10, 10 and 15. */
  function PresenceBonus(s: string): (b: real)
    ensures 0.0 <= b <= 45.0
    ensures b == 0.0 <==> Variety(s) == 0
  {
    (if HasClass(s, Upper) then ClassBonus(Upper) else 0.0)
    + (if HasClass(s, Lower) then ClassBonus(Lower) else 0.0)
    + (if HasClass(s, Number) then ClassBonus(Number) else 0.0)
    + (if HasClass(s, Special) then ClassBonus(Special) else 0.0)
  }

  /** The score before normalisation. */
  function RawScore(s: string): (r: real)
    ensures LengthBonus(s) <= r <= LengthBonus(s) + 85.0
    ensures r == LengthBonus(s) <==> Variety(s) == 0
  {
    LengthBonus(s) + PresenceBonus(s) + Variety(s) as real * 10.0
  }

  /** The normalised score, always within [0, 1]. */
  function Score(s: string): (r: real)
    ensures 0.0 <= r <= 1.0
    ensures r == 1.0 <==> RawScore(s) >= 100.0
  {
    var normalized := RawScore(s) / 100.0;
    if normalized > 1.0 then 1.0 else normalized
  }

  /** The loop of calculatePasswordStrength: one pass over the runes sets the
      four class flags, then the bonuses are added and the sum normalised. */
  method CalculatePasswordStrength(password: string) returns (normalizedScore: real)
    ensures normalizedScore == Score(password)
    ensures 0.0 <= normalizedScore <= 1.0
  {
    var score := 0.0;
    var length := ByteLength(password);
    if length > 8 {
      score := score + length as real * 0.5;
    }

    var hasUpper, hasLower, hasNumber, hasSpecial := false, false, false, false;
    var i := 0;
    while i < |password|
      invariant 0 <= i <= |password|
      invariant hasUpper == HasClass(password[..i], Upper)
      invariant hasLower == HasClass(password[..i], Lower)
      invariant hasNumber == HasClass(password[..i], Number)
      invariant hasSpecial == HasClass(password[..i], Special)
    {
      match Classify(password[i]) {
        case Classified(Upper) => hasUpper := true;
        case Classified(Lower) => hasLower := true;
        case Classified(Number) => hasNumber := true;
        case Classified(Special) => hasSpecial := true;
        case Unclassified =>
      }
      HasClassExtend(password, i);
      i := i + 1;
    }
    assert password[..i] == password;

    if hasUpper { score := score + 10.0; }
    if hasLower { score := score + 10.0; }
    if hasNumber { score := score + 10.0; }
    if hasSpecial { score := score + 15.0; }

    var varietyCount := 0;
    if hasUpper { varietyCount := varietyCount + 1; }
    if hasLower { varietyCount := varietyCount + 1; }
    if hasNumber { varietyCount := varietyCount + 1; }
    if hasSpecial { varietyCount := varietyCount + 1; }
    score := score + varietyCount as real * 10.0;

    normalizedScore := score / 100.0;
    if normalizedScore > 1.0 {
      normalizedScore := 1.0;
    }
  }

  /** Extending a prefix by one rune adds exactly that rune's class. */
  lemma HasClassExtend(s: string, i: nat)
    requires i < |s|
    ensures forall k :: HasClass(s[..i + 1], k) <==> HasClass(s[..i], k) || Classify(s[i]) == Classified(k)
  {
  }

  /** The empty string scores 0. */
  lemma EmptyScoresZero()
    ensures Score("") == 0.0
  {
  }

  /** Without the length bonus, at most 85 of the points are reachable. */
  lemma ShortPasswordCap(s: string)
    requires ByteLength(s) <= 8
    ensures Score(s) <= 0.85
  {
  }

  /** "aaaaaaaa": 8 bytes, so no length bonus; lower-case only. */
  lemma ScoreAllLower()
    ensures Score("aaaaaaaa") == 0.2
  {
    var s := "aaaaaaaa";
    AsciiByteLength(s);
    assert Classify(s[0]) == Classified(Lower);
  }

  /** "Ab1!Ab1!Ab1!": 6 points for 12 bytes, 45 class points, 40 variety points. */
  lemma ScoreAllClasses()
    ensures Score("Ab1!Ab1!Ab1!") == 0.91
  {
    var s := "Ab1!Ab1!Ab1!";
    AsciiByteLength(s);
    assert Classify(s[0]) == Classified(Upper);
    assert Classify(s[1]) == Classified(Lower);
    assert Classify(s[2]) == Classified(Number);
    assert Classify(s[3]) == Classified(Special);
  }
}
