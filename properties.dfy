/** What the strength estimator says about the generator's output: the
    score of a generated password is fixed by its length and the enabled
    classes (main.go:291-294 feeds one into the other). */
module GeneratedStrength {
  import opened Pools
  import opened Strength
  import opened Generator

  /** Points earned by the classes of `sel`: class bonus plus 10 for variety each. */
  function EnabledPoints(sel: Selection): real
  {
    (if sel.uppercase then ClassBonus(Upper) + 10.0 else 0.0)
    + (if sel.lowercase then ClassBonus(Lower) + 10.0 else 0.0)
    + (if sel.numbers then ClassBonus(Number) + 10.0 else 0.0)
    + (if sel.specialChars then ClassBonus(Special) + 10.0 else 0.0)
  }

  /** The score a password of `length` ASCII characters earns when exactly
      the classes of `sel` occur in it. */
  function ExpectedScore(length: nat, sel: Selection): real
  {
    var raw := (if length > 8 then length as real * 0.5 else 0.0) + EnabledPoints(sel);
    if raw / 100.0 > 1.0 then 1.0 else raw / 100.0
  }

  /** Characters drawn from the alphabet are ASCII and only of enabled classes. */
  lemma DrawnClasses(p: string, sel: Selection, excludeAmbiguous: bool)
    requires DrawnFrom(p, Alphabet(sel, excludeAmbiguous))
    ensures ByteLength(p) == |p|
    ensures forall k :: HasClass(p, k) ==> sel.Enabled(k)
  {
    forall i | 0 <= i < |p| ensures p[i] as int < 0x80 {
      assert p[i] in p;
      AlphabetCharEnabled(sel, excludeAmbiguous, p[i]);
    }
    AsciiByteLength(p);
    forall k | HasClass(p, k) ensures sel.Enabled(k) {
      var i :| 0 <= i < |p| && Classify(p[i]) == Classified(k);
      assert p[i] in p;
      AlphabetCharEnabled(sel, excludeAmbiguous, p[i]);
    }
  }

  /** A password that covers every enabled class and draws only from the
      alphabet contains exactly the enabled classes, so its score is
      determined by its length and the selection. */
  lemma OneOfEachScore(p: string, sel: Selection, excludeAmbiguous: bool)
    requires DrawnFrom(p, Alphabet(sel, excludeAmbiguous))
    requires CoversEnabled(p, sel, excludeAmbiguous)
    ensures forall k :: HasClass(p, k) <==> sel.Enabled(k)
    ensures Score(p) == ExpectedScore(|p|, sel)
  {
    DrawnClasses(p, sel, excludeAmbiguous);
    forall k | sel.Enabled(k) ensures HasClass(p, k) {
      var c :| c in p && c in Pool(k, excludeAmbiguous);
      PoolCharClass(k, excludeAmbiguous, c);
      var i :| 0 <= i < |p| && p[i] == c;
    }
    assert HasClass(p, Upper) == sel.uppercase;
    assert HasClass(p, Lower) == sel.lowercase;
    assert HasClass(p, Number) == sel.numbers;
    assert HasClass(p, Special) == sel.specialChars;
  }

  /** Without the one-of-each guarantee some enabled class may be missing,
      so the score can only fall short of the one-of-each score. */
  lemma UnconstrainedScoreBound(p: string, sel: Selection, excludeAmbiguous: bool)
    requires DrawnFrom(p, Alphabet(sel, excludeAmbiguous))
    ensures Score(p) <= ExpectedScore(|p|, sel)
  {
    DrawnClasses(p, sel, excludeAmbiguous);
    assert HasClass(p, Upper) ==> sel.uppercase;
    assert HasClass(p, Lower) ==> sel.lowercase;
    assert HasClass(p, Number) ==> sel.numbers;
    assert HasClass(p, Special) ==> sel.specialChars;
  }

  /** The Generate button with length 12, all four classes and the
      one-of-each option switched on: whatever password comes out, it rates
      exactly 91%. */
  method GenerateAndRateAllClassesOneOfEach() returns (password: string, strength: real)
    ensures |password| == 12
    ensures strength == 0.91
  {
    password := GeneratePassword(12, true, true, true, true, true, false);
    strength := CalculatePasswordStrength(password);
    OneOfEachScore(password, Selection(true, true, true, true), false);
  }

  /** The Generate button with the window's defaults (main.go:17-23): length
      12, all four classes, one-of-each off. Some class may be missing, so
      the rating is at most 91%. */
  method GenerateAndRateDefaults() returns (password: string, strength: real)
    ensures |password| == 12
    ensures strength <= 0.91
  {
    password := GeneratePassword(12, true, true, true, true, false, false);
    strength := CalculatePasswordStrength(password);
    UnconstrainedScoreBound(password, Selection(true, true, true, true), false);
  }
}
