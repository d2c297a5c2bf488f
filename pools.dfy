/** The four character classes of the generator, their fixed pools in the
    normal and the ambiguous-excluded variant, and the working alphabet built
    from the enabled classes (main.go:29-31, main.go:46-70). */
module Pools {

  /** The four classes a user can enable, in the order the generator visits them. */
  datatype CharClass = Upper | Lower | Number | Special

  /** The four "include" flags of one generation request. */
  datatype Selection = Selection(uppercase: bool, lowercase: bool, numbers: bool, specialChars: bool)
  {
    /** Whether class `k` is switched on. */
    predicate Enabled(k: CharClass) {
      match k
      case Upper => uppercase
      case Lower => lowercase
      case Number => numbers
      case Special => specialChars
    }
  }

  /** The generator refuses to produce anything unless this holds; the
      window's Generate button is enabled exactly when it holds. */
  predicate AtLeastOneSelected(sel: Selection): (b: bool)
    ensures b <==> exists k :: sel.Enabled(k)
  {
    assert sel.Enabled(Upper) == sel.uppercase && sel.Enabled(Lower) == sel.lowercase
      && sel.Enabled(Number) == sel.numbers && sel.Enabled(Special) == sel.specialChars;
    sel.uppercase || sel.lowercase || sel.numbers || sel.specialChars
  }

  /** The characters the ambiguous-excluded pools leave out. */
  const Ambiguous: set<char> := {'I', 'O', 'l', 'o', '0', '1', '='}

  /** The pool of class `k`, in the variant chosen by `excludeAmbiguous`. */
  function Pool(k: CharClass, excludeAmbiguous: bool): (p: string)
    ensures |p| > 0
  {
    match k
    case Upper =>
      if excludeAmbiguous then "ABCDEFGHJKLMNPQRSTUVWXYZ" else "ABCDEFGHIJKLMNOPQRSTUVWXYZ"
    case Lower =>
      if excludeAmbiguous then "abcdefghijkmnpqrstuvwxyz" else "abcdefghijklmnopqrstuvwxyz"
    case Number =>
      if excludeAmbiguous then "23456789" else "0123456789"
    case Special =>
      if excludeAmbiguous then "!@#$%^&*()-_+" else "!@#$%^&*()-_+="
  }

  /** How the strength estimator sorts one rune: the first of upper-case
      letter, lower-case letter, number, punctuation-or-symbol that it is,
      or none of them. Runes are classified as in the ASCII range, where
      these four categories are disjoint. */
  datatype Classification = Classified(cls: CharClass) | Unclassified

  function Classify(r: char): (c: Classification)
    ensures c.Classified? ==> r as int < 0x80 && r != '\0'
  {
    if 'A' <= r <= 'Z' then Classified(Upper)
    else if 'a' <= r <= 'z' then Classified(Lower)
    else if '0' <= r <= '9' then Classified(Number)
    else if '!' <= r <= '/' || ':' <= r <= '@' || '[' <= r <= '`' || '{' <= r <= '~' then Classified(Special)
    else Unclassified
  }

  /** Every character of a pool is recognisably of that pool's class; so the
      four pools are pairwise disjoint. */
  lemma PoolCharClass(k: CharClass, excludeAmbiguous: bool, c: char)
    requires c in Pool(k, excludeAmbiguous)
    ensures Classify(c) == Classified(k)
  {
    match k
    case Upper => UpperPoolClass(excludeAmbiguous, c);
    case Lower => LowerPoolClass(excludeAmbiguous, c);
    case Number => NumberPoolClass(excludeAmbiguous, c);
    case Special => SpecialPoolClass(excludeAmbiguous, c);
  }

  lemma UpperPoolClass(excludeAmbiguous: bool, c: char)
    requires c in Pool(Upper, excludeAmbiguous)
    ensures Classify(c) == Classified(Upper)
  {
    if excludeAmbiguous { assert c in "ABCDEFGHJKLMNPQRSTUVWXYZ"; }
    else { assert c in "ABCDEFGHIJKLMNOPQRSTUVWXYZ"; }
  }

  lemma LowerPoolClass(excludeAmbiguous: bool, c: char)
    requires c in Pool(Lower, excludeAmbiguous)
    ensures Classify(c) == Classified(Lower)
  {
    if excludeAmbiguous { assert c in "abcdefghijkmnpqrstuvwxyz"; }
    else { assert c in "abcdefghijklmnopqrstuvwxyz"; }
  }

  lemma NumberPoolClass(excludeAmbiguous: bool, c: char)
    requires c in Pool(Number, excludeAmbiguous)
    ensures Classify(c) == Classified(Number)
  {
    if excludeAmbiguous { assert c in "23456789"; }
    else { assert c in "0123456789"; }
  }

  lemma SpecialPoolClass(excludeAmbiguous: bool, c: char)
    requires c in Pool(Special, excludeAmbiguous)
    ensures Classify(c) == Classified(Special)
  {
    if excludeAmbiguous { assert c in "!@#$%^&*()-_+"; }
    else { assert c in "!@#$%^&*()-_+="; }
  }

  lemma PoolsDisjoint(k1: CharClass, k2: CharClass, excludeAmbiguous: bool, c: char)
    requires c in Pool(k1, excludeAmbiguous) && c in Pool(k2, excludeAmbiguous)
    ensures k1 == k2
  {
    PoolCharClass(k1, excludeAmbiguous, c);
    PoolCharClass(k2, excludeAmbiguous, c);
  }

  /** The ambiguous-excluded variant of each pool is the normal pool with
      exactly the ambiguous characters removed. */
  lemma ExcludedPool(k: CharClass, c: char)
    ensures c in Pool(k, true) <==> c in Pool(k, false) && c !in Ambiguous
  {
    match k
    case Upper => ExcludedUpper(c);
    case Lower => ExcludedLower(c);
    case Number => ExcludedNumber(c);
    case Special => ExcludedSpecial(c);
  }

  lemma ExcludedUpper(c: char)
    ensures c in Pool(Upper, true) <==> c in Pool(Upper, false) && c !in Ambiguous
  {
    UpperPieces();
    if c in Pool(Upper, true) { UpperPiecesUnambiguous(c); }
  }

  /** The normal upper-case pool is the ambiguous-excluded one with I and O put back. */
  lemma UpperPieces()
    ensures Pool(Upper, false) == "ABCDEFGH" + "I" + "JKLMN" + "O" + "PQRSTUVWXYZ"
    ensures Pool(Upper, true) == "ABCDEFGH" + "JKLMN" + "PQRSTUVWXYZ"
  {
  }

  lemma UpperPiecesUnambiguous(c: char)
    requires c in "ABCDEFGH" + "JKLMN" + "PQRSTUVWXYZ"
    ensures c !in Ambiguous
  {
  }

  lemma ExcludedLower(c: char)
    ensures c in Pool(Lower, true) <==> c in Pool(Lower, false) && c !in Ambiguous
  {
    LowerPieces();
    if c in Pool(Lower, true) { LowerPiecesUnambiguous(c); }
  }

  /** The normal lower-case pool is the ambiguous-excluded one with l and o put back. */
  lemma LowerPieces()
    ensures Pool(Lower, false) == "abcdefghijk" + "l" + "mn" + "o" + "pqrstuvwxyz"
    ensures Pool(Lower, true) == "abcdefghijk" + "mn" + "pqrstuvwxyz"
  {
  }

  lemma LowerPiecesUnambiguous(c: char)
    requires c in "abcdefghijk" + "mn" + "pqrstuvwxyz"
    ensures c !in Ambiguous
  {
  }

  lemma ExcludedNumber(c: char)
    ensures c in Pool(Number, true) <==> c in Pool(Number, false) && c !in Ambiguous
  {
    assert Pool(Number, false) == "01" + Pool(Number, true);
  }

  lemma ExcludedSpecial(c: char)
    ensures c in Pool(Special, true) <==> c in Pool(Special, false) && c !in Ambiguous
  {
    assert Pool(Special, false) == Pool(Special, true) + "=";
  }

  /** The working alphabet: the pools of the enabled classes concatenated in
      class order. */
  function Alphabet(sel: Selection, excludeAmbiguous: bool): (a: string)
    ensures |a| == 0 <==> !AtLeastOneSelected(sel)
  {
    (if sel.uppercase then Pool(Upper, excludeAmbiguous) else "")
    + (if sel.lowercase then Pool(Lower, excludeAmbiguous) else "")
    + (if sel.numbers then Pool(Number, excludeAmbiguous) else "")
    + (if sel.specialChars then Pool(Special, excludeAmbiguous) else "")
  }

  /** A character is in the alphabet exactly when it is in the pool of some
      enabled class. */
  lemma AlphabetMembership(sel: Selection, excludeAmbiguous: bool, c: char)
    ensures c in Alphabet(sel, excludeAmbiguous)
      <==> exists k :: sel.Enabled(k) && c in Pool(k, excludeAmbiguous)
  {
  }

  /** With the ambiguous-excluded pools, no ambiguous character can be drawn. */
  lemma AlphabetAvoidsAmbiguous(sel: Selection, c: char)
    requires c in Alphabet(sel, true)
    ensures c !in Ambiguous
  {
    AlphabetMembership(sel, true, c);
    var k :| sel.Enabled(k) && c in Pool(k, true);
    ExcludedPool(k, c);
  }

  /** The class of an alphabet character is one of the enabled classes. */
  lemma AlphabetCharEnabled(sel: Selection, excludeAmbiguous: bool, c: char)
    requires c in Alphabet(sel, excludeAmbiguous)
    ensures Classify(c).Classified?
    ensures sel.Enabled(Classify(c).cls) && c in Pool(Classify(c).cls, excludeAmbiguous)
  {
    AlphabetMembership(sel, excludeAmbiguous, c);
    var k :| sel.Enabled(k) && c in Pool(k, excludeAmbiguous);
    PoolCharClass(k, excludeAmbiguous, c);
  }
}
