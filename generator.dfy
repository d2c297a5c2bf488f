/** generatePassword (main.go:41-133): builds the working alphabet from the
    enabled pools, fills a byte buffer of the requested length by index and,
    when one character of each enabled class is required, places those first
    and shuffles the buffer in place.

    Randomness is modelled by its support only: `Intn` yields some index in
    range, and the shuffle is some sequence of in-range swaps. */
module Generator {
  import opened Pools

  /** `rand.Intn(n)`: some index in [0, n); which one is left open. */
  method Intn(n: int) returns (k: int)
    requires n > 0
    ensures 0 <= k < n
  {
    k :| 0 <= k < n;
  }

  /** `rand.Shuffle` with the swap callback of main.go:121-123: a
      Fisher-Yates pass in which each step swaps position i with some
      position j <= i. Only swaps happen, so the buffer keeps its contents. */
  method Shuffle(password: array<char>)
    modifies password
    ensures multiset(password[..]) == multiset(old(password[..]))
  {
    var i := password.Length - 1;
    while i > 0
      invariant i < password.Length
      invariant multiset(password[..]) == multiset(old(password[..]))
    {
      var j := Intn(i + 1);
      password[i], password[j] := password[j], password[i];
      i := i - 1;
    }
  }

  /** `requiredTypes`: how many classes are enabled. */
  function RequiredTypes(sel: Selection): (n: nat)
    ensures n <= 4
    ensures n == 0 <==> !AtLeastOneSelected(sel)
  {
    (if sel.uppercase then 1 else 0) + (if sel.lowercase then 1 else 0)
    + (if sel.numbers then 1 else 0) + (if sel.specialChars then 1 else 0)
  }

  /** Every character of `p` was drawn from `alphabet`. */
  predicate DrawnFrom(p: string, alphabet: string)
  {
    forall c :: c in p ==> c in alphabet
  }

  /** Every enabled class has at least one character in `p`. */
  predicate CoversEnabled(p: string, sel: Selection, excludeAmbiguous: bool)
  {
    forall k :: sel.Enabled(k) ==> exists c :: c in p && c in Pool(k, excludeAmbiguous)
  }

  /** Reordering a string keeps both what it draws from and what it covers. */
  lemma PermutationKeepsMembers(s: string, t: string, sel: Selection, excludeAmbiguous: bool)
    requires multiset(s) == multiset(t)
    ensures forall alphabet :: DrawnFrom(s, alphabet) ==> DrawnFrom(t, alphabet)
    ensures CoversEnabled(s, sel, excludeAmbiguous) ==> CoversEnabled(t, sel, excludeAmbiguous)
  {
    assert forall c :: c in s <==> c in multiset(s);
    assert forall c :: c in t <==> c in multiset(t);
  }

  /** Writes a draw from `characterSet` into every position from `from` on,
      leaving the positions before it alone. */
  method FillFrom(password: array<char>, from: nat, characterSet: string)
    requires from <= password.Length && |characterSet| > 0
    modifies password
    ensures forall i :: 0 <= i < from ==> password[i] == old(password[i])
    ensures forall i :: from <= i < password.Length ==> password[i] in characterSet
  {
    var currentIndex := from;
    while currentIndex < password.Length
      invariant from <= currentIndex <= password.Length
      invariant forall i :: 0 <= i < from ==> password[i] == old(password[i])
      invariant forall i :: from <= i < currentIndex ==> password[i] in characterSet
    {
      var k := Intn(|characterSet|);
      password[currentIndex] := characterSet[k];
      currentIndex := currentIndex + 1;
    }
  }

  /** The enabled classes in the order the generator visits them. */
  function EnabledClasses(sel: Selection): (ks: seq<CharClass>)
    ensures |ks| == RequiredTypes(sel)
    ensures forall k :: k in ks <==> sel.Enabled(k)
  {
    (if sel.uppercase then [Upper] else []) + (if sel.lowercase then [Lower] else [])
    + (if sel.numbers then [Number] else []) + (if sel.specialChars then [Special] else [])
  }

  /** Position i of the buffer holds a draw from the pool of the i-th class of `ks`. */
  predicate PlacedFrom(p: string, ks: seq<CharClass>, excludeAmbiguous: bool)
  {
    |ks| <= |p| && forall i :: 0 <= i < |ks| ==> p[i] in Pool(ks[i], excludeAmbiguous)
  }

  /** `password[currentIndex] = pool[rand.Intn(len(pool))]; currentIndex++`
      for the pool of class `k`. */
  method PlaceOne(password: array<char>, currentIndex: nat, k: CharClass, excludeAmbiguous: bool,
                  ghost done: seq<CharClass>) returns (next: nat)
    requires currentIndex == |done| < password.Length
    requires PlacedFrom(password[..], done, excludeAmbiguous)
    modifies password
    ensures next == currentIndex + 1
    ensures PlacedFrom(password[..], done + [k], excludeAmbiguous)
    ensures forall i :: 0 <= i < password.Length && i != currentIndex ==> password[i] == old(password[i])
  {
    var pool := Pool(k, excludeAmbiguous);
    var j := Intn(|pool|);
    password[currentIndex] := pool[j];
    next := currentIndex + 1;
  }

  /** Writes one draw from each enabled class's pool at the front of the
      buffer, in class order; returns the next free index. */
  method PlaceRequired(password: array<char>, sel: Selection, excludeAmbiguous: bool) returns (currentIndex: nat)
    requires RequiredTypes(sel) <= password.Length
    modifies password
    ensures currentIndex == RequiredTypes(sel)
    ensures PlacedFrom(password[..], EnabledClasses(sel), excludeAmbiguous)
    ensures forall i :: currentIndex <= i < password.Length ==> password[i] == old(password[i])
  {
    ghost var done: seq<CharClass> := [];
    currentIndex := 0;
    if sel.uppercase {
      currentIndex := PlaceOne(password, currentIndex, Upper, excludeAmbiguous, done);
      done := done + [Upper];
    }
    if sel.lowercase {
      currentIndex := PlaceOne(password, currentIndex, Lower, excludeAmbiguous, done);
      done := done + [Lower];
    }
    if sel.numbers {
      currentIndex := PlaceOne(password, currentIndex, Number, excludeAmbiguous, done);
      done := done + [Number];
    }
    if sel.specialChars {
      currentIndex := PlaceOne(password, currentIndex, Special, excludeAmbiguous, done);
      done := done + [Special];
    }
    assert done == EnabledClasses(sel);
  }

  /** A buffer whose front holds one draw per enabled class and whose rest
      holds draws from the alphabet is drawn from the alphabet and covers
      every enabled class. */
  lemma RequiredThenFilled(p: string, sel: Selection, excludeAmbiguous: bool)
    requires PlacedFrom(p, EnabledClasses(sel), excludeAmbiguous)
    requires forall i :: RequiredTypes(sel) <= i < |p| ==> p[i] in Alphabet(sel, excludeAmbiguous)
    ensures DrawnFrom(p, Alphabet(sel, excludeAmbiguous))
    ensures CoversEnabled(p, sel, excludeAmbiguous)
  {
    var ks := EnabledClasses(sel);
    forall c | c in p ensures c in Alphabet(sel, excludeAmbiguous) {
      var i :| 0 <= i < |p| && p[i] == c;
      if i < |ks| {
        AlphabetMembership(sel, excludeAmbiguous, c);
      }
    }
    forall k | sel.Enabled(k) ensures exists c :: c in p && c in Pool(k, excludeAmbiguous) {
      var i :| 0 <= i < |ks| && ks[i] == k;
      assert p[i] in p;
    }
  }

  /** The one-of-each branch of generatePassword (main.go:94-123): one draw
      per enabled class at the front, draws from the alphabet after it, then
      an in-place shuffle. */
  method FillOneOfEach(password: array<char>, sel: Selection, excludeAmbiguous: bool)
    requires RequiredTypes(sel) <= password.Length && AtLeastOneSelected(sel)
    modifies password
    ensures DrawnFrom(password[..], Alphabet(sel, excludeAmbiguous))
    ensures CoversEnabled(password[..], sel, excludeAmbiguous)
  {
    var currentIndex := PlaceRequired(password, sel, excludeAmbiguous);
    FillFrom(password, currentIndex, Alphabet(sel, excludeAmbiguous));
    assert PlacedFrom(password[..], EnabledClasses(sel), excludeAmbiguous);
    RequiredThenFilled(password[..], sel, excludeAmbiguous);
    ghost var before := password[..];
    Shuffle(password);
    PermutationKeepsMembers(before, password[..], sel, excludeAmbiguous);
  }

  /** Whatever is drawn from the alphabet, or left NUL, is never ambiguous
      when the ambiguous-excluded pools are in use. */
  lemma NoAmbiguousDrawn(p: string, sel: Selection, excludeAmbiguous: bool)
    requires forall c :: c in p ==> c in Alphabet(sel, excludeAmbiguous) || c == '\0'
    requires excludeAmbiguous
    ensures forall c :: c in p ==> c !in Ambiguous
  {
    forall c | c in p && c != '\0' ensures c !in Ambiguous {
      AlphabetAvoidsAmbiguous(sel, c);
    }
  }

  /** generatePassword as written. With no class enabled the result is
      empty. Otherwise it has `length` characters, and:
      - without the one-of-each option, each is drawn from the alphabet;
      - with it and room for one character per enabled class, each is drawn
        from the alphabet and every enabled class is represented;
      - with it but too little room, nothing is written and the buffer of
        NUL bytes is returned as it is. */
  method GeneratePassword(length: int, uppercase: bool, lowercase: bool, numbers: bool,
                          specialChars: bool, minOneOfEach: bool, excludeAmbiguous: bool)
    returns (password: string)
    requires AtLeastOneSelected(Selection(uppercase, lowercase, numbers, specialChars)) ==> length >= 0
    ensures var sel := Selection(uppercase, lowercase, numbers, specialChars);
      !AtLeastOneSelected(sel) ==> password == ""
    ensures var sel := Selection(uppercase, lowercase, numbers, specialChars);
      AtLeastOneSelected(sel) ==> |password| == length
    ensures var sel := Selection(uppercase, lowercase, numbers, specialChars);
      AtLeastOneSelected(sel) && (!minOneOfEach || length >= RequiredTypes(sel))
      ==> DrawnFrom(password, Alphabet(sel, excludeAmbiguous))
    ensures var sel := Selection(uppercase, lowercase, numbers, specialChars);
      AtLeastOneSelected(sel) && minOneOfEach && length >= RequiredTypes(sel)
      ==> CoversEnabled(password, sel, excludeAmbiguous)
    ensures var sel := Selection(uppercase, lowercase, numbers, specialChars);
      AtLeastOneSelected(sel) && minOneOfEach && length < RequiredTypes(sel)
      ==> forall c :: c in password ==> c == '\0'
    ensures excludeAmbiguous ==> forall c :: c in password ==> c !in Ambiguous
  {
    var sel := Selection(uppercase, lowercase, numbers, specialChars);
    if !uppercase && !lowercase && !numbers && !specialChars {
      return "";
    }
    var characterSet := Alphabet(sel, excludeAmbiguous);
    var buffer := new char[length](_ => '\0');

    if minOneOfEach {
      var requiredTypes := 0;
      if uppercase { requiredTypes := requiredTypes + 1; }
      if lowercase { requiredTypes := requiredTypes + 1; }
      if numbers { requiredTypes := requiredTypes + 1; }
      if specialChars { requiredTypes := requiredTypes + 1; }

      if length < requiredTypes {
        // The source clears its local flag here, but the unconstrained
        // branch is already out of reach: the buffer stays all NUL.
      } else {
        FillOneOfEach(buffer, sel, excludeAmbiguous);
      }
    } else {
      FillFrom(buffer, 0, characterSet);
    }
    password := buffer[..];
    if excludeAmbiguous {
      NoAmbiguousDrawn(password, sel, excludeAmbiguous);
    }
  }

  /** generatePassword as evidently intended: when the one-of-each
      requirement cannot be met, it is dropped and every position is drawn
      from the alphabet, as when the option is off. */
  method GeneratePasswordWithFallback(length: int, uppercase: bool, lowercase: bool, numbers: bool,
                                      specialChars: bool, minOneOfEach: bool, excludeAmbiguous: bool)
    returns (password: string)
    requires AtLeastOneSelected(Selection(uppercase, lowercase, numbers, specialChars)) ==> length >= 0
    ensures var sel := Selection(uppercase, lowercase, numbers, specialChars);
      !AtLeastOneSelected(sel) ==> password == ""
    ensures var sel := Selection(uppercase, lowercase, numbers, specialChars);
      AtLeastOneSelected(sel) ==> |password| == length && DrawnFrom(password, Alphabet(sel, excludeAmbiguous))
    ensures var sel := Selection(uppercase, lowercase, numbers, specialChars);
      AtLeastOneSelected(sel) && minOneOfEach && length >= RequiredTypes(sel)
      ==> CoversEnabled(password, sel, excludeAmbiguous)
    ensures excludeAmbiguous ==> forall c :: c in password ==> c !in Ambiguous
  {
    var sel := Selection(uppercase, lowercase, numbers, specialChars);
    if !uppercase && !lowercase && !numbers && !specialChars {
      return "";
    }
    var characterSet := Alphabet(sel, excludeAmbiguous);
    var buffer := new char[length](_ => '\0');

    if minOneOfEach && length >= RequiredTypes(sel) {
      FillOneOfEach(buffer, sel, excludeAmbiguous);
    } else {
      FillFrom(buffer, 0, characterSet);
    }
    password := buffer[..];
    if excludeAmbiguous {
      NoAmbiguousDrawn(password, sel, excludeAmbiguous);
    }
  }

  /** Two characters requested with all four classes and the one-of-each
      option: the code as written hands back two NUL bytes, where the
      intended fallback gives two alphabet characters. */
  method TooShortForOneOfEach() returns (asWritten: string, intended: string)
    ensures asWritten == "\0\0"
    ensures |intended| == 2 && '\0' !in intended
    ensures DrawnFrom(intended, Alphabet(Selection(true, true, true, true), false))
  {
    asWritten := GeneratePassword(2, true, true, true, true, true, false);
    assert asWritten[0] in asWritten && asWritten[1] in asWritten;
    intended := GeneratePasswordWithFallback(2, true, true, true, true, true, false);
    AlphabetMembership(Selection(true, true, true, true), false, '\0');
    if '\0' in intended {
      var k :| Selection(true, true, true, true).Enabled(k) && '\0' in Pool(k, false);
      PoolCharClass(k, false, '\0');
    }
  }
}
