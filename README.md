# KeyForge password core in Dafny

KeyForge is a small desktop password generator. Its core, in `main.go`, is
three functions:

- `atLeastOneSelected` decides whether the Generate button is enabled.
- `generatePassword` builds a password from four fixed character pools
  (upper case, lower case, digits, special). Each pool also has a variant
  without the visually ambiguous characters `I O l o 0 1 =`.
- `calculatePasswordStrength` rates a password with an additive heuristic.
  It adds a length bonus, a bonus per character class present and a variety
  bonus, divides by 100 and clamps the result at 1.

The model has four modules:

- `Pools` (`pools.dfy`) holds the pools, the selection of enabled classes,
  the working alphabet and the rune classification shared by both sides.
- `Generator` (`generator.dfy`) is `generatePassword`. It fills an array by
  index, places one character per enabled class and shuffles in place.
- `Strength` (`strength.dfy`) is `calculatePasswordStrength`. A loop sets
  the four class flags, and the method is proved equal to the functional
  score `Score`.
- `GeneratedStrength` (`properties.dfy`) connects the two: it states what
  score a generated password receives.

Randomness is modelled by its support. `Intn` returns some index in range,
and the shuffle is some sequence of swaps. The contracts therefore hold for
every possible random outcome. Scores are exact `real`s.

One branch of the code does not do what it evidently means to do. When the
one-of-each option is on and `length` is smaller than the number of enabled
classes, main.go:92 sets `minOneOfEach = false`. That assignment only makes
sense if the unconstrained fill in the `else` at main.go:125-130 were meant
to run next. It cannot run, because the `if` branch has already been taken,
so the function returns `length` NUL bytes. The model follows the code
(`Generator.GeneratePassword`) and gives the evidently intended behaviour
separately (see Findings).

## Model

| member | source | states |
|---|---|---|
| `Pools.AtLeastOneSelected` | main.go:29-31 | true exactly when some class is enabled; so it is false exactly when the generator's empty-result guard at main.go:42 fires |
| `Pools.Pool` | main.go:46-56 | every pool, in both variants, is non-empty, so `rand.Intn(len(pool))` always has a range to draw from |
| `Pools.Alphabet` | main.go:58-70 | the concatenated working alphabet is empty exactly when no class is enabled |
| `Pools.PoolCharClass` | main.go:46-56 | every character of a class's pool, in both variants, is classified as that class by the estimator (so it is printable ASCII, never NUL) |
| `Pools.PoolsDisjoint` | main.go:46-56 | no character lies in the pools of two different classes |
| `Pools.ExcludedPool` | main.go:46-56 | a character is in the ambiguous-excluded pool exactly when it is in the normal pool and is not one of `I O l o 0 1 =` |
| `Pools.AlphabetMembership` | main.go:58-70 | a character is in the working alphabet exactly when it is in the pool of some enabled class |
| `Pools.AlphabetAvoidsAmbiguous` | main.go:51-70 | built from the excluded pools, the alphabet holds no ambiguous character |
| `Pools.AlphabetCharEnabled` | main.go:46-70 | every alphabet character is classified, and its class is enabled |
| `Pools.Classify` | main.go:148-158 | a classified rune is ASCII and not NUL; the four categories are tried in the order upper, lower, number, punctuation-or-symbol |
| `Strength.Utf8Length` | main.go:137 | a rune takes 1 to 4 bytes, and exactly 1 when it is ASCII |
| `Strength.ByteLength` | main.go:137 | `len` counts bytes, at least one per rune |
| `Strength.AsciiByteLength` | main.go:137 | for ASCII text the byte length equals the rune count |
| `Strength.LengthBonus` | main.go:139-141 | the length bonus is non-negative and zero exactly when the string has at most 8 bytes |
| `Strength.Variety` | main.go:175-187 | at most four classes are counted |
| `Strength.PresenceBonus` | main.go:161-172 | the class bonuses add up to between 0 and 45 points, and to 0 exactly when no class is present |
| `Strength.RawScore` | main.go:139-188 | the raw points are the length bonus plus between 0 and 85 class and variety points, with nothing added exactly when no class is present |
| `Strength.Score` | main.go:190-196 | the normalised score lies in [0, 1], and it is 1 exactly when the raw points reach 100 |
| `Strength.HasClassExtend` | main.go:148-159 | one more rune adds exactly its own class to the classes seen |
| `Strength.CalculatePasswordStrength` | main.go:135-197 | the loop over runes and the additions give exactly `Score`, within [0, 1] |
| `Strength.EmptyScoresZero` | main.go:135-197 | the empty string scores 0 |
| `Strength.ShortPasswordCap` | main.go:139-188 | a string of at most 8 bytes scores at most 0.85 |
| `Strength.ScoreAllLower` | main.go:135-197 | `"aaaaaaaa"` scores 0.2 |
| `Strength.ScoreAllClasses` | main.go:135-197 | `"Ab1!Ab1!Ab1!"` scores 0.91 |
| `Generator.Intn` | main.go:98 | a draw is an index in [0, n) |
| `Generator.Shuffle` | main.go:121-123 | shuffling only swaps, so the buffer keeps the same multiset of characters |
| `Generator.RequiredTypes` | main.go:76-88 | `requiredTypes` is at most 4 and is 0 exactly when no class is enabled |
| `Generator.EnabledClasses` | main.go:97-112 | the placement order lists each enabled class once and nothing else; its length is `requiredTypes` |
| `Generator.PermutationKeepsMembers` | main.go:121-123 | a reordering keeps every alphabet bound and every enabled-class coverage |
| `Generator.FillFrom` | main.go:115-118 | from the given index to the end, every position gets a draw from the alphabet; positions before it are unchanged |
| `Generator.PlaceOne` | main.go:97-100 | writes a draw from one class's pool at `currentIndex`, moves the index by one, and leaves every other position unchanged |
| `Generator.PlaceRequired` | main.go:94-112 | position i holds a draw from the pool of the i-th enabled class; `currentIndex` ends at `requiredTypes`; later positions are unchanged |
| `Generator.RequiredThenFilled` | main.go:94-118 | required placements followed by alphabet fills give a buffer drawn from the alphabet that covers every enabled class |
| `Generator.FillOneOfEach` | main.go:94-123 | after placement, fill and shuffle, the buffer is drawn from the alphabet and covers every enabled class |
| `Generator.NoAmbiguousDrawn` | main.go:51-56 | alphabet draws and NUL bytes are never ambiguous characters when the excluded pools are used |
| `Generator.GeneratePassword` | main.go:41-133 | no class enabled gives `""`. Otherwise the result has `length` characters. Without the one-of-each option, or with room for it, each character is from the alphabet. With the option and room, every enabled class occurs. With the option and no room, all characters are NUL. With `excludeAmbiguous`, no ambiguous character ever occurs |
| `Generator.GeneratePasswordWithFallback` | main.go:90-130 | the intended behaviour: every non-empty result has `length` characters from the alphabet, and the one-of-each option is dropped when there is no room for it |
| `Generator.TooShortForOneOfEach` | main.go:90-92 | length 2 with all four classes and the option on gives `"\0\0"` as written, and two characters drawn from the alphabet (so no NUL) as intended |
| `GeneratedStrength.DrawnClasses` | main.go:148-158 | a password drawn from the alphabet is ASCII (bytes = runes) and shows only enabled classes |
| `GeneratedStrength.OneOfEachScore` | main.go:135-197 | a one-of-each password contains exactly the enabled classes, so its score is fixed by its length and the selection |
| `GeneratedStrength.UnconstrainedScoreBound` | main.go:125-130 | a password drawn without the one-of-each guarantee scores at most the one-of-each score for its length |
| `GeneratedStrength.GenerateAndRateAllClassesOneOfEach` | main.go:290-296 | with length 12, all classes enabled and the one-of-each option on, every generated password is 12 characters long and rates exactly 0.91 |
| `GeneratedStrength.GenerateAndRateDefaults` | main.go:290-296 | with the window's defaults (length 12, all classes, one-of-each off, main.go:17-23), every generated password is 12 characters long and rates at most 0.91 |

## Left out

- `main` (main.go:199-349) and `updateGenerateButtonState` (main.go:34-39) are not modelled. They are the Fyne window, widgets, tray menu, icon loading and clipboard: UI and I/O only.
- The process-wide option variables (main.go:16-25) are written by UI callbacks. The model passes the options as parameters instead.
- `rand.Seed(time.Now().UnixNano())` is not modelled; neither is the uniformity of `rand.Intn` and `rand.Shuffle`. The clock and the distribution cannot be stated here. Only "some index in range" and "some sequence of in-range swaps" are kept.
- Generator.GeneratePassword: states the set of possible results only, not the probability of each one.
- Generator.Shuffle: Go's `rand.Shuffle` internals (its 31-bit and 63-bit draws) are replaced by a plain Fisher-Yates pass with an unspecified index per step.
- The `float64` arithmetic of the strength score is replaced by exact reals. Every intermediate value is a multiple of 0.5, so only the final division by 100 could round.
- Pools.Classify: the Unicode category tables behind `unicode.IsUpper`, `IsLower`, `IsNumber`, `IsPunct` and `IsSymbol` are library code. The model classifies runes as in the ASCII range, where all printable non-alphanumeric characters are punctuation or symbols. Non-ASCII runes count as no class, so accented letters and non-ASCII digits earn no class bonus here.
- Strings given to the estimator are sequences of Unicode scalar values. Invalid UTF-8, which Go's `range` decodes as U+FFFD per bad byte, is not modelled.
- The generator's `[]byte` buffer is an array of `char`. Every character it can hold (the pool characters and NUL) is ASCII, so each occupies one byte.
- The working alphabet is built by the `Alphabet` function. The source concatenates the same pools in the same order, one `+=` at a time.
- A negative `length` with some class enabled makes `make` panic in the source. `GeneratePassword` requires `length >= 0` in that case.

## Findings

| source | as written | input that shows it | evidently intended | confidence | as-written member | corrected member |
|---|---|---|---|---|---|---|
| main.go:90-92 | when `length < requiredTypes` the code clears its local `minOneOfEach` flag inside the branch already taken, so the fill loop at main.go:125-130 never runs and the buffer of `length` NUL bytes is returned | `length` 2, all four classes, one-of-each on: the result is two NUL bytes. Only a direct call can do this: the window's one caller (main.go:291) passes the slider value, which stays in [4, 128] (main.go:230-238), and at most 4 classes can be enabled | drop the one-of-each requirement and draw every position from the alphabet | not executed; high | `Generator.TooShortForOneOfEach` | `Generator.GeneratePasswordWithFallback` |
