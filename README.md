# Readability scoring, modelled in Dafny

The Readability app scores a piece of English text with the Coleman-Liau index. It counts
the letters and digits, the words and the sentences of the text. It turns letters and
sentences per hundred words into an index. A result sheet then shows the index, the
three counts and a comprehension label taken from a threshold ladder.

This project models that scoring core:

- `java_text.dfy` (module `JavaText`): a Java `String` as a sequence of UTF-16 code units.
  It also holds the three library calls the counters use: `Character.isLetterOrDigit`,
  `String.trim` and `String.toLowerCase`.
- `segmentation.dfy` (module `Segmentation`): ICU's `BreakIterator`, seen only through its
  contract. For a text of length n the break rules (Unicode Standard Annex #29, sections 4
  and 5) give a strictly increasing list of offsets from 0 to n. `IsBoundaries` states
  that contract. The class `BreakIterator` hands the offsets out through `First` and
  `Next`, and `Next` returns `Done` (-1) after the last one. `Tokens` cuts the text at the
  boundaries, and `TokensCoverText` proves the pieces join back into the text.
- `main_activity.dfy` (module `MainActivity`): the three counters as loop methods, each
  proved against a specification function or closed form. It also has the Coleman-Liau formula over exact
  reals, `getColemanLiauIndex`, and `analyze`, which builds the result sheet.
- `result_sheet.dfy` (module `ResultSheet`): the seven comprehension labels, the threshold
  ladder, and the bottom sheet that stores the four values.

Each counter takes the boundaries as a parameter. Those boundaries stand for what ICU
reports for the text. The word and sentence results hold for every boundary list that
meets the iterator's contract. For example, `LetterMakesWord` shows that a text with a
letter or digit has at least one word, whatever the word boundaries. So the index is then
defined.

## Model

| member | source | states |
|---|---|---|
| `JavaText.IsLetterOrDigit` | app/src/main/java/cz/tomashavlicek/readability/MainActivity.java:227 | the letter-or-digit test of one code unit; every letter or digit lies above U+0020 |
| `JavaText.Trim` | app/src/main/java/cz/tomashavlicek/readability/MainActivity.java:256 | `trim()` leaves nothing exactly when every code unit is at or below U+0020; otherwise what it leaves starts and ends above U+0020 |
| `JavaText.LowerUnit` | app/src/main/java/cz/tomashavlicek/readability/MainActivity.java:242 | lower-casing one code unit keeps it a letter or digit (or not), and keeps it above or at/below U+0020 |
| `JavaText.ToLowerCase` | app/src/main/java/cz/tomashavlicek/readability/MainActivity.java:242 | `toLowerCase()` keeps the length, and at every position keeps letter-or-digit and the U+0020 cut |
| `Segmentation.IsBoundaries` | app/src/main/java/cz/tomashavlicek/readability/MainActivity.java:235-236 | the contract of a word or sentence break iterator (the sentence iterator is set up the same way at MainActivity.java:260-261) on a text of length n: offsets start at 0, end at n and strictly increase, so every boundary lies within the text |
| `Segmentation.SegmentCount` | app/src/main/java/cz/tomashavlicek/readability/MainActivity.java:239-247 | a text of length n has at most n segments between boundaries, and none exactly when it is empty |
| `Segmentation.Tokens` | app/src/main/java/cz/tomashavlicek/readability/MainActivity.java:242 | the slices between consecutive boundaries: one fewer than the boundaries, each non-empty |
| `Segmentation.TokensPrefix` | app/src/main/java/cz/tomashavlicek/readability/MainActivity.java:239-247 | the slices before boundary k join up to the text's prefix ending at that boundary |
| `Segmentation.TokensCoverText` | app/src/main/java/cz/tomashavlicek/readability/MainActivity.java:239-247 | the slices the word loop examines join up to the whole text, with nothing lost, repeated or reordered |
| `Segmentation.SegmentOf` | app/src/main/java/cz/tomashavlicek/readability/MainActivity.java:239-247 | every offset inside the text lies in a segment between two consecutive boundaries, found from any earlier boundary on |
| `Segmentation.BreakIterator.SetText` | app/src/main/java/cz/tomashavlicek/readability/MainActivity.java:235-236 | creating the iterator and calling `setText` leaves it on the first boundary of the given text |
| `Segmentation.BreakIterator.First` | app/src/main/java/cz/tomashavlicek/readability/MainActivity.java:239 | `first()` moves to the first boundary and returns offset 0 |
| `Segmentation.BreakIterator.Next` | app/src/main/java/cz/tomashavlicek/readability/MainActivity.java:247 | `next()` moves one boundary on and returns it; on the last boundary it stays and returns `DONE` |
| `MainActivity.Letters` | app/src/main/java/cz/tomashavlicek/readability/MainActivity.java:224-232 | the letter count of a text never exceeds its length |
| `MainActivity.LettersCountsPositions` | app/src/main/java/cz/tomashavlicek/readability/MainActivity.java:226-231 | the letter count equals the number of indices i in [0, length) whose code unit is a letter or digit |
| `MainActivity.LettersAppend` | app/src/main/java/cz/tomashavlicek/readability/MainActivity.java:226-231 | counting letters is additive: letters(a + b) = letters(a) + letters(b) |
| `MainActivity.LettersCount` | app/src/main/java/cz/tomashavlicek/readability/MainActivity.java:224-232 | `getLettersCount` returns exactly the letter count of the text |
| `MainActivity.LettersExample` | app/src/main/java/cz/tomashavlicek/readability/MainActivity.java:224-232 | "a,b. c" holds three letters |
| `MainActivity.IsWord` | app/src/main/java/cz/tomashavlicek/readability/MainActivity.java:252-257 | `isWord` rejects the empty slice, accepts a one-unit slice exactly when it is a letter or digit, and accepts a longer slice exactly when some code unit is above U+0020 (so "--" is a word) |
| `MainActivity.IsWordIgnoresCase` | app/src/main/java/cz/tomashavlicek/readability/MainActivity.java:242-243 | lower-casing a slice before `isWord` never changes the verdict |
| `MainActivity.WordCount` | app/src/main/java/cz/tomashavlicek/readability/MainActivity.java:243-245 | the number of word slices never exceeds the number of slices |
| `MainActivity.WordCountStep` | app/src/main/java/cz/tomashavlicek/readability/MainActivity.java:243-245 | examining one more slice adds one to the count exactly when that slice is a word |
| `MainActivity.WordCountZero` | app/src/main/java/cz/tomashavlicek/readability/MainActivity.java:243-245 | the word count is zero exactly when no slice is a word |
| `MainActivity.WordsCount` | app/src/main/java/cz/tomashavlicek/readability/MainActivity.java:234-250 | `getWordsCount` returns the number of slices between consecutive word boundaries that `isWord` accepts; its loop keeps `prevIndex` on the previous boundary and the count at most the boundaries consumed |
| `MainActivity.WordsAtMostSegments` | app/src/main/java/cz/tomashavlicek/readability/MainActivity.java:239-249 | words <= segments <= length of the text |
| `MainActivity.LetterMakesWord` | app/src/main/java/cz/tomashavlicek/readability/MainActivity.java:239-256 | for any word boundaries, a text holding a letter or digit has at least one word |
| `MainActivity.BlankTextHasNoWords` | app/src/main/java/cz/tomashavlicek/readability/MainActivity.java:239-256 | for any word boundaries, a text of spaces and control characters has no word |
| `MainActivity.SentencesCount` | app/src/main/java/cz/tomashavlicek/readability/MainActivity.java:259-269 | `getSentencesCount` returns the number of boundaries `next()` yields after `first()`, that is, one fewer than the boundaries |
| `MainActivity.SentencesRange` | app/src/main/java/cz/tomashavlicek/readability/MainActivity.java:264-268 | the sentence count is 0 exactly for the empty text, and never exceeds the text's length |
| `MainActivity.ColemanLiau` | app/src/main/java/cz/tomashavlicek/readability/MainActivity.java:216-222 | with words > 0 the index is (5.88 letters - 29.6 sentences) / words - 15.8, which is 0.0588 L - 0.296 S - 15.8 with L and S per hundred words; the scaling by 100 and back is an identity |
| `MainActivity.ColemanLiauMonotone` | app/src/main/java/cz/tomashavlicek/readability/MainActivity.java:218-221 | for fixed words, more letters never lower the index and more sentences never raise it |
| `MainActivity.TestPassages` | app/src/androidTest/java/cz/tomashavlicek/readability/MainActivityTest.java:76-80 | with the counts the passages of the test have, the exact-arithmetic index lies within 1e-6 of each expected value and on the right side of each bound |
| `MainActivity.ColemanLiauIndex` | app/src/main/java/cz/tomashavlicek/readability/MainActivity.java:216-222 | `getColemanLiauIndex` is the formula applied to the letter, word and sentence counts of the same text |
| `MainActivity.Analyze` | app/src/main/java/cz/tomashavlicek/readability/MainActivity.java:207-214 | `analyze` passes the index, sentences, words and letters of the same text, in that order, to a new result sheet |
| `ResultSheet.GetComprehension` | app/src/main/java/cz/tomashavlicek/readability/ResultBottomSheet.java:61-77 | each of the seven labels owns exactly one half-open band of indices: below 6, [6,7), [7,8), [8,11), [11,13), [13,17), 17 and above |
| `ResultSheet.ComprehensionMonotone` | app/src/main/java/cz/tomashavlicek/readability/ResultBottomSheet.java:61-77 | a larger index never gets an easier label on the scale very easy < ... < extremely difficult |
| `ResultSheet.ResultBottomSheet.constructor` | app/src/main/java/cz/tomashavlicek/readability/ResultBottomSheet.java:20-25 | the sheet stores the index, sentences, words and characters exactly as passed; the fields are never reassigned |

## Left out

- ICU's segmentation rules are not modelled. These are the word and sentence break rules of Unicode Standard Annex #29 and the CLDR abbreviation suppressions that `en@ss=standard` turns on. The boundaries are a parameter that must meet the iterator's contract. So the word count of 55 and the sentence counts of 3 and 1 that the instrumented test expects are not derived from the text.
- `MainActivity.TestPassages` takes the letter, word and sentence counts of the test passages as given. It states only the formula's value for them. The letter count of 235 for the Alice passage is not proved; `MainActivity.LettersExample` proves the count for a short text.
- `JavaText.IsLetterOrDigit`: exact only for U+0000..U+024F. Above that it answers false, while Java consults the full Unicode tables, for example for Greek, Cyrillic or CJK letters.
- `JavaText.ToLowerCase`, `JavaText.LowerUnit`: lower-case only the upper-case letters of Basic Latin and Latin-1, one code unit for one. Java's locale-dependent `toLowerCase()` maps more code units and can lengthen a string (U+0130 becomes two code units), so the contract of `JavaText.ToLowerCase` that the length is kept does not hold of Java in general. The model only needs the fact that lower-casing leaves the `isWord` verdict unchanged, and `MainActivity.IsWordIgnoresCase` states that fact.
- `MainActivity.ColemanLiau`: computed over exact reals. The source computes `L` and `S` in single-precision `float` and the rest in `double`. Each of `L` and `S` then carries a relative rounding error of about 1e-7, so the absolute difference from the model grows with `L` and `S`: it stays below 1e-6 on the test passages but reaches about 1e-4 when there are hundreds of letters per word. Bit-exact results are not modelled.
- `MainActivity.ColemanLiauIndex` and `MainActivity.Analyze` require at least one word. The source divides by the word count without a guard. With no words `L` and `S` are each NaN or an infinity, so the index is always NaN, and `getComprehension` sends NaN to "very easy" because every comparison fails. The model has no NaN.
- `ResultSheet.GetComprehension` takes a real index, so the NaN and infinity cases of the `double` are not modelled.
- Java's 32-bit `int` counters are modelled as unbounded naturals. No count can exceed the text's length, which is below 2^31, so nothing wraps.
- Supplementary-plane characters are seen, as in Java, as two surrogate code units. Neither unit is a letter or digit.
- The Android activity is not part of this model: lifecycle, menus, the text field and its editor action, image capture and selection, temporary files, the Firebase cloud OCR call and its callbacks. The OCR text arrives with newlines replaced by spaces. It reaches `analyze` only as a `Text`.
- The sheet's presentation is UI and is not modelled: `onCreateView` formats the index with `%.2f` in the device locale and loads string resources, and `onActivityCreated` sets the dismiss animation.
