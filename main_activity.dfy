/** The scoring engine of the main screen: letter, word and sentence counters over a text,
    the Coleman-Liau index built from them, and the analysis that hands all four values to
    the result sheet. The word and sentence boundaries stand for what ICU's break rules
    report for the text; the counters only walk them. */
module MainActivity {
  import opened JavaText
  import opened Segmentation
  import opened ResultSheet

  // ---------------------------------------------------------------- letters

  /** The number of code units of `text` that are letters or digits. */
  function Letters(text: Text): (n: nat)
    ensures n <= |text|
  {
    if text == [] then 0
    else Letters(text[..|text| - 1]) + (if IsLetterOrDigit(text[|text| - 1]) then 1 else 0)
  }

  /** The positions of `text` that hold a letter or digit. */
  function LetterPositions(text: Text): set<nat> {
    set i: nat | i < |text| && IsLetterOrDigit(text[i])
  }

  /** The letter count is the number of positions holding a letter or digit. */
  lemma {:induction false} LettersCountsPositions(text: Text)
    ensures Letters(text) == |LetterPositions(text)|
  {
    if text != [] {
      var last := |text| - 1;
      var init := text[..last];
      LettersCountsPositions(init);
      if IsLetterOrDigit(text[last]) {
        assert LetterPositions(text) == LetterPositions(init) + {last};
      } else {
        assert LetterPositions(text) == LetterPositions(init);
      }
    }
  }

  /** Counting letters is additive over concatenation. */
  lemma {:induction false} LettersAppend(a: Text, b: Text)
    ensures Letters(a + b) == Letters(a) + Letters(b)
  {
    if b == [] {
      assert a + b == a;
    } else {
      var init := b[..|b| - 1];
      LettersAppend(a, init);
      assert (a + b)[..|a + b| - 1] == a + init;
    }
  }

  /** `getLettersCount`: one pass over the code units, counting letters and digits. */
  method LettersCount(text: Text) returns (count: nat)
    ensures count == Letters(text)
  {
    count := 0;
    for i := 0 to |text|
      invariant count == Letters(text[..i])
    {
      assert text[..i + 1][..i] == text[..i];
      if IsLetterOrDigit(text[i]) {
        count := count + 1;
      }
    }
    assert text[..|text|] == text;
  }

  /** "a,b. c" holds three letters. */
  lemma LettersExample()
    ensures Letters([0x61, 0x2C, 0x62, 0x2E, 0x20, 0x63]) == 3
  {
    var t: Text := [0x61, 0x2C, 0x62, 0x2E, 0x20, 0x63];
    LettersAppend([0x61, 0x2C, 0x62], [0x2E, 0x20, 0x63]);
    assert t == [0x61, 0x2C, 0x62] + [0x2E, 0x20, 0x63];
    var a: Text := [0x61, 0x2C, 0x62];
    assert a[..2] == [0x61, 0x2C] && a[..2][..1] == [0x61];
    var b: Text := [0x2E, 0x20, 0x63];
    assert b[..2] == [0x2E, 0x20] && b[..2][..1] == [0x2E];
  }

  // ---------------------------------------------------------------- words

  /** `isWord`: whether a segment between two word boundaries counts as a word. A single
      code unit counts when it is a letter or digit; any other segment counts when
      `trim()` leaves something of it, so "--" counts and the empty segment does not. */
  predicate IsWord(word: Text)
    ensures word == [] ==> !IsWord(word)
    ensures |word| == 1 ==> (IsWord(word) <==> IsLetterOrDigit(word[0]))
    ensures |word| != 1 ==> (IsWord(word) <==> exists i :: 0 <= i < |word| && word[i] > Space)
  {
    if |word| == 1 then IsLetterOrDigit(word[0]) else Trim(word) != []
  }

  /** Lower-casing a segment never changes whether it is a word. */
  lemma IsWordIgnoresCase(word: Text)
    ensures IsWord(ToLowerCase(word)) == IsWord(word)
  {
  }

  /** The number of segments in `ts` that are words. */
  function WordCount(ts: seq<Text>): (n: nat)
    ensures n <= |ts|
  {
    if ts == [] then 0
    else WordCount(ts[..|ts| - 1]) + (if IsWord(ts[|ts| - 1]) then 1 else 0)
  }

  /** Extending a list of segments by one adds one to the count exactly when that segment is a word. */
  lemma WordCountStep(ts: seq<Text>, k: nat)
    requires k < |ts|
    ensures WordCount(ts[..k + 1]) == WordCount(ts[..k]) + (if IsWord(ts[k]) then 1 else 0)
  {
    assert ts[..k + 1][..k] == ts[..k];
  }

  /** No word is counted exactly when no segment is a word. */
  lemma {:induction false} WordCountZero(ts: seq<Text>)
    ensures WordCount(ts) == 0 <==> forall k :: 0 <= k < |ts| ==> !IsWord(ts[k])
  {
    if ts != [] {
      var init := ts[..|ts| - 1];
      WordCountZero(init);
      assert forall k :: 0 <= k < |init| ==> init[k] == ts[k];
    }
  }

  /** The slice the word loop examines when it reaches boundary `k` is segment `k - 1`, and
      counting it, lower-cased, extends the count of the segments before it by one step. */
  lemma ExaminedSlice(text: Text, b: seq<nat>, k: nat)
    requires IsBoundaries(b, |text|) && 0 < k < |b|
    ensures text[b[k - 1]..b[k]] == Tokens(text, b)[k - 1]
    ensures WordCount(Tokens(text, b)[..k]) ==
              WordCount(Tokens(text, b)[..k - 1])
              + (if IsWord(ToLowerCase(text[b[k - 1]..b[k]])) then 1 else 0)
  {
    IsWordIgnoresCase(text[b[k - 1]..b[k]]);
    WordCountStep(Tokens(text, b), k - 1);
  }

  /** `getWordsCount`: walks the word boundaries from `first()` until `next()` reports
      `Done`, lower-cases the slice since the previous boundary and counts it when it is a
      word. The first slice, from 0 to `first()`, is empty and never counts. */
  method WordsCount(text: Text, wordBoundaries: seq<nat>) returns (count: nat)
    requires IsBoundaries(wordBoundaries, |text|)
    ensures count == WordCount(Tokens(text, wordBoundaries))
  {
    ghost var tokens := Tokens(text, wordBoundaries);
    var wordIterator := new BreakIterator.SetText(text, wordBoundaries);
    count := 0;
    var wordBoundaryIndex := wordIterator.First();
    var prevIndex := 0;
    ghost var consumed: nat := 0;
    ghost var examined: nat := 0;
    while wordBoundaryIndex != Done
      invariant wordIterator.Valid() && wordIterator.boundaries == wordBoundaries
      invariant consumed <= |wordBoundaries|
      invariant consumed < |wordBoundaries| ==>
                  wordIterator.current == consumed && wordBoundaryIndex == wordBoundaries[consumed]
      invariant consumed == |wordBoundaries| ==> wordBoundaryIndex == Done
      invariant examined == if consumed == 0 then 0 else consumed - 1
      invariant examined <= |tokens| && count == WordCount(tokens[..examined])
      invariant prevIndex == wordBoundaries[examined]
      invariant count <= consumed
      decreases |wordBoundaries| - consumed
    {
      var word := ToLowerCase(text[prevIndex..wordBoundaryIndex]);
      ghost var before := count;
      if IsWord(word) {
        count := count + 1;
      }
      if consumed == 0 {
        assert word == [] && count == before;
      } else {
        ExaminedSlice(text, wordBoundaries, consumed);
        assert count == WordCount(tokens[..consumed]);
      }
      examined := consumed;
      prevIndex := wordBoundaryIndex;
      wordBoundaryIndex := wordIterator.Next();
      consumed := consumed + 1;
    }
    assert tokens[..examined] == tokens;
  }

  /** A text never has more words than segments, nor more segments than code units. */
  lemma WordsAtMostSegments(text: Text, wordBoundaries: seq<nat>)
    requires IsBoundaries(wordBoundaries, |text|)
    ensures WordCount(Tokens(text, wordBoundaries)) <= |wordBoundaries| - 1 <= |text|
  {
    SegmentCount(wordBoundaries, |text|);
  }

  /** Whatever the word boundaries, a text holding a letter or digit has at least one word:
      the segment around that code unit is a word. */
  lemma LetterMakesWord(text: Text, wordBoundaries: seq<nat>, i: nat)
    requires IsBoundaries(wordBoundaries, |text|)
    requires i < |text| && IsLetterOrDigit(text[i])
    ensures WordCount(Tokens(text, wordBoundaries)) >= 1
  {
    var ts := Tokens(text, wordBoundaries);
    var k := SegmentOf(wordBoundaries, |text|, i, 0);
    var token := ts[k];
    assert token[i - wordBoundaries[k]] == text[i];
    assert IsWord(token);
    WordCountZero(ts);
  }

  /** Whatever the word boundaries, a text made only of code units at or below U+0020
      (spaces and control characters) has no word. */
  lemma BlankTextHasNoWords(text: Text, wordBoundaries: seq<nat>)
    requires IsBoundaries(wordBoundaries, |text|)
    requires forall i :: 0 <= i < |text| ==> text[i] <= Space
    ensures WordCount(Tokens(text, wordBoundaries)) == 0
  {
    var ts := Tokens(text, wordBoundaries);
    forall k | 0 <= k < |ts|
      ensures !IsWord(ts[k])
    {
      var lo := wordBoundaries[k];
      forall j | 0 <= j < |ts[k]|
        ensures ts[k][j] <= Space
      {
        assert ts[k][j] == text[lo + j];
      }
    }
    WordCountZero(ts);
  }

  // ---------------------------------------------------------------- sentences

  /** `getSentencesCount`: after `first()`, counts the boundaries `next()` returns before
      `Done`, which is the number of sentences between the boundaries. */
  method SentencesCount(text: Text, sentenceBoundaries: seq<nat>) returns (count: nat)
    requires IsBoundaries(sentenceBoundaries, |text|)
    ensures count == |sentenceBoundaries| - 1
  {
    var sentenceIterator := new BreakIterator.SetText(text, sentenceBoundaries);
    count := 0;
    var start := sentenceIterator.First();
    var end := sentenceIterator.Next();
    while end != Done
      invariant sentenceIterator.Valid() && sentenceIterator.boundaries == sentenceBoundaries
      invariant end != Done ==> count == sentenceIterator.current - 1
      invariant end == Done ==> count == sentenceIterator.current == |sentenceBoundaries| - 1
      decreases |sentenceBoundaries| - count
    {
      count := count + 1;
      end := sentenceIterator.Next();
    }
  }

  /** A text has no sentence exactly when it is empty, and never more sentences than
      code units. */
  lemma SentencesRange(text: Text, sentenceBoundaries: seq<nat>)
    requires IsBoundaries(sentenceBoundaries, |text|)
    ensures |sentenceBoundaries| - 1 <= |text|
    ensures |sentenceBoundaries| - 1 == 0 <==> text == []
  {
    SegmentCount(sentenceBoundaries, |text|);
  }

  // ---------------------------------------------------------------- Coleman-Liau

  /** Dividing a product by one of its factors gives back the other. */
  lemma DivideProduct(x: real, y: real, w: real)
    requires w != 0.0 && x == y * w
    ensures x / w == y
  {
  }

  /** The Coleman-Liau index over exact arithmetic: `L` letters and `S` sentences per hundred
      words, combined as 0.0588 L - 0.296 S - 15.8. The final scaling by 100 and back leaves
      the value as it is. */
  function ColemanLiau(letters: nat, words: nat, sentences: nat): (index: real)
    requires words > 0
    ensures index == (5.88 * letters as real - 29.6 * sentences as real) / words as real - 15.8
  {
    var l, s, w := letters as real, sentences as real, words as real;
    var L := (l / w) * 100.0;
    var S := (s / w) * 100.0;
    var q, r := l / w, s / w;
    assert q * w == l && r * w == s;
    assert 5.88 * l - 29.6 * s == (5.88 * q - 29.6 * r) * w;
    DivideProduct(5.88 * l - 29.6 * s, 5.88 * q - 29.6 * r, w);
    ((0.0588 * L - 0.296 * S - 15.8) * 100.0) / 100.0
  }

  /** For a fixed number of words, more letters never lower the index and more sentences never
      raise it. */
  lemma ColemanLiauMonotone(l1: nat, l2: nat, words: nat, s1: nat, s2: nat)
    requires words > 0 && l1 <= l2 && s2 <= s1
    ensures ColemanLiau(l1, words, s1) <= ColemanLiau(l2, words, s2)
  {
  }

  /** Counts under which the formula reproduces the values the instrumented test expects
      for its passages: over exact arithmetic the index stays within 1e-6 of the values the
      test expects from the single-precision computation, and on the correct side of its
      two bounds. The counts are taken as given, not derived from the passages. */
  lemma TestPassages()
    ensures ColemanLiau(29, 8, 4) < 1.0
    ensures -0.000001 < ColemanLiau(96, 23, 1) - 7.4556517303466805 < 0.000001
    ensures -0.000001 < ColemanLiau(250, 55, 2) - 9.85090831375122 < 0.000001
    ensures ColemanLiau(184, 31, 1) > 16.0
    ensures -0.000001 < ColemanLiau(639, 119, 6) - 14.281680770874022 < 0.000001
  {
  }

  /** `getColemanLiauIndex`: counts words, letters and sentences of the same text and puts
      them through the formula. The source divides by the word count unguarded. */
  method ColemanLiauIndex(text: Text, wordBoundaries: seq<nat>, sentenceBoundaries: seq<nat>)
    returns (index: real)
    requires IsBoundaries(wordBoundaries, |text|) && IsBoundaries(sentenceBoundaries, |text|)
    requires WordCount(Tokens(text, wordBoundaries)) > 0
    ensures index == ColemanLiau(Letters(text), WordCount(Tokens(text, wordBoundaries)),
                                 |sentenceBoundaries| - 1)
  {
    var words := WordsCount(text, wordBoundaries);
    var letters := LettersCount(text);
    var sentences := SentencesCount(text, sentenceBoundaries);
    index := ColemanLiau(letters, words, sentences);
  }

  /** `analyze`: scores the text and hands the index, sentences, words and letters, in that
      order, to a new result sheet. */
  method Analyze(text: Text, wordBoundaries: seq<nat>, sentenceBoundaries: seq<nat>)
    returns (sheet: ResultBottomSheet)
    requires IsBoundaries(wordBoundaries, |text|) && IsBoundaries(sentenceBoundaries, |text|)
    requires WordCount(Tokens(text, wordBoundaries)) > 0
    ensures fresh(sheet)
    ensures sheet.colemanLiauIndex ==
              ColemanLiau(Letters(text), WordCount(Tokens(text, wordBoundaries)),
                          |sentenceBoundaries| - 1)
    ensures sheet.sentences == |sentenceBoundaries| - 1
    ensures sheet.words == WordCount(Tokens(text, wordBoundaries))
    ensures sheet.characters == Letters(text)
  {
    var index := ColemanLiauIndex(text, wordBoundaries, sentenceBoundaries);
    var sentences := SentencesCount(text, sentenceBoundaries);
    var words := WordsCount(text, wordBoundaries);
    var letters := LettersCount(text);
    sheet := new ResultBottomSheet(index, sentences, words, letters);
  }
}
