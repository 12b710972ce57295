/** The result sheet: the four values of one analysis, and the ladder that turns the
    Coleman-Liau index into a comprehension label. */
module ResultSheet {

  /** The seven labels, from easiest to hardest. */
  datatype Comprehension =
    | VeryEasy
    | Easy
    | FairlyEasy
    | Conversational
    | FairlyDifficult
    | Difficult
    | ExtremelyDifficult

  /** Position of a label on the difficulty scale, 0 for very easy up to 6. */
  function Rank(c: Comprehension): nat {
    match c
    case VeryEasy => 0
    case Easy => 1
    case FairlyEasy => 2
    case Conversational => 3
    case FairlyDifficult => 4
    case Difficult => 5
    case ExtremelyDifficult => 6
  }

  /** The threshold ladder, tried from the top: each label owns a half-open band of
      indices, the bands meet at 6, 7, 8, 11, 13 and 17, and every index lies in one. */
  function GetComprehension(colemanLiauIndex: real): (c: Comprehension)
    ensures c == ExtremelyDifficult <==> 17.0 <= colemanLiauIndex
    ensures c == Difficult <==> 13.0 <= colemanLiauIndex < 17.0
    ensures c == FairlyDifficult <==> 11.0 <= colemanLiauIndex < 13.0
    ensures c == Conversational <==> 8.0 <= colemanLiauIndex < 11.0
    ensures c == FairlyEasy <==> 7.0 <= colemanLiauIndex < 8.0
    ensures c == Easy <==> 6.0 <= colemanLiauIndex < 7.0
    ensures c == VeryEasy <==> colemanLiauIndex < 6.0
  {
    if colemanLiauIndex >= 17.0 then ExtremelyDifficult
    else if colemanLiauIndex >= 13.0 then Difficult
    else if colemanLiauIndex >= 11.0 then FairlyDifficult
    else if colemanLiauIndex >= 8.0 then Conversational
    else if colemanLiauIndex >= 7.0 then FairlyEasy
    else if colemanLiauIndex >= 6.0 then Easy
    else VeryEasy
  }

  /** A harder text never gets an easier label. */
  lemma ComprehensionMonotone(i1: real, i2: real)
    requires i1 <= i2
    ensures Rank(GetComprehension(i1)) <= Rank(GetComprehension(i2))
  {
  }

  /** The bottom sheet: it keeps the four values it is created with and never changes them. */
  class ResultBottomSheet {
    const colemanLiauIndex: real
    const sentences: int
    const words: int
    const characters: int

    constructor (colemanLiauIndex: real, sentences: int, words: int, characters: int)
      ensures this.colemanLiauIndex == colemanLiauIndex
      ensures this.sentences == sentences
      ensures this.words == words
      ensures this.characters == characters
    {
      this.colemanLiauIndex := colemanLiauIndex;
      this.sentences := sentences;
      this.words := words;
      this.characters := characters;
    }
  }
}
