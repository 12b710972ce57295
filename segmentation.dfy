/** ICU's `BreakIterator`, seen only through its contract. The word and sentence rules of
    Unicode Standard Annex #29 are not modelled: for a given text they produce a strictly
    increasing sequence of boundary offsets that starts at 0 and ends at the text's length,
    and the iterator hands these out one at a time. */
module Segmentation {
  import opened JavaText

  /** `BreakIterator.DONE`, returned by `next()` once the last boundary has been passed. */
  const Done: int := -1

  /** The boundaries a break iterator reports for a text of length `n`: `first()` is 0,
      the last one is `n`, and every boundary lies strictly after the one before it. */
  predicate IsBoundaries(b: seq<nat>, n: nat)
    ensures IsBoundaries(b, n) ==> forall k :: 0 <= k < |b| ==> b[k] <= n
  {
    |b| >= 1 && b[0] == 0 && b[|b| - 1] == n
    && forall i, j :: 0 <= i < j < |b| ==> b[i] < b[j]
  }

  /** Strictly increasing offsets from 0 climb at least one step per boundary. */
  lemma {:induction false} BoundaryAtLeastPosition(b: seq<nat>, n: nat, k: nat)
    requires IsBoundaries(b, n) && k < |b|
    ensures b[k] >= k
  {
    if k > 0 {
      BoundaryAtLeastPosition(b, n, k - 1);
    }
  }

  /** A text of length `n` has at most `n` segments, and none at all exactly when it is empty. */
  lemma SegmentCount(b: seq<nat>, n: nat)
    requires IsBoundaries(b, n)
    ensures |b| - 1 <= n
    ensures |b| == 1 <==> n == 0
  {
    BoundaryAtLeastPosition(b, n, |b| - 1);
  }

  /** The segments between consecutive boundaries, in order. Every one is non-empty. */
  function Tokens(text: Text, b: seq<nat>): (ts: seq<Text>)
    requires IsBoundaries(b, |text|)
    ensures |ts| == |b| - 1
    ensures forall k :: 0 <= k < |ts| ==> |ts[k]| > 0
  {
    seq(|b| - 1, k requires 0 <= k < |b| - 1 => text[b[k]..b[k + 1]])
  }

  /** The segments joined back together. */
  function Concat(ts: seq<Text>): Text {
    if ts == [] then [] else Concat(ts[..|ts| - 1]) + ts[|ts| - 1]
  }

  /** The segments before boundary `k` make up the text up to that boundary. */
  lemma {:induction false} TokensPrefix(text: Text, b: seq<nat>, k: nat)
    requires IsBoundaries(b, |text|) && k < |b|
    ensures Concat(Tokens(text, b)[..k]) == text[..b[k]]
  {
    var ts := Tokens(text, b);
    if k > 0 {
      TokensPrefix(text, b, k - 1);
      assert ts[..k][..k - 1] == ts[..k - 1];
      assert text[..b[k]] == text[..b[k - 1]] + text[b[k - 1]..b[k]];
    }
  }

  /** The segments cover the text exactly: nothing is lost, repeated or reordered. */
  lemma TokensCoverText(text: Text, b: seq<nat>)
    requires IsBoundaries(b, |text|)
    ensures Concat(Tokens(text, b)) == text
  {
    TokensPrefix(text, b, |b| - 1);
    assert Tokens(text, b)[..|b| - 1] == Tokens(text, b);
  }

  /** The segment that holds offset `i`, searched from segment `k` on. */
  function SegmentOf(b: seq<nat>, n: nat, i: nat, k: nat): (s: nat)
    requires IsBoundaries(b, n) && i < n && k < |b| && b[k] <= i
    ensures k <= s && s + 1 < |b| && b[s] <= i < b[s + 1]
    decreases |b| - k
  {
    if i < b[k + 1] then k else SegmentOf(b, n, i, k + 1)
  }

  /** A stateful break iterator after `setText`: the boundaries the rules computed for
      the text, and the position of the boundary it stands on. */
  class BreakIterator {
    const length: nat
    const boundaries: seq<nat>
    var current: nat

    ghost predicate Valid()
      reads this
    {
      IsBoundaries(boundaries, length) && current < |boundaries|
    }

    /** `getWordInstance` or `getSentenceInstance` followed by `setText(text)`:
        the iterator stands on the first boundary. */
    constructor SetText(text: Text, boundaries: seq<nat>)
      requires IsBoundaries(boundaries, |text|)
      ensures Valid()
      ensures this.length == |text| && this.boundaries == boundaries && current == 0
    {
      this.length := |text|;
      this.boundaries := boundaries;
      current := 0;
    }

    /** `first()`: moves to the first boundary and returns it, which is offset 0. */
    method First() returns (offset: int)
      requires Valid()
      modifies this
      ensures Valid() && current == 0 && offset == 0
    {
      current := 0;
      offset := boundaries[0];
    }

    /** `next()`: moves to the following boundary and returns it, or returns `Done`
        and stays put when the iterator already stands on the last one. */
    method Next() returns (offset: int)
      requires Valid()
      modifies this
      ensures Valid()
      ensures old(current) + 1 < |boundaries| ==>
                current == old(current) + 1 && offset == boundaries[current]
      ensures old(current) + 1 == |boundaries| ==>
                current == old(current) && offset == Done
    {
      if current + 1 < |boundaries| {
        current := current + 1;
        offset := boundaries[current];
      } else {
        offset := Done;
      }
    }
  }
}
