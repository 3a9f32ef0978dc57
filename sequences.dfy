/** Order-preserving selection of elements from a sequence. */
module Sequences {

  /**
   * `idx` lists, in strictly increasing order, positions of `b` whose elements,
   * read in that order, are exactly `a`.
   */
  ghost predicate Embeds<T>(idx: seq<nat>, a: seq<T>, b: seq<T>) {
    && |idx| == |a|
    && (forall i :: 0 <= i < |idx| ==> idx[i] < |b| && b[idx[i]] == a[i])
    && (forall i, j :: 0 <= i < j < |idx| ==> idx[i] < idx[j])
  }

  /** `a` is obtained from `b` by deleting elements, without reordering. */
  ghost predicate IsSubsequence<T>(a: seq<T>, b: seq<T>) {
    exists idx :: Embeds(idx, a, b)
  }

  /** Shifting an embedding into `b` by one gives an embedding into `[x] + b`. */
  lemma EmbedsShift<T>(idx: seq<nat>, a: seq<T>, b: seq<T>, x: T)
    requires Embeds(idx, a, b)
    ensures Embeds(seq(|idx|, i requires 0 <= i < |idx| => idx[i] + 1), a, [x] + b)
  {
  }

  /** Prepending position 0 to a shifted embedding keeps a common first element. */
  lemma EmbedsCons<T>(idx: seq<nat>, a: seq<T>, b: seq<T>, x: T)
    requires Embeds(idx, a, b)
    ensures Embeds([0] + seq(|idx|, i requires 0 <= i < |idx| => idx[i] + 1), [x] + a, [x] + b)
  {
  }
}
