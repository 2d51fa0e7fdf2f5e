/**
 * Scoring the notes against the question vector, sorting by similarity and
 * keeping the best three: the part of the RAG route between the embedding
 * call and the prompt.
 */
module Ranker {
  import opened JsValues
  import opened VectorMath

  /** A note as it is returned to the client: its own fields plus its score. */
  datatype RankedSource = RankedSource(id: Field, title: Field, text: Field, similarity: real)

  /** How many sources the context window keeps. */
  const K: nat := 3

  /**
   * The shape the embedding reply must have for scoring to stay within the
   * vectors: one vector per input, none shorter than the question's vector
   * (the loop of `cosineSim` runs over the question vector's length).
   */
  predicate WellShaped(vectors: seq<Vector>, count: nat) {
    && |vectors| == count
    && count > 0
    && forall i :: 0 <= i < |vectors| ==> |vectors[0]| <= |vectors[i]|
  }

  /** Note `n` scored against its vector `v` with the question vector `q`. */
  function Score(n: Note, q: Vector, v: Vector, sqrt: real -> real): (s: RankedSource)
    requires |q| <= |v| && NonNegativeRoot(sqrt)
    ensures s.id == n.id && s.title == n.title && s.text == n.text
    ensures s.similarity == CosineSim(q, v, sqrt)
  {
    RankedSource(n.id, n.title, n.text, CosineSim(q, v, sqrt))
  }

  /** Every note scored, in note order; note `i` against vector `i + 1`. */
  function Scored(notes: seq<Note>, vectors: seq<Vector>, sqrt: real -> real): (r: seq<RankedSource>)
    requires WellShaped(vectors, |notes| + 1) && NonNegativeRoot(sqrt)
    ensures |r| == |notes|
    ensures forall i :: 0 <= i < |notes| ==> r[i] == Score(notes[i], vectors[0], vectors[i + 1], sqrt)
  {
    seq(|notes|, i requires 0 <= i < |notes| => Score(notes[i], vectors[0], vectors[i + 1], sqrt))
  }

  /** Adjacent similarities never increase: what the comparator `b.similarity - a.similarity` asks of the sort. */
  predicate SortedDesc(xs: seq<RankedSource>) {
    forall i :: 0 < i < |xs| ==> xs[i - 1].similarity >= xs[i].similarity
  }

  /** Every earlier source scores at least as high as every later one. */
  lemma {:induction false} SortedDescAllPairs(xs: seq<RankedSource>, i: nat, j: nat)
    requires SortedDesc(xs) && i <= j < |xs|
    ensures xs[i].similarity >= xs[j].similarity
    decreases j - i
  {
    if i < j {
      SortedDescAllPairs(xs, i + 1, j);
    }
  }

  /** Puts `x` into a sorted list ahead of the first entry it does not score below. */
  function Insert(x: RankedSource, xs: seq<RankedSource>): (r: seq<RankedSource>)
    requires SortedDesc(xs)
    ensures SortedDesc(r)
    ensures multiset(r) == multiset(xs) + multiset{x}
    ensures r[0] == x || (xs != [] && r[0] == xs[0])
  {
    if xs == [] || x.similarity >= xs[0].similarity then [x] + xs
    else
      assert xs == [xs[0]] + xs[1..];
      [xs[0]] + Insert(x, xs[1..])
  }

  /** The sort applied to the scored notes: a permutation of its input, in non-increasing similarity. */
  function SortDesc(xs: seq<RankedSource>): (r: seq<RankedSource>)
    ensures SortedDesc(r)
    ensures multiset(r) == multiset(xs)
  {
    if xs == [] then []
    else
      assert xs == [xs[0]] + xs[1..];
      Insert(xs[0], SortDesc(xs[1..]))
  }

  /** `ranked`: the scored notes, sorted by similarity, highest first. */
  function Rank(notes: seq<Note>, vectors: seq<Vector>, sqrt: real -> real): (r: seq<RankedSource>)
    requires WellShaped(vectors, |notes| + 1) && NonNegativeRoot(sqrt)
    ensures |r| == |notes|
    ensures SortedDesc(r)
    ensures multiset(r) == multiset(Scored(notes, vectors, sqrt))
  {
    var scored := Scored(notes, vectors, sqrt);
    var r := SortDesc(scored);
    assert |r| == |multiset(r)| == |multiset(scored)| == |scored|;
    r
  }

  /**
   * `ranked` holds exactly the scored notes: every entry is some note with
   * its own fields and its own score, and every note is there.
   */
  lemma RankIsScoredNotes(notes: seq<Note>, vectors: seq<Vector>, sqrt: real -> real)
    requires WellShaped(vectors, |notes| + 1) && NonNegativeRoot(sqrt)
    ensures forall s :: s in Rank(notes, vectors, sqrt) ==>
      exists i :: 0 <= i < |notes| && s == Score(notes[i], vectors[0], vectors[i + 1], sqrt)
    ensures forall i :: 0 <= i < |notes| ==>
      Score(notes[i], vectors[0], vectors[i + 1], sqrt) in Rank(notes, vectors, sqrt)
  {
    var scored := Scored(notes, vectors, sqrt);
    var r := Rank(notes, vectors, sqrt);
    forall s | s in r
      ensures exists i :: 0 <= i < |notes| && s == Score(notes[i], vectors[0], vectors[i + 1], sqrt)
    {
      assert s in multiset(r);
      assert s in scored;
      var i :| 0 <= i < |scored| && scored[i] == s;
    }
    forall i | 0 <= i < |notes|
      ensures Score(notes[i], vectors[0], vectors[i + 1], sqrt) in r
    {
      assert scored[i] in multiset(scored);
    }
  }

  function Min(a: nat, b: nat): nat {
    if a <= b then a else b
  }

  /** `ranked.slice(0, Math.min(3, ranked.length))`. */
  function TopK(ranked: seq<RankedSource>): (top: seq<RankedSource>)
    ensures |top| == Min(K, |ranked|)
    ensures top <= ranked
  {
    ranked[..Min(K, |ranked|)]
  }

  /** Of a sorted ranking, the top-K are sorted and score at least as high as every source left out. */
  lemma TopKIsBest(ranked: seq<RankedSource>)
    requires SortedDesc(ranked)
    ensures SortedDesc(TopK(ranked))
    ensures forall i, j :: 0 <= i < |TopK(ranked)| <= j < |ranked| ==>
      ranked[i].similarity >= ranked[j].similarity
  {
    forall i, j | 0 <= i < |TopK(ranked)| <= j < |ranked|
      ensures ranked[i].similarity >= ranked[j].similarity
    {
      SortedDescAllPairs(ranked, i, j);
    }
  }
}
