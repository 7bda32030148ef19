/**
 * The local cosine scan of `searchByVector` (src/services/db.ts:100-125): the
 * `cosine` helper, and the map / filter / sort / slice pipeline that ranks the
 * fetched documents.
 */
module Ranking {
  import opened Wrappers
  import opened Knowledge

  /**
   * `Math.sqrt`, left abstract: any function that is positive on positive arguments,
   * which is all the division in `cosine` needs to be defined.
   */
  type SqrtFn = f: real -> real | forall x :: 0.0 < x ==> 0.0 < f(x) witness (x: real) => x

  /** The product of two components (kept as a function so that squares are reasoned about as products). */
  function Mul(x: real, y: real): real {
    x * y
  }

  /** `Σ a[i]·b[i]`, summed from the front as the loop in `cosine` does. */
  function Dot(a: seq<real>, b: seq<real>): real
    requires |a| == |b|
    decreases |a|
  {
    if |a| == 0 then 0.0 else Dot(a[..|a| - 1], b[..|b| - 1]) + Mul(a[|a| - 1], b[|b| - 1])
  }

  /** Every component is zero (the empty vector included). */
  predicate IsZero(a: seq<real>) {
    forall i :: 0 <= i < |a| ==> a[i] == 0.0
  }

  lemma {:induction false} DotSymmetric(a: seq<real>, b: seq<real>)
    requires |a| == |b|
    ensures Dot(a, b) == Dot(b, a)
    decreases |a|
  {
    if |a| > 0 {
      DotSymmetric(a[..|a| - 1], b[..|b| - 1]);
    }
  }

  /** A square is never negative, and it is zero only at zero. */
  lemma Square(x: real)
    ensures Mul(x, x) >= 0.0
    ensures x != 0.0 ==> Mul(x, x) > 0.0
  {
    if x > 0.0 {
      Positive(x, x);
    } else if x < 0.0 {
      Positive(-x, -x);
      MulNegated(x, x);
    }
  }

  lemma Positive(x: real, y: real)
    requires 0.0 < x && 0.0 < y
    ensures 0.0 < Mul(x, y)
  {
  }

  lemma MulNegated(x: real, y: real)
    ensures Mul(-x, -y) == Mul(x, y)
  {
  }


  lemma DivSelf(x: real, y: real)
    requires y != 0.0 && x == y
    ensures x / y == 1.0
  {
  }

  /** One more step of the sum. */
  lemma DotSnoc(a: seq<real>, b: seq<real>, i: int)
    requires |a| == |b| && 0 <= i < |a|
    ensures Dot(a[..i + 1], b[..i + 1]) == Dot(a[..i], b[..i]) + Mul(a[i], b[i])
  {
    assert a[..i + 1][..i] == a[..i] && b[..i + 1][..i] == b[..i];
  }

  /** A squared norm is never negative, and it is zero exactly for the zero vector. */
  lemma {:induction false} SquaredNorm(a: seq<real>)
    ensures Dot(a, a) >= 0.0
    ensures Dot(a, a) == 0.0 <==> IsZero(a)
    decreases |a|
  {
    if |a| > 0 {
      var p, x := a[..|a| - 1], a[|a| - 1];
      SquaredNorm(p);
      Square(x);
      assert Dot(a, a) == Dot(p, p) + Mul(x, x);
      if IsZero(a) {
        assert IsZero(p) by {
          forall i | 0 <= i < |p| ensures p[i] == 0.0 {
            assert p[i] == a[i];
          }
        }
      }
      if Dot(a, a) == 0.0 {
        forall i | 0 <= i < |a| ensures a[i] == 0.0 {
          if i < |p| {
            assert a[i] == p[i];
          }
        }
      }
    }
  }

  /**
   * `cosine(a, b)`: -1 when the lengths differ or either squared norm is 0,
   * otherwise `dot / (sqrt(na) * sqrt(nb))`.
   */
  function Cosine(a: seq<real>, b: seq<real>, sqrt: SqrtFn): real {
    if |a| != |b| then -1.0
    else
      var na, nb := Dot(a, a), Dot(b, b);
      if na == 0.0 || nb == 0.0 then -1.0
      else
        SquaredNorm(a);
        SquaredNorm(b);
        Quotient(Dot(a, b), na, nb, sqrt)
  }

  /** `dot / (Math.sqrt(na) * Math.sqrt(nb))` for positive squared norms. */
  function Quotient(dot: real, na: real, nb: real, sqrt: SqrtFn): real
    requires 0.0 < na && 0.0 < nb
  {
    Positive(sqrt(na), sqrt(nb));
    dot / Mul(sqrt(na), sqrt(nb))
  }

  /** The sentinel: shape mismatches and zero vectors (hence empty ones) score -1. */
  lemma CosineSentinel(a: seq<real>, b: seq<real>, sqrt: SqrtFn)
    ensures |a| != |b| || IsZero(a) || IsZero(b) ==> Cosine(a, b, sqrt) == -1.0
    ensures |a| == |b| && !IsZero(a) && !IsZero(b) ==>
      && 0.0 < Dot(a, a) && 0.0 < Dot(b, b)
      && Cosine(a, b, sqrt) == Quotient(Dot(a, b), Dot(a, a), Dot(b, b), sqrt)
  {
    SquaredNorm(a);
    SquaredNorm(b);
  }

  lemma CosineSymmetric(a: seq<real>, b: seq<real>, sqrt: SqrtFn)
    ensures Cosine(a, b, sqrt) == Cosine(b, a, sqrt)
  {
    if |a| == |b| && Dot(a, a) != 0.0 && Dot(b, b) != 0.0 {
      DotSymmetric(a, b);
      SquaredNorm(a);
      SquaredNorm(b);
      QuotientSymmetric(Dot(a, b), Dot(a, a), Dot(b, b), sqrt);
    }
  }

  lemma QuotientSymmetric(dot: real, na: real, nb: real, sqrt: SqrtFn)
    requires 0.0 < na && 0.0 < nb
    ensures Quotient(dot, na, nb, sqrt) == Quotient(dot, nb, na, sqrt)
  {
    assert Mul(sqrt(na), sqrt(nb)) == Mul(sqrt(nb), sqrt(na));
  }

  /** A non-zero vector is at cosine 1 from itself, for a `sqrt` that is exact at its squared norm. */
  lemma CosineSelf(a: seq<real>, sqrt: SqrtFn)
    requires !IsZero(a)
    requires Mul(sqrt(Dot(a, a)), sqrt(Dot(a, a))) == Dot(a, a)
    ensures Cosine(a, a, sqrt) == 1.0
  {
    SquaredNorm(a);
    var n := Dot(a, a);
    assert Cosine(a, a, sqrt) == n / Mul(sqrt(n), sqrt(n));
    DivSelf(n, Mul(sqrt(n), sqrt(n)));
  }

  /** The `for` loop of `cosine` (src/services/db.ts:102-116), accumulating `dot`, `na` and `nb`. */
  method CosineLoop(a: seq<real>, b: seq<real>, sqrt: SqrtFn) returns (r: real)
    ensures r == Cosine(a, b, sqrt)
  {
    if |a| != |b| {
      return -1.0;
    }
    var dot, na, nb := 0.0, 0.0, 0.0;
    for i := 0 to |a|
      invariant dot == Dot(a[..i], b[..i])
      invariant na == Dot(a[..i], a[..i])
      invariant nb == Dot(b[..i], b[..i])
    {
      var x, y := a[i], b[i];
      DotSnoc(a, b, i);
      DotSnoc(a, a, i);
      DotSnoc(b, b, i);
      dot, na, nb := dot + Mul(x, y), na + Mul(x, x), nb + Mul(y, y);
    }
    assert a[..|a|] == a && b[..|b|] == b;
    if na == 0.0 || nb == 0.0 {
      return -1.0;
    }
    SquaredNorm(a);
    SquaredNorm(b);
    var norms := sqrt(na) * sqrt(nb);
    Positive(sqrt(na), sqrt(nb));
    assert norms == Mul(sqrt(na), sqrt(nb));
    r := dot / norms;
  }

  // ---------------------------------------------------------------------------
  // The ranking pipeline: docs.map(score).filter(numeric).sort(desc).slice(0, k)

  /** The score of one document: cosine for an array embedding, -1 for any other value. */
  function EmbeddingScore(vector: seq<real>, e: EmbeddingField, sqrt: SqrtFn): real {
    match e
    case Vector(v) => Cosine(vector, v, sqrt)
    case _ => -1.0
  }

  function Scored(vector: seq<real>, d: KnowledgeDoc, sqrt: SqrtFn): Hit {
    Hit(d.question, d.answer, d.comment, Some(EmbeddingScore(vector, d.embedding, sqrt)))
  }

  /** `find({embedding: {$exists: true}})`: the documents that have an `embedding` field, in order. */
  function WithEmbedding(docs: seq<KnowledgeDoc>): (r: seq<KnowledgeDoc>)
    ensures forall d :: d in r <==> d in docs && !d.embedding.Absent?
    decreases |docs|
  {
    if |docs| == 0 then []
    else if docs[0].embedding.Absent? then WithEmbedding(docs[1..])
    else [docs[0]] + WithEmbedding(docs[1..])
  }

  /** The `.map` step. */
  function ScoreAll(vector: seq<real>, docs: seq<KnowledgeDoc>, sqrt: SqrtFn): (r: seq<Hit>)
    ensures |r| == |docs| && forall i :: 0 <= i < |docs| ==> r[i] == Scored(vector, docs[i], sqrt)
  {
    seq(|docs|, i requires 0 <= i < |docs| => Scored(vector, docs[i], sqrt))
  }

  /** Every fetched document gets a numeric score, and one whose embedding is not an array gets -1. */
  lemma ScoreAllScoresEveryDoc(vector: seq<real>, docs: seq<KnowledgeDoc>, sqrt: SqrtFn)
    ensures |ScoreAll(vector, docs, sqrt)| == |docs|
    ensures forall i :: 0 <= i < |docs| ==>
      var h := ScoreAll(vector, docs, sqrt)[i];
      && h.question == docs[i].question && h.answer == docs[i].answer && h.comment == docs[i].comment
      && h.score.Some?
      && (!docs[i].embedding.Vector? ==> h.score.value == -1.0)
      && (docs[i].embedding.Vector? && |docs[i].embedding.values| != |vector| ==> h.score.value == -1.0)
  {
  }

  /** The `.filter(s => typeof s.score === 'number')` step. */
  function KeepNumeric(hits: seq<Hit>): (r: seq<Hit>)
    ensures forall h :: h in r <==> h in hits && h.score.Some?
    decreases |hits|
  {
    if |hits| == 0 then []
    else if hits[0].score.Some? then [hits[0]] + KeepNumeric(hits[1..])
    else KeepNumeric(hits[1..])
  }

  /** The filter removes nothing from scored documents: every score is a number. */
  lemma {:induction false} KeepNumericRemovesNothing(hits: seq<Hit>)
    requires forall i :: 0 <= i < |hits| ==> hits[i].score.Some?
    ensures KeepNumeric(hits) == hits
    decreases |hits|
  {
    if |hits| > 0 {
      KeepNumericRemovesNothing(hits[1..]);
    }
  }

  /** The sort key, `s.score ?? -1`. */
  function Key(h: Hit): real {
    match h.score
    case Some(s) => s
    case None => -1.0
  }

  /** Non-increasing by score. */
  predicate SortedDesc(s: seq<Hit>) {
    forall i, j :: 0 <= i < j < |s| ==> Key(s[i]) >= Key(s[j])
  }

  /** Places `x` before the first element that does not score higher (so equal keys keep their order). */
  function Insert(x: Hit, t: seq<Hit>): (r: seq<Hit>)
    ensures multiset(r) == multiset(t) + multiset{x}
    ensures |r| == |t| + 1
    decreases |t|
  {
    if |t| == 0 || Key(x) >= Key(t[0]) then [x] + t
    else
      assert t == [t[0]] + t[1..];
      [t[0]] + Insert(x, t[1..])
  }

  lemma {:induction false} InsertSorted(x: Hit, t: seq<Hit>)
    requires SortedDesc(t)
    ensures SortedDesc(Insert(x, t))
    decreases |t|
  {
    if |t| > 0 && Key(x) < Key(t[0]) {
      var rest := Insert(x, t[1..]);
      InsertSorted(x, t[1..]);
      forall j | 0 <= j < |rest| ensures Key(t[0]) >= Key(rest[j]) {
        assert rest[j] in multiset(rest);
        assert rest[j] == x || rest[j] in multiset(t[1..]);
        if rest[j] != x {
          var m :| 0 <= m < |t[1..]| && t[1..][m] == rest[j];
          assert t[1..][m] == t[m + 1];
        }
      }
    }
  }

  /** `.sort((a, b) => (b.score ?? -1) - (a.score ?? -1))`, a stable sort by descending score. */
  function SortDesc(s: seq<Hit>): (r: seq<Hit>)
    ensures multiset(r) == multiset(s)
    ensures |r| == |s|
    decreases |s|
  {
    if |s| == 0 then []
    else
      assert s == [s[0]] + s[1..];
      Insert(s[0], SortDesc(s[1..]))
  }

  lemma {:induction false} SortDescSorted(s: seq<Hit>)
    ensures SortedDesc(SortDesc(s))
    decreases |s|
  {
    if |s| > 0 {
      SortDescSorted(s[1..]);
      InsertSorted(s[0], SortDesc(s[1..]));
    }
  }

  /** `s.slice(0, k)`: a negative `k` counts from the end. */
  function SliceTo(s: seq<Hit>, k: int): (r: seq<Hit>)
    ensures |r| <= |s| && r == s[..|r|]
    ensures 0 <= k <= |s| ==> |r| == k
    ensures k < 0 ==> |r| == if |s| + k > 0 then |s| + k else 0
  {
    if k >= 0 then s[..if k < |s| then k else |s|]
    else s[..if |s| + k > 0 then |s| + k else 0]
  }

  /** The local scan's result for the fetched documents. */
  function LocalScan(vector: seq<real>, fetched: seq<KnowledgeDoc>, k: int, sqrt: SqrtFn): seq<Hit> {
    SliceTo(SortDesc(KeepNumeric(ScoreAll(vector, fetched, sqrt))), k)
  }

  /** The scan ranks every fetched document; nothing is dropped before the slice. */
  lemma RankingKeepsEveryDoc(vector: seq<real>, fetched: seq<KnowledgeDoc>, sqrt: SqrtFn)
    ensures multiset(SortDesc(KeepNumeric(ScoreAll(vector, fetched, sqrt)))) == multiset(ScoreAll(vector, fetched, sqrt))
  {
    KeepNumericRemovesNothing(ScoreAll(vector, fetched, sqrt));
  }

  /** `min(k, n)` results for a non-negative `k`, `max(0, n + k)` for a negative one. */
  lemma LocalScanLength(vector: seq<real>, fetched: seq<KnowledgeDoc>, k: int, sqrt: SqrtFn)
    ensures var n := |fetched|;
      |LocalScan(vector, fetched, k, sqrt)| ==
        if k >= 0 then (if k < n then k else n) else (if n + k > 0 then n + k else 0)
  {
    KeepNumericRemovesNothing(ScoreAll(vector, fetched, sqrt));
  }

  /**
   * The scan's result is sorted by non-increasing score, every element is a fetched
   * document with its score, and no document left out scores higher than one returned.
   */
  lemma LocalScanIsTopK(vector: seq<real>, fetched: seq<KnowledgeDoc>, k: int, sqrt: SqrtFn)
    ensures var r := LocalScan(vector, fetched, k, sqrt);
      && SortedDesc(r)
      && (forall j :: 0 <= j < |r| ==> exists i :: 0 <= i < |fetched| && r[j] == Scored(vector, fetched[i], sqrt))
      && multiset(r) <= multiset(ScoreAll(vector, fetched, sqrt))
      && (forall x, j :: x in multiset(ScoreAll(vector, fetched, sqrt)) - multiset(r) && 0 <= j < |r| ==>
            Key(x) <= Key(r[j]))
  {
    var scored := ScoreAll(vector, fetched, sqrt);
    KeepNumericRemovesNothing(scored);
    SortAndSlice(scored, k);
    var r := LocalScan(vector, fetched, k, sqrt);
    forall j | 0 <= j < |r| ensures exists i :: 0 <= i < |fetched| && r[j] == Scored(vector, fetched[i], sqrt) {
      assert r[j] in scored;
      var i :| 0 <= i < |scored| && scored[i] == r[j];
    }
  }

  /** Sorting and then slicing picks the `k` best of the input. */
  lemma SortAndSlice(s: seq<Hit>, k: int)
    ensures var r := SliceTo(SortDesc(s), k);
      && SortedDesc(r)
      && multiset(r) <= multiset(s)
      && (forall j :: 0 <= j < |r| ==> r[j] in s)
      && (forall x, j :: x in multiset(s) - multiset(r) && 0 <= j < |r| ==> Key(x) <= Key(r[j]))
  {
    var sorted := SortDesc(s);
    SortDescSorted(s);
    var r := SliceTo(sorted, k);
    assert r == sorted[..|r|];
    SortedPrefix(sorted, |r|);
    forall j | 0 <= j < |r| ensures r[j] in s {
      assert r[j] in multiset(r);
    }
  }

  /**
   * A prefix of a sorted sequence is sorted, is part of it, and nothing
   * outside the prefix has a higher key than anything inside.
   */
  lemma SortedPrefix(s: seq<Hit>, m: nat)
    requires SortedDesc(s) && m <= |s|
    ensures SortedDesc(s[..m])
    ensures multiset(s[..m]) <= multiset(s)
    ensures forall x, j :: x in multiset(s) - multiset(s[..m]) && 0 <= j < m ==> Key(x) <= Key(s[..m][j])
  {
    assert s == s[..m] + s[m..];
    assert multiset(s) == multiset(s[..m]) + multiset(s[m..]);
    forall x, j | x in multiset(s) - multiset(s[..m]) && 0 <= j < m ensures Key(x) <= Key(s[..m][j]) {
      assert x in multiset(s[m..]);
      var i :| 0 <= i < |s[m..]| && s[m..][i] == x;
      assert s[m + i] == x;
    }
  }

  /** With `k` at least the number of fetched documents, every one of them is returned, mismatched ones included. */
  lemma LocalScanKeepsMismatched(vector: seq<real>, fetched: seq<KnowledgeDoc>, k: int, sqrt: SqrtFn)
    requires k >= |fetched|
    ensures multiset(LocalScan(vector, fetched, k, sqrt)) == multiset(ScoreAll(vector, fetched, sqrt))
  {
    KeepNumericRemovesNothing(ScoreAll(vector, fetched, sqrt));
    var sorted := SortDesc(ScoreAll(vector, fetched, sqrt));
    assert sorted[..|sorted|] == sorted;
  }
}
