/** Term-frequency vectors and their cosine (internal/cache/cache.go), over exact numbers.  Norms
    and cosines are kept squared. */
module Vectors {
  import Text

  /** How often each term occurs; a term that does not occur is absent. */
  type Vector = map<string, nat>

  function At(a: Vector, k: string): nat { if k in a then a[k] else 0 }

  /** The sum of products over a set of terms. */
  ghost function Dot(terms: set<string>, a: Vector, b: Vector): nat {
    if terms == {} then 0
    else
      var k :| k in terms;
      At(a, k) * At(b, k) + Dot(terms - {k}, a, b)
  }

  ghost function Inner(a: Vector, b: Vector): nat { Dot(a.Keys + b.Keys, a, b) }
  ghost function NormSq(a: Vector): nat { Dot(a.Keys, a, a) }

  /** The squared cosine, 0 when a vector has no terms. */
  ghost function CosineSq(a: Vector, b: Vector): real {
    if NormSq(a) == 0 || NormSq(b) == 0 then 0.0
    else (Inner(a, b) * Inner(a, b)) as real / (NormSq(a) * NormSq(b)) as real
  }

  /** The sum does not depend on the order of summation. */
  lemma {:induction false} DotPick(terms: set<string>, a: Vector, b: Vector, k: string)
    requires k in terms
    ensures Dot(terms, a, b) == At(a, k) * At(b, k) + Dot(terms - {k}, a, b)
    decreases |terms|
  {
    var j :| j in terms && Dot(terms, a, b) == At(a, j) * At(b, j) + Dot(terms - {j}, a, b);
    if j != k {
      DotPick(terms - {j}, a, b, k);
      DotPick(terms - {k}, a, b, j);
      assert terms - {j} - {k} == terms - {k} - {j};
    }
  }

  lemma NoTerms(a: Vector, b: Vector)
    ensures Dot({}, a, b) == 0
  {
  }

  lemma DotStep(terms: set<string>, a: Vector, b: Vector, k: string)
    requires k in terms && k in a
    ensures Dot(terms, a, b) == (if k in b then a[k] * b[k] else 0) + Dot(terms - {k}, a, b)
  {
    DotPick(terms, a, b, k);
  }

  /** Terms missing from either vector add nothing, so summing over either's terms is enough. */
  lemma {:induction false} DotRelevant(terms: set<string>, more: set<string>, a: Vector, b: Vector)
    requires terms <= more && forall k :: k in more - terms ==> At(a, k) * At(b, k) == 0
    ensures Dot(more, a, b) == Dot(terms, a, b)
    decreases |more|
  {
    if more - terms == {} {
      assert more == terms;
    } else {
      var k :| k in more - terms;
      DotPick(more, a, b, k);
      DotRelevant(terms, more - {k}, a, b);
    }
  }

  lemma {:induction false} DotSymmetric(terms: set<string>, a: Vector, b: Vector)
    ensures Dot(terms, a, b) == Dot(terms, b, a)
    decreases |terms|
  {
    if terms != {} {
      var k :| k in terms;
      DotPick(terms, a, b, k);
      DotPick(terms, b, a, k);
      DotSymmetric(terms - {k}, a, b);
    }
  }

  lemma InnerOverEither(a: Vector, b: Vector)
    ensures Inner(a, b) == Dot(a.Keys, a, b) == Dot(b.Keys, a, b)
    ensures Inner(a, b) == Inner(b, a)
    ensures NormSq(a) == Dot(a.Keys + b.Keys, a, a)
  {
    DotRelevant(a.Keys, a.Keys + b.Keys, a, b);
    DotRelevant(b.Keys, a.Keys + b.Keys, a, b);
    DotRelevant(a.Keys, a.Keys + b.Keys, a, a);
    assert a.Keys + b.Keys == b.Keys + a.Keys;
    DotSymmetric(a.Keys + b.Keys, a, b);
  }

  // ---- Cauchy-Schwarz ----

  function Square(x: int): int { x * x }

  /** The sum of squares of p * a - q * b. */
  ghost function SquaredGap(terms: set<string>, a: Vector, b: Vector, p: int, q: int): int {
    if terms == {} then 0
    else
      var k :| k in terms;
      Square(p * At(a, k) - q * At(b, k)) + SquaredGap(terms - {k}, a, b, p, q)
  }

  lemma SquareOfDifference(u: int, v: int)
    ensures Square(u - v) == u * u - 2 * (u * v) + v * v
    ensures Square(u - v) >= 0
    ensures Square(u - v) == 0 ==> u == v
  {
  }

  lemma Regroup(p: int, x: int, q: int, y: int)
    ensures (p * x) * (q * y) == (p * q) * (x * y)
  {
  }

  lemma ExpandSquare(p: int, q: int, x: int, y: int)
    ensures Square(p * x - q * y) == (p * p) * (x * x) - 2 * ((p * q) * (x * y)) + (q * q) * (y * y)
  {
    SquareOfDifference(p * x, q * y);
    Regroup(p, x, p, x);
    Regroup(p, x, q, y);
    Regroup(q, y, q, y);
  }

  /** c * x - 2 * (d * y) + e * z, the shape of an expanded sum of squares. */
  function Form(c: int, d: int, e: int, x: int, y: int, z: int): int {
    c * x - 2 * (d * y) + e * z
  }

  lemma FormAdds(c: int, d: int, e: int, x: int, y: int, z: int, x': int, y': int, z': int)
    ensures Form(c, d, e, x + x', y + y', z + z') == Form(c, d, e, x, y, z) + Form(c, d, e, x', y', z')
  {
    Distribute(c, x, x');
    Distribute(d, y, y');
    Distribute(e, z, z');
  }

  lemma {:induction false} GapPick(terms: set<string>, a: Vector, b: Vector, p: int, q: int) returns (k: string)
    requires terms != {}
    ensures k in terms
    ensures SquaredGap(terms, a, b, p, q) == Square(p * At(a, k) - q * At(b, k)) + SquaredGap(terms - {k}, a, b, p, q)
  {
    hide Square, At;
    k :| k in terms && SquaredGap(terms, a, b, p, q)
                    == Square(p * At(a, k) - q * At(b, k)) + SquaredGap(terms - {k}, a, b, p, q);
  }

  lemma NothingExpands(a: Vector, b: Vector, p: int, q: int)
    ensures SquaredGap({}, a, b, p, q) == Form(p * p, p * q, q * q, Dot({}, a, a), Dot({}, a, b), Dot({}, b, b))
  {
  }

  lemma {:induction false} GapExpands(terms: set<string>, a: Vector, b: Vector, p: int, q: int)
    ensures SquaredGap(terms, a, b, p, q)
         == Form(p * p, p * q, q * q, Dot(terms, a, a), Dot(terms, a, b), Dot(terms, b, b))
    decreases |terms|
  {
    hide SquaredGap, Dot, Form, Square, At;
    if terms == {} {
      NothingExpands(a, b, p, q);
    } else {
      var k := GapPick(terms, a, b, p, q);
      GapExpands(terms - {k}, a, b, p, q);
      GapStep(At(a, k), At(b, k), p, q, Dot(terms - {k}, a, a), Dot(terms - {k}, a, b), Dot(terms - {k}, b, b));
      DotPick(terms, a, a, k);
      DotPick(terms, a, b, k);
      DotPick(terms, b, b, k);
    }
  }

  lemma GapStep(x: int, y: int, p: int, q: int, xs: int, xys: int, ys: int)
    ensures Form(p * p, p * q, q * q, x * x + xs, x * y + xys, y * y + ys)
         == Square(p * x - q * y) + Form(p * p, p * q, q * q, xs, xys, ys)
  {
    ExpandSquare(p, q, x, y);
    FormAdds(p * p, p * q, q * q, x * x, x * y, y * y, xs, xys, ys);
  }

  lemma {:induction false} GapNotNegative(terms: set<string>, a: Vector, b: Vector, p: int, q: int)
    ensures SquaredGap(terms, a, b, p, q) >= 0
    ensures SquaredGap(terms, a, b, p, q) == 0 ==> forall k :: k in terms ==> p * At(a, k) == q * At(b, k)
    decreases |terms|
  {
    if terms != {} {
      var k := GapPick(terms, a, b, p, q);
      GapNotNegative(terms - {k}, a, b, p, q);
      SquareOfDifference(p * At(a, k), q * At(b, k));
    }
  }

  lemma Distribute(c: int, x: int, y: int)
    ensures c * (x + y) == c * x + c * y
  {
  }

  /** The squared gap with p = y and q = d is y times the Cauchy-Schwarz gap. */
  lemma FormGap(d: int, x: int, y: int)
    ensures Form(y * y, y * d, d * d, x, d, y) == y * (x * y - d * d)
  {
    assert (y * y) * x == y * (x * y);
    assert (y * d) * d == y * (d * d);
    assert (d * d) * y == y * (d * d);
    assert y * (x * y - d * d) == y * (x * y) - y * (d * d);
  }

  lemma {:induction false} NoTermsNoProduct(terms: set<string>, a: Vector, b: Vector)
    requires Dot(terms, b, b) == 0
    ensures Dot(terms, a, b) == 0
    decreases |terms|
  {
    if terms != {} {
      var k :| k in terms;
      DotPick(terms, b, b, k);
      DotPick(terms, a, b, k);
      SquareOfDifference(At(b, k), 0);
      assert At(b, k) == 0;
      NoTermsNoProduct(terms - {k}, a, b);
    }
  }

  lemma GapSign(d: int, x: int, y: int)
    requires y > 0 && Form(y * y, y * d, d * d, x, d, y) >= 0
    ensures d * d <= x * y
    ensures d * d == x * y ==> Form(y * y, y * d, d * d, x, d, y) == 0
  {
    FormGap(d, x, y);
    if x * y - d * d < 0 {
      NegativeProduct(y, x * y - d * d);
    }
  }

  /** Cauchy-Schwarz on term-frequency vectors, with its equality case. */
  lemma CauchySchwarz(terms: set<string>, a: Vector, b: Vector)
    ensures var d, x, y := Dot(terms, a, b), Dot(terms, a, a), Dot(terms, b, b);
      && d * d <= x * y
      && (d * d == x * y && y > 0 ==> forall k :: k in terms ==> y * At(a, k) == d * At(b, k))
  {
    var d, x, y := Dot(terms, a, b), Dot(terms, a, a), Dot(terms, b, b);
    if y == 0 {
      NoTermsNoProduct(terms, a, b);
    } else {
      GapExpands(terms, a, b, y, d);
      GapNotNegative(terms, a, b, y, d);
      GapSign(d, x, y);
    }
  }

  lemma NegativeProduct(x: int, y: int)
    requires x > 0 && y < 0
    ensures x * y < 0
  {
  }

  /** The similarity is a cosine: symmetric, between 0 and 1, 1 for equal vectors, and 1 only for
      vectors in proportion. */
  lemma SimilarityLaws(a: Vector, b: Vector)
    ensures CosineSq(a, b) == CosineSq(b, a)
    ensures 0.0 <= CosineSq(a, b) <= 1.0
    ensures NormSq(a) > 0 ==> CosineSq(a, a) == 1.0
    ensures CosineSq(a, b) == 1.0 ==> forall k :: NormSq(b) * At(a, k) == Inner(a, b) * At(b, k)
  {
    hide Dot, Inner, NormSq, At;
    InnerLaws(a, b);
    var d, x, y := Inner(a, b), NormSq(a), NormSq(b);
    assert x * y == y * x;
    if x > 0 {
      Ratio(x * x, x * x);
    }
    if x > 0 && y > 0 {
      Ratio(d * d, x * y);
    }
  }

  /** The same laws without division. */
  lemma InnerLaws(a: Vector, b: Vector)
    ensures var d, x, y := Inner(a, b), NormSq(a), NormSq(b);
      && Inner(b, a) == d && Inner(a, a) == x && d * d <= x * y
      && (d * d == x * y && y > 0 ==> forall k :: y * At(a, k) == d * At(b, k))
  {
    hide Dot;
    InnerOverEither(a, b);
    InnerOverEither(b, a);
    InnerOverEither(a, a);
    assert a.Keys + b.Keys == b.Keys + a.Keys && a.Keys + a.Keys == a.Keys;
    CauchySchwarz(a.Keys + b.Keys, a, b);
    var d, x, y := Inner(a, b), NormSq(a), NormSq(b);
    if d * d == x * y && y > 0 {
      forall k ensures y * At(a, k) == d * At(b, k) {
        if k !in a.Keys + b.Keys {
          assert At(a, k) == 0 && At(b, k) == 0;
        }
      }
    }
  }

  lemma Ratio(n: nat, m: nat)
    requires m > 0 && n <= m
    ensures 0.0 <= n as real / m as real <= 1.0
    ensures n as real / m as real == 1.0 <==> n == m
  {
  }

  // ---- the code ----

  /** ASCII lower case. */
  function Lower(c: char): char {
    if 'A' <= c <= 'Z' then ((c as int - 'A' as int) + 'a' as int) as char else c
  }

  function ToLower(s: string): string { seq(|s|, i requires 0 <= i < |s| => Lower(s[i])) }

  function Normalize(s: string): string { Text.Join(Text.Fields(ToLower(s)), " ") }

  /** The terms of a text. */
  function Terms(s: string): seq<string> { Text.Fields(Normalize(s)) }

  /** Term counts. */
  function Counts(words: seq<string>): Vector {
    map w | w in words :: multiset(words)[w]
  }

  /** vectorize: counts term by term, then sums the squares in any order. */
  method Vectorize(s: string) returns (vec: Vector, normSq: nat)
    ensures vec == Counts(Terms(s)) && normSq == NormSq(vec)
  {
    hide Counts, Dot, NormSq;
    NothingCounted();
    vec := map[];
    var toks := Text.Fields(Normalize(s));
    for i := 0 to |toks|
      invariant vec == Counts(toks[..i])
    {
      assert toks[..i + 1] == toks[..i] + [toks[i]];
      CountOne(toks[..i], toks[i]);
      vec := vec[toks[i] := At(vec, toks[i]) + 1];
    }
    assert toks[..|toks|] == toks;
    normSq := 0;
    NoTerms(vec, vec);
    InnerOverEither(vec, vec);
    assert vec.Keys + vec.Keys == vec.Keys;
    var todo := vec.Keys;
    while todo != {}
      invariant todo <= vec.Keys
      invariant normSq + Dot(todo, vec, vec) == NormSq(vec)
    {
      var k :| k in todo;
      DotStep(todo, vec, vec, k);
      normSq := normSq + vec[k] * vec[k];
      todo := todo - {k};
    }
  }

  lemma NothingCounted()
    ensures Counts([]) == map[]
  {
  }

  lemma CountOne(words: seq<string>, w: string)
    ensures Counts(words + [w]) == Counts(words)[w := At(Counts(words), w) + 1]
  {
    assert multiset(words + [w]) == multiset(words) + multiset{w};
    if w !in words {
      assert multiset(words)[w] == 0;
    }
  }

  /** cosine's dot product: over the terms of the smaller map, in any order. */
  method DotProduct(a: Vector, b: Vector) returns (dot: nat)
    ensures dot == Inner(a, b)
  {
    hide Inner, Dot, At;
    NoTerms(a, b);
    NoTerms(b, a);
    InnerOverEither(a, b);
    InnerOverEither(b, a);
    var small, large := a, b;
    if |b| < |a| {
      small, large := b, a;
    }
    dot := 0;
    var todo := small.Keys;
    while todo != {}
      invariant todo <= small.Keys
      invariant dot + Dot(todo, small, large) == Inner(a, b)
    {
      var k :| k in todo;
      DotStep(todo, small, large, k);
      if k in large {
        dot := dot + small[k] * large[k];
      }
      todo := todo - {k};
    }
  }

  method Cosine(a: Vector, aNormSq: nat, b: Vector, bNormSq: nat) returns (simSq: real)
    requires aNormSq == NormSq(a) && bNormSq == NormSq(b)
    ensures simSq == CosineSq(a, b)
  {
    if aNormSq == 0 || bNormSq == 0 {
      return 0.0;
    }
    var dot := DotProduct(a, b);
    simSq := (dot * dot) as real / (aNormSq * bNormSq) as real;
  }
}
