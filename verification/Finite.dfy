/** Finite sets never use everything up. */
module Finite {
  lemma UnusedNat(ids: set<nat>) returns (w: nat)
    ensures w !in ids
  {
    ghost var left := ids;
    w := 0;
    while w in ids
      invariant forall v :: 0 <= v < w ==> v in ids && v !in left
      invariant left <= ids && forall v :: v in ids && v >= w ==> v in left
      decreases |left|
    {
      left := left - {w};
      w := w + 1;
    }
  }

  /** A text whose length no member of the set has. */
  lemma UnusedText(texts: set<string>) returns (t: string)
    ensures t !in texts
  {
    var n := UnusedNat(set x | x in texts :: |x|);
    t := seq(n, _ => 'x');
  }

  lemma SmallerSet<T>(a: set<T>, b: set<T>)
    requires a <= b
    ensures |a| <= |b| && (a != b ==> |a| < |b|)
  {
    var rest := b - a;
    assert b == a + rest;
    if a != b { assert rest != {}; }
  }
}
