/** Three-way lexicographic comparison of byte sequences, the order of Go's
    `strings.Compare` and `bytes.Compare`, with the properties that make it a
    total order. */
module ByteOrder {
  import opened GoValues

  /** -1, 0 or 1 as `a` sorts before, equal to or after `b`, byte by byte,
      a proper prefix sorting first. */
  function LexCompare(a: seq<U8>, b: seq<U8>): (r: int)
    ensures r == -1 || r == 0 || r == 1
    ensures r == 0 <==> a == b
    decreases |a|
  {
    if |a| == 0 then (if |b| == 0 then 0 else -1)
    else if |b| == 0 then 1
    else if a[0] < b[0] then -1
    else if a[0] > b[0] then 1
    else
      var r := LexCompare(a[1..], b[1..]);
      assert a == [a[0]] + a[1..] && b == [b[0]] + b[1..];
      r
  }

  /** The lexicographic order defined independently: `a` and `b` share their
      first `k` bytes, and then `a` ends while `b` goes on, or `a`'s next byte
      is the smaller. */
  ghost predicate LexLess(a: seq<U8>, b: seq<U8>) {
    exists k :: 0 <= k <= |a| && k <= |b| && a[..k] == b[..k] && DiffersAt(a, b, k)
  }

  ghost predicate DiffersAt(a: seq<U8>, b: seq<U8>, k: int)
    requires 0 <= k <= |a| && k <= |b|
  {
    (k == |a| && k < |b|) || (k < |a| && k < |b| && a[k] < b[k])
  }

  /** `LexCompare` returns -1 exactly when `a` is lexicographically smaller. */
  lemma {:induction false} LexCompareIsLexLess(a: seq<U8>, b: seq<U8>)
    ensures LexCompare(a, b) == -1 <==> LexLess(a, b)
    decreases |a|
  {
    if LexCompare(a, b) == -1 {
      LexLessWhenMinusOne(a, b);
    }
    if LexLess(a, b) {
      var k :| 0 <= k <= |a| && k <= |b| && a[..k] == b[..k] && DiffersAt(a, b, k);
      MinusOneWhenLexLess(a, b, k);
    }
  }

  lemma {:induction false} LexLessWhenMinusOne(a: seq<U8>, b: seq<U8>)
    requires LexCompare(a, b) == -1
    ensures LexLess(a, b)
    decreases |a|
  {
    if |a| == 0 {
      assert a[..0] == b[..0] && DiffersAt(a, b, 0);
    } else if a[0] < b[0] {
      assert a[..0] == b[..0] && DiffersAt(a, b, 0);
    } else {
      LexLessWhenMinusOne(a[1..], b[1..]);
      var k :| 0 <= k <= |a[1..]| && k <= |b[1..]| && a[1..][..k] == b[1..][..k]
               && DiffersAt(a[1..], b[1..], k);
      assert a[..k + 1] == [a[0]] + a[1..][..k];
      assert b[..k + 1] == [b[0]] + b[1..][..k];
      assert DiffersAt(a, b, k + 1);
    }
  }

  lemma {:induction false} MinusOneWhenLexLess(a: seq<U8>, b: seq<U8>, k: int)
    requires 0 <= k <= |a| && k <= |b| && a[..k] == b[..k] && DiffersAt(a, b, k)
    ensures LexCompare(a, b) == -1
    decreases k
  {
    if k > 0 {
      assert a[0] == a[..k][0] && b[0] == b[..k][0];
      assert a[1..][..k - 1] == a[..k][1..] && b[1..][..k - 1] == b[..k][1..];
      MinusOneWhenLexLess(a[1..], b[1..], k - 1);
    }
  }

  /** Swapping the arguments negates the result. */
  lemma {:induction false} LexCompareAntisymmetric(a: seq<U8>, b: seq<U8>)
    ensures LexCompare(a, b) == -LexCompare(b, a)
    decreases |a|
  {
    if |a| > 0 && |b| > 0 && a[0] == b[0] {
      LexCompareAntisymmetric(a[1..], b[1..]);
    }
  }

  /** The order is transitive. */
  lemma {:induction false} LexCompareTransitive(a: seq<U8>, b: seq<U8>, c: seq<U8>)
    requires LexCompare(a, b) <= 0 && LexCompare(b, c) <= 0
    ensures LexCompare(a, c) <= 0
    decreases |a|
  {
    if |a| > 0 && |b| > 0 && |c| > 0 && a[0] == b[0] == c[0] {
      LexCompareTransitive(a[1..], b[1..], c[1..]);
    }
  }
}
