/** `sorted(xs, key=len, reverse=True)` and the top-k cut taken from it.
    Python's sort is stable, including with `reverse=True`: strings of equal
    length keep their original relative order. */
module Ranking {

  /** Longest first, compared pairwise. */
  predicate Descending(s: seq<string>) {
    forall i, j :: 0 <= i < j < |s| ==> |s[i]| >= |s[j]|
  }

  predicate IsPrefix(t: seq<string>, u: seq<string>) {
    |t| <= |u| && t == u[..|t|]
  }

  /** The elements of length `n`, in order. */
  function OfLength(s: seq<string>, n: nat): (r: seq<string>)
    ensures |r| <= |s|
    ensures forall k :: 0 <= k < |r| ==> |r[k]| == n
  {
    if s == [] then []
    else (if |s[0]| == n then [s[0]] else []) + OfLength(s[1..], n)
  }

  /** Places `x` before the first element no longer than itself. */
  function Insert(x: string, t: seq<string>): (r: seq<string>)
    ensures |r| == |t| + 1
    ensures multiset(r) == multiset([x] + t)
  {
    if t == [] || |t[0]| <= |x| then [x] + t
    else
      assert multiset([t[0]] + ([x] + t[1..])) == multiset([x] + t) by {
        assert t == [t[0]] + t[1..];
      }
      [t[0]] + Insert(x, t[1..])
  }

  /** The stable descending sort, by insertion from the back. */
  function SortByLength(s: seq<string>): (r: seq<string>)
    ensures |r| == |s|
    ensures multiset(r) == multiset(s)
  {
    if s == [] then []
    else
      assert s == [s[0]] + s[1..];
      Insert(s[0], SortByLength(s[1..]))
  }

  lemma {:induction false} InsertDescending(x: string, t: seq<string>)
    requires Descending(t)
    ensures Descending(Insert(x, t))
  {
    if t == [] || |t[0]| <= |x| {
    } else {
      InsertDescending(x, t[1..]);
      var r := Insert(x, t);
      var tail := Insert(x, t[1..]);
      assert r == [t[0]] + tail;
      forall k | 0 <= k < |tail|
        ensures |t[0]| >= |tail[k]|
      {
        assert tail[k] in multiset([x] + t[1..]);
        assert tail[k] in [x] + t[1..];
      }
    }
  }

  lemma {:induction false} SortDescending(s: seq<string>)
    ensures Descending(SortByLength(s))
  {
    if s != [] {
      SortDescending(s[1..]);
      InsertDescending(s[0], SortByLength(s[1..]));
    }
  }

  lemma {:induction false} OfLengthConcat(a: seq<string>, b: seq<string>, n: nat)
    ensures OfLength(a + b, n) == OfLength(a, n) + OfLength(b, n)
  {
    if a == [] {
      assert a + b == b;
    } else {
      assert (a + b)[1..] == a[1..] + b;
      OfLengthConcat(a[1..], b, n);
    }
  }

  /** Inserting `x` keeps the order of every length class, `x` going first in its own. */
  lemma {:induction false} InsertStable(x: string, t: seq<string>, n: nat)
    requires Descending(t)
    ensures OfLength(Insert(x, t), n) == OfLength([x] + t, n)
  {
    if t == [] || |t[0]| <= |x| {
    } else {
      InsertStable(x, t[1..], n);
      calc {
        OfLength(Insert(x, t), n);
        OfLength([t[0]] + Insert(x, t[1..]), n);
        { OfLengthConcat([t[0]], Insert(x, t[1..]), n); }
        OfLength([t[0]], n) + OfLength([x] + t[1..], n);
        { OfLengthConcat([x], t[1..], n); }
        OfLength([t[0]], n) + OfLength([x], n) + OfLength(t[1..], n);
        { assert |t[0]| != |x| ==> OfLength([t[0]], n) == [] || OfLength([x], n) == []; }
        OfLength([x], n) + OfLength([t[0]], n) + OfLength(t[1..], n);
        { OfLengthConcat([t[0]], t[1..], n); assert [t[0]] + t[1..] == t; }
        OfLength([x], n) + OfLength(t, n);
        { OfLengthConcat([x], t, n); }
        OfLength([x] + t, n);
      }
    }
  }

  /** Stability: each length class comes out in its original order. */
  lemma {:induction false} SortStable(s: seq<string>, n: nat)
    ensures OfLength(SortByLength(s), n) == OfLength(s, n)
  {
    if s != [] {
      var rest := SortByLength(s[1..]);
      SortDescending(s[1..]);
      SortStable(s[1..], n);
      InsertStable(s[0], rest, n);
      ConsOfLength(s[0], rest, n);
      ConsOfLength(s[0], s[1..], n);
    }
  }

  lemma ConsOfLength(x: string, t: seq<string>, n: nat)
    ensures OfLength([x] + t, n) == OfLength([x], n) + OfLength(t, n)
  {
    OfLengthConcat([x], t, n);
  }

  /** In a descending sequence every element of a prefix is at least as long
      as anything left behind. */
  lemma PrefixDominates(sorted: seq<string>, n: nat)
    requires Descending(sorted) && n <= |sorted|
    ensures forall y, x :: y in sorted[..n] && x in multiset(sorted) - multiset(sorted[..n]) ==> |y| >= |x|
  {
    assert sorted == sorted[..n] + sorted[n..];
    forall y, x | y in sorted[..n] && x in multiset(sorted) - multiset(sorted[..n])
      ensures |y| >= |x|
    {
      assert x in multiset(sorted[n..]);
      assert x in sorted[n..];
      var j :| 0 <= j < |sorted[n..]| && sorted[n..][j] == x;
      var i :| 0 <= i < n && sorted[..n][i] == y;
      assert sorted[i] == y && sorted[n + j] == x;
    }
  }

  lemma PrefixMultiset(s: seq<string>, n: nat)
    requires n <= |s|
    ensures multiset(s[..n]) <= multiset(s)
  {
    assert s == s[..n] + s[n..];
  }

  /** `sorted(s, key=len, reverse=True)[:k]`: the first `k` of the stable sort. */
  function Top(s: seq<string>, k: nat): (r: seq<string>)
    ensures |r| == if |s| < k then |s| else k
    ensures multiset(r) <= multiset(s)
    ensures forall y, x :: y in r && x in multiset(s) - multiset(r) ==> |y| >= |x|
    ensures Descending(r)
  {
    var sorted := SortByLength(s);
    var n := if |s| < k then |s| else k;
    SortDescending(s);
    PrefixDominates(sorted, n);
    PrefixMultiset(sorted, n);
    sorted[..n]
  }

  /** Ties at the cut: among the texts of any one length, the top `k` are the
      first ones of that length in `s`, in the order of `s`. */
  lemma TopStable(s: seq<string>, k: nat, n: nat)
    ensures IsPrefix(OfLength(Top(s, k), n), OfLength(s, n))
  {
    var sorted := SortByLength(s);
    TopIsPrefix(s, k);
    PrefixOfLength(sorted, |Top(s, k)|, n);
    SortStable(s, n);
  }

  /** The top `k` are a prefix of the sort. */
  lemma TopIsPrefix(s: seq<string>, k: nat)
    ensures Top(s, k) == SortByLength(s)[..|Top(s, k)|]
  {
  }

  /** The texts of length `n` in a prefix are a prefix of those in the whole. */
  lemma PrefixOfLength(a: seq<string>, m: nat, n: nat)
    requires m <= |a|
    ensures IsPrefix(OfLength(a[..m], n), OfLength(a, n))
  {
    assert a == a[..m] + a[m..];
    OfLengthConcat(a[..m], a[m..], n);
  }

  /** The first of the top `k` is an element of `s` at least as long as any other. */
  lemma TopLongest(s: seq<string>, k: nat)
    requires k >= 1 && s != []
    ensures Top(s, k)[0] in s
    ensures forall x :: x in s ==> |x| <= |Top(s, k)[0]|
  {
    var r := Top(s, k);
    assert r[0] in multiset(s) by { assert r[0] in multiset(r); }
    forall x | x in s
      ensures |x| <= |r[0]|
    {
      if x in r {
        var m :| 0 <= m < |r| && r[m] == x;
        assert m == 0 || |r[0]| >= |r[m]|;
      } else {
        assert x in multiset(s) - multiset(r);
      }
    }
  }
}
