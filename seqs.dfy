/** The array helpers the application uses (`filter`, `slice`, `includes`), over sequences. */
module Seqs {

  /** `Array.prototype.filter`: the elements of `s` that satisfy `f`, in their original order. */
  function Filter<T(==,!new)>(s: seq<T>, f: T -> bool): (r: seq<T>)
    ensures |r| <= |s|
    ensures forall x :: x in r <==> x in s && f(x)
    ensures Subseq(r, s)
  {
    if s == [] then []
    else if f(s[0]) then [s[0]] + Filter(s[1..], f)
    else Filter(s[1..], f)
  }

  /** `a` can be obtained from `b` by deleting elements: the order of `a` is the order in `b`. */
  predicate Subseq<T(==)>(a: seq<T>, b: seq<T>)
    decreases |b|
  {
    if a == [] then true
    else if b == [] then false
    else (a[0] == b[0] && Subseq(a[1..], b[1..])) || Subseq(a, b[1..])
  }

  /** `s.filter(y => y !== x)`: every occurrence of `x` removed, the others kept in order. */
  function RemoveAll<T(==,!new)>(s: seq<T>, x: T): (r: seq<T>)
    ensures |r| <= |s|
    ensures forall y :: y in r <==> y in s && y != x
    ensures Subseq(r, s)
    ensures x !in s ==> r == s
  {
    if s == [] then []
    else if s[0] == x then RemoveAll(s[1..], x)
    else [s[0]] + RemoveAll(s[1..], x)
  }

  /** No element occurs twice. */
  predicate NoDup<T(==)>(s: seq<T>) {
    forall i, j :: 0 <= i < j < |s| ==> s[i] != s[j]
  }

  /** `s.includes(x) ? s : [...s, x]`. */
  function AppendIfAbsent<T(==,!new)>(s: seq<T>, x: T): (r: seq<T>)
    ensures x in r
    ensures forall y :: y in r <==> y in s || y == x
    ensures NoDup(s) ==> NoDup(r)
  {
    if x in s then s else s + [x]
  }

  /** Number of occurrences of `x` in `s`. */
  function Count<T(==)>(s: seq<T>, x: T): nat {
    if s == [] then 0 else (if s[|s| - 1] == x then 1 else 0) + Count(s[..|s| - 1], x)
  }

  /** An element occurs a positive number of times exactly when it is in the sequence. */
  lemma {:induction false} CountPositive<T>(s: seq<T>, x: T)
    ensures Count(s, x) > 0 <==> x in s
  {
    if s != [] {
      var p := s[..|s| - 1];
      assert s == p + [s[|s| - 1]];
      CountPositive(p, x);
    }
  }

  /** The concatenation of the buckets of `ss`, in order. */
  function Flatten<T>(ss: seq<seq<T>>): seq<T> {
    if ss == [] then [] else Flatten(ss[..|ss| - 1]) + ss[|ss| - 1]
  }

  /** `s.slice(start, end)` for non-negative bounds: both are clamped to the length. */
  function Slice<T>(s: seq<T>, start: nat, end: nat): (r: seq<T>)
    ensures |r| <= if end <= start then 0 else end - start
    ensures start <= end <= |s| ==> r == s[start..end]
  {
    var a := if start < |s| then start else |s|;
    var b := if end < |s| then end else |s|;
    if b <= a then [] else s[a..b]
  }

  /** Removing an element that was just appended because it was absent restores the sequence. */
  lemma {:induction false} RemoveAllUndoesAppend<T(!new)>(s: seq<T>, x: T)
    requires x !in s
    ensures RemoveAll(AppendIfAbsent(s, x), x) == s
  {
    RemoveAllAppend(s, x);
  }

  /** Removing `x` from `s + [x]`, when `s` lacks `x`, gives back `s`. */
  lemma {:induction false} RemoveAllAppend<T(!new)>(s: seq<T>, x: T)
    requires x !in s
    ensures RemoveAll(s + [x], x) == s
  {
    if s != [] {
      assert (s + [x])[1..] == s[1..] + [x];
      RemoveAllAppend(s[1..], x);
    } else {
      assert RemoveAll([x], x) == RemoveAll([], x);
    }
  }

  /** Removing from a duplicate-free sequence keeps it duplicate-free. */
  lemma {:induction false} RemoveAllNoDup<T(!new)>(s: seq<T>, x: T)
    requires NoDup(s)
    ensures NoDup(RemoveAll(s, x))
  {
    if s != [] {
      assert NoDup(s[1..]);
      RemoveAllNoDup(s[1..], x);
      if s[0] != x {
        var r := RemoveAll(s[1..], x);
        assert s[0] !in s[1..];
        assert s[0] !in r;
        assert [s[0]] + r == RemoveAll(s, x);
        forall i, j | 0 <= i < j < |[s[0]] + r| ensures ([s[0]] + r)[i] != ([s[0]] + r)[j] {
          if i == 0 { assert ([s[0]] + r)[j] == r[j - 1]; }
        }
      }
    }
  }

  /** Flattening distributes over appending one bucket. */
  lemma FlattenAppend<T>(ss: seq<seq<T>>, b: seq<T>)
    ensures Flatten(ss + [b]) == Flatten(ss) + b
  {
    assert (ss + [b])[..|ss|] == ss;
  }

  /** A prefix keeps the order of the sequence it is cut from. */
  lemma {:induction false} PrefixSubseq<T>(s: seq<T>, m: nat)
    requires m <= |s|
    ensures Subseq(s[..m], s)
  {
    if m > 0 {
      assert s[..m][1..] == s[1..][..m - 1];
      PrefixSubseq(s[1..], m - 1);
    }
  }

  /** Keeping the order is transitive. */
  lemma {:induction false} SubseqTrans<T>(a: seq<T>, b: seq<T>, c: seq<T>)
    requires Subseq(a, b) && Subseq(b, c)
    ensures Subseq(a, c)
    decreases |c|
  {
    if a != [] {
      if b[0] == c[0] && Subseq(b[1..], c[1..]) {
        if a[0] == b[0] && Subseq(a[1..], b[1..]) {
          SubseqTrans(a[1..], b[1..], c[1..]);
        } else {
          SubseqTrans(a, b[1..], c[1..]);
        }
      } else {
        SubseqTrans(a, b, c[1..]);
      }
    }
  }

  /** Every sequence keeps its own order. */
  lemma {:induction false} SubseqRefl<T>(s: seq<T>)
    ensures Subseq(s, s)
  {
    if s != [] {
      SubseqRefl(s[1..]);
    }
  }

  /** `Math.ceil(n / d)` for a positive divisor. */
  function CeilDiv(n: nat, d: nat): (c: nat)
    requires d > 0
    ensures c * d >= n && (c == 0 || (c - 1) * d < n)
    ensures n > 0 ==> c > 0
  {
    var c := (n + d - 1) / d;
    assert n + d - 1 == c * d + (n + d - 1) % d;
    c
  }
}
