/** Byte strings as the Go program sees them: every `char` stands for one byte, `Less` is
    the order of `bytes.Compare`, and `a <= b` on strings is Dafny's "is a prefix of". */
module Bytes {

  datatype Option<+T> = None | Some(value: T)

  /** Byte-wise lexicographic order. */
  predicate Less(a: string, b: string) {
    b != [] && (a == [] || a[0] < b[0] || (a[0] == b[0] && Less(a[1..], b[1..])))
  }

  predicate Sorted(keys: seq<string>) {
    forall i, j :: 0 <= i < j < |keys| ==> Less(keys[i], keys[j])
  }

  lemma {:induction false} LessIrreflexive(a: string)
    ensures !Less(a, a)
  {
    if a != [] { LessIrreflexive(a[1..]); }
  }

  lemma {:induction false} LessTransitive(a: string, b: string, c: string)
    requires Less(a, b) && Less(b, c)
    ensures Less(a, c)
  {
    if a != [] && a[0] == b[0] && b[0] == c[0] { LessTransitive(a[1..], b[1..], c[1..]); }
  }

  lemma {:induction false} LessTotal(a: string, b: string)
    ensures Less(a, b) || a == b || Less(b, a)
  {
    if a != [] && b != [] && a[0] == b[0] {
      LessTotal(a[1..], b[1..]);
      if a[1..] == b[1..] { assert a == [a[0]] + a[1..] && b == [b[0]] + b[1..]; }
    }
  }

  lemma LessAsymmetric(a: string, b: string)
    requires Less(a, b)
    ensures !Less(b, a) && a != b
  {
    LessIrreflexive(a);
    if Less(b, a) { LessTransitive(a, b, a); }
  }

  /** Two keys that share a prefix compare like their remainders. */
  lemma {:induction false} LessAfterPrefix(p: string, a: string, b: string)
    ensures Less(p + a, p + b) == Less(a, b)
  {
    if p == [] {
      assert p + a == a && p + b == b;
    } else {
      assert (p + a)[1..] == p[1..] + a && (p + b)[1..] == p[1..] + b;
      LessAfterPrefix(p[1..], a, b);
    }
  }

  /** A proper prefix sorts first. */
  lemma {:induction false} PrefixIsLess(p: string, k: string)
    requires p < k
    ensures Less(p, k)
  {
    if p != [] {
      assert p[1..] < k[1..];
      PrefixIsLess(p[1..], k[1..]);
    }
  }

  lemma PrefixNotAbove(p: string, k: string)
    requires p <= k
    ensures !Less(k, p)
  {
    LessIrreflexive(p);
    if p < k {
      PrefixIsLess(p, k);
      LessAsymmetric(p, k);
    }
  }

  /** A key that is at or after `p` without extending it lies after everything that extends
      `p`: the keys with one prefix form a contiguous block. */
  lemma {:induction false} BeyondBlock(p: string, x: string, c: string)
    requires !(p <= x) && !Less(x, p) && p <= c
    ensures Less(c, x)
  {
    if x[0] == p[0] {
      assert !(p[1..] <= x[1..]);
      assert c[0] == p[0] && p[1..] <= c[1..];
      BeyondBlock(p[1..], x[1..], c[1..]);
    }
  }

  // ---- searching ----

  /** `bytes.IndexByte`: the first position of `c`, or -1. */
  function IndexByte(s: string, c: char): (i: int)
    ensures -1 <= i < |s|
    ensures i == -1 <==> c !in s
    ensures i >= 0 ==> s[i] == c && c !in s[..i]
  {
    if s == [] then -1
    else if s[0] == c then 0
    else
      var r := IndexByte(s[1..], c);
      if r < 0 then -1
      else
        assert s[..r + 1] == [s[0]] + s[1..][..r];
        r + 1
  }

  /** The last position of `c`, or -1. */
  function LastIndexByte(s: string, c: char): (i: int)
    ensures -1 <= i < |s|
  {
    if s == [] then -1
    else if s[|s| - 1] == c then |s| - 1
    else LastIndexByte(s[..|s| - 1], c)
  }

  lemma {:induction false} LastIndexMeaning(s: string, c: char)
    ensures var i := LastIndexByte(s, c);
      && (i == -1 <==> c !in s)
      && (i >= 0 ==> s[i] == c && c !in s[i + 1..])
    decreases |s|
  {
    if s != [] && s[|s| - 1] != c {
      LastIndexMeaning(s[..|s| - 1], c);
      var r := LastIndexByte(s, c);
      assert s == s[..|s| - 1] + [s[|s| - 1]];
      if r >= 0 { assert s[r + 1..] == s[..|s| - 1][r + 1..] + [s[|s| - 1]]; }
    }
  }

  /** `strings.TrimSuffix`. */
  function TrimSuffix(s: string, suffix: string): string {
    if |suffix| <= |s| && s[|s| - |suffix|..] == suffix then s[..|s| - |suffix|] else s
  }

  /** `strings.TrimRight(s, "/")`. */
  function TrimSlashes(s: string): string {
    if s != "" && s[|s| - 1] == '/' then TrimSlashes(s[..|s| - 1]) else s
  }

  /** `h` is `s` without the slashes at its end, all of them and nothing else. */
  ghost predicate WithoutSlashes(s: string, h: string) {
    h <= s && !(h != "" && h[|h| - 1] == '/') && forall k :: |h| <= k < |s| ==> s[k] == '/'
  }

  lemma {:induction false} TrimSlashesMeaning(s: string, h: string)
    ensures WithoutSlashes(s, h) <==> h == TrimSlashes(s)
    decreases |s|
  {
    if s != "" && s[|s| - 1] == '/' {
      var front := s[..|s| - 1];
      TrimSlashesMeaning(front, h);
      assert h < s ==> h <= front;
      assert forall k :: 0 <= k < |front| ==> front[k] == s[k];
    } else if WithoutSlashes(s, h) {
      assert |h| == |s|;
    }
  }

  /** ASCII lower case; other bytes are left alone. */
  function Lower(s: string): (r: string)
    ensures |r| == |s|
  {
    seq(|s|, i requires 0 <= i < |s| => if 'A' <= s[i] <= 'Z' then (s[i] as int + 32) as char else s[i])
  }

  // ---- sorted enumeration of a finite key set ----

  lemma {:induction false} HasLeast(s: set<string>) returns (m: string)
    requires s != {}
    ensures m in s && forall x :: x in s ==> x == m || Less(m, x)
  {
    var first :| first in s;
    var rest := s - {first};
    if rest == {} {
      m := first;
      assert s == {first};
    } else {
      var l := HasLeast(rest);
      LessTotal(first, l);
      m := if Less(l, first) then l else first;
      forall x | x in s ensures x == m || Less(m, x) {
        if x in rest && x != l && m == first { LessTransitive(first, l, x); }
      }
    }
  }

  ghost function Least(s: set<string>): (m: string)
    requires s != {}
    ensures m in s && forall x :: x in s ==> x == m || Less(m, x)
  {
    assert exists m :: m in s && forall x :: x in s ==> x == m || Less(m, x) by {
      var l := HasLeast(s);
    }
    var m :| m in s && forall x :: x in s ==> x == m || Less(m, x);
    m
  }

  /** The elements of a set in byte order: `slices.Sorted`, and the order a cursor visits. */
  ghost function SortedSeq(s: set<string>): (r: seq<string>)
    ensures forall x :: x in r <==> x in s
    ensures |r| == |s|
  {
    if s == {} then []
    else
      var m := Least(s);
      [m] + SortedSeq(s - {m})
  }

  lemma {:induction false} SortedSeqIsSorted(s: set<string>)
    ensures Sorted(SortedSeq(s))
  {
    hide Less;
    if s != {} {
      var m := Least(s);
      SortedSeqIsSorted(s - {m});
    }
  }

  /** A sorted sequence is determined by its elements. */
  lemma {:induction false} SortedUnique(a: seq<string>, b: seq<string>)
    requires Sorted(a) && Sorted(b)
    requires forall x :: x in a <==> x in b
    ensures a == b
  {
    assert (a != [] ==> a[0] in b) && (b != [] ==> b[0] in a);
    if a == [] {
      assert b == [];
    } else {
      if a[0] != b[0] {
        assert a[0] in b && b[0] in a;
        LessAsymmetric(a[0], b[0]);
      }
      LessIrreflexive(a[0]);
      assert a == [a[0]] + a[1..] && b == [b[0]] + b[1..];
      assert a[0] !in a[1..] && b[0] !in b[1..];
      forall x ensures x in a[1..] <==> x in b[1..] {
        assert x in a <==> x == a[0] || x in a[1..];
        assert x in b <==> x == b[0] || x in b[1..];
      }
      SortedUnique(a[1..], b[1..]);
    }
  }
}
