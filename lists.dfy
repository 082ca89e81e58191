/** Order-preserving de-duplication, the meaning of `Array.from(new Set(xs))`:
    a JavaScript Set iterates in insertion order and ignores a repeated insert. */
module Lists {

  predicate NoDup<T(==)>(s: seq<T>) {
    forall i, j :: 0 <= i < j < |s| ==> s[i] != s[j]
  }

  /** Two successive appends are one append of the two lists. */
  lemma AppendAssoc<T>(a: seq<T>, b: seq<T>, c: seq<T>)
    ensures a + b + c == a + (b + c)
  {
  }

  /** The left operand of a concatenation is its prefix. */
  lemma PrefixOfConcat<T>(a: seq<T>, b: seq<T>)
    ensures |a| <= |a + b| && (a + b)[..|a|] == a
  {
  }

  /** A prefix of a prefix is a prefix. */
  lemma PrefixOfPrefix<T>(a: seq<T>, b: seq<T>, c: seq<T>)
    requires |a| <= |b| && b[..|a|] == a
    requires |b| <= |c| && c[..|b|] == b
    ensures c[..|a|] == a
  {
    assert c[..|a|] == c[..|b|][..|a|];
  }

  /** The position of the first occurrence of `x` in `s`. */
  function FirstIndex<T(==)>(s: seq<T>, x: T): (k: nat)
    requires x in s
    ensures k < |s| && s[k] == x && x !in s[..k]
  {
    if s[0] == x then 0
    else
      var k := 1 + FirstIndex(s[1..], x);
      assert s[..k] == [s[0]] + s[1..][..k - 1];
      k
  }

  /** The first occurrence of an element found in a prefix lies in that prefix. */
  lemma FirstIndexInPrefix<T>(s: seq<T>, m: nat, x: T)
    requires m <= |s| && x in s[..m]
    ensures FirstIndex(s, x) == FirstIndex(s[..m], x)
  {
    var k, k' := FirstIndex(s, x), FirstIndex(s[..m], x);
    assert forall j :: 0 <= j < k ==> s[j] in s[..k];
    assert forall j :: 0 <= j < k' ==> s[..m][j] in s[..m][..k'];
    assert s[..m][..k'] == s[..k'];
  }

  /** The set built from `s`, iterated: the first occurrence of every
      element, in order of first occurrence. */
  function Distinct<T(==,!new)>(s: seq<T>): (d: seq<T>)
    ensures NoDup(d) && |d| <= |s|
    ensures forall x :: x in d <==> x in s
  {
    if |s| == 0 then []
    else
      var d := Distinct(s[..|s| - 1]);
      assert s == s[..|s| - 1] + [s[|s| - 1]];
      if s[|s| - 1] in d then d else d + [s[|s| - 1]]
  }

  /** A list without duplicates comes out unchanged. */
  lemma {:induction false} DistinctOfNoDup<T(!new)>(s: seq<T>)
    requires NoDup(s)
    ensures Distinct(s) == s
  {
    if |s| > 0 {
      var init := s[..|s| - 1];
      assert NoDup(init);
      DistinctOfNoDup(init);
      assert s[|s| - 1] !in init;
      assert s == init + [s[|s| - 1]];
    }
  }

  /** A duplicate-free prefix of the input is a prefix of the output. */
  lemma {:induction false} DistinctKeepsPrefix<T(!new)>(s: seq<T>, n: nat)
    requires n <= |s| && NoDup(s[..n])
    ensures n <= |Distinct(s)| && Distinct(s)[..n] == s[..n]
  {
    if n == |s| {
      assert s[..n] == s;
      DistinctOfNoDup(s);
    } else {
      var init := s[..|s| - 1];
      assert init[..n] == s[..n];
      DistinctKeepsPrefix(init, n);
    }
  }

  /** De-duplicating a concatenation keeps a duplicate-free prefix of its
      left operand in place. */
  lemma DistinctKeepsPrefixOfConcat<T(!new)>(s: seq<T>, t: seq<T>, n: nat)
    requires n <= |s| && NoDup(s[..n])
    ensures n <= |Distinct(s + t)| && Distinct(s + t)[..n] == s[..n]
  {
    PrefixOfConcat(s, t);
    PrefixOfPrefix(s[..n], s, s + t);
    DistinctKeepsPrefix(s + t, n);
  }

  /** Extending a list leaves the first occurrence of every earlier element
      where it was, and a new element first occurs at the end. */
  lemma FirstIndicesOfExtension<T>(s: seq<T>, m: nat)
    requires m < |s|
    ensures forall x :: x in s[..m] ==> FirstIndex(s, x) == FirstIndex(s[..m], x) < m
    ensures s[m] !in s[..m] ==> FirstIndex(s, s[m]) == m
  {
    forall x | x in s[..m]
      ensures FirstIndex(s, x) == FirstIndex(s[..m], x) < m
    {
      FirstIndexInPrefix(s, m, x);
    }
    if s[m] !in s[..m] {
      assert forall j :: 0 <= j < m ==> s[j] in s[..m];
    }
  }

  /** The output lists elements in order of their first occurrence in the input. */
  lemma {:induction false} DistinctInFirstOccurrenceOrder<T(!new)>(s: seq<T>)
    ensures forall i, j :: 0 <= i < j < |Distinct(s)| ==>
      FirstIndex(s, Distinct(s)[i]) < FirstIndex(s, Distinct(s)[j])
  {
    if |s| > 0 {
      var m := |s| - 1;
      var d := Distinct(s[..m]);
      DistinctInFirstOccurrenceOrder(s[..m]);
      FirstIndicesOfExtension(s, m);
      var r := Distinct(s);
      assert forall i :: 0 <= i < |d| ==> d[i] in s[..m];
      assert r == d || r == d + [s[m]];
      forall i, j | 0 <= i < j < |r|
        ensures FirstIndex(s, r[i]) < FirstIndex(s, r[j])
      {
        assert r[i] == d[i];
        if j < |d| {
          assert r[j] == d[j];
        }
      }
    }
  }

  /** `Array.from(new Set(s))`, one insertion at a time. */
  method Dedup<T(==,!new)>(s: seq<T>) returns (r: seq<T>)
    ensures r == Distinct(s)
  {
    r := [];
    for i := 0 to |s|
      invariant r == Distinct(s[..i])
    {
      assert s[..i + 1][..i] == s[..i];
      if s[i] !in r {
        r := r + [s[i]];
      }
    }
    assert s[..|s|] == s;
  }
}
