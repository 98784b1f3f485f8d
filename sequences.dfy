/** Sequence operations behind `Object.keys(o).sort().slice(-n).reverse()`:
    the default string order of `Array.prototype.sort`, a sort by insertion,
    `slice` with a negative start, `reverse`, and the duplicate-free key list
    of a parsed JSON object. */
module Sequences {

  /** `a` sorts no later than `b`: lexicographic order on characters, a proper
      prefix sorting first. */
  predicate Below(a: string, b: string)
    decreases |a|
  {
    |a| == 0 || (|b| > 0 && (a[0] < b[0] || (a[0] == b[0] && Below(a[1..], b[1..]))))
  }

  lemma {:induction false} BelowReflexive(a: string)
    ensures Below(a, a)
    decreases |a|
  {
    if |a| > 0 {
      BelowReflexive(a[1..]);
    }
  }

  lemma {:induction false} BelowAntisymmetric(a: string, b: string)
    requires Below(a, b) && Below(b, a)
    ensures a == b
    decreases |a|
  {
    if |a| > 0 {
      BelowAntisymmetric(a[1..], b[1..]);
      assert a == [a[0]] + a[1..] && b == [b[0]] + b[1..];
    }
  }

  lemma {:induction false} BelowTransitive(a: string, b: string, c: string)
    requires Below(a, b) && Below(b, c)
    ensures Below(a, c)
    decreases |a|
  {
    if |a| > 0 && a[0] == b[0] && b[0] == c[0] {
      BelowTransitive(a[1..], b[1..], c[1..]);
    }
  }

  lemma {:induction false} BelowTotal(a: string, b: string)
    ensures Below(a, b) || Below(b, a)
    decreases |a|
  {
    if |a| > 0 && |b| > 0 && a[0] == b[0] {
      BelowTotal(a[1..], b[1..]);
    }
  }

  /** Sorted in `Array.prototype.sort`'s default order. */
  ghost predicate Ascending(s: seq<string>) {
    forall i, j :: 0 <= i < j < |s| ==> Below(s[i], s[j])
  }

  ghost predicate Distinct<T>(s: seq<T>) {
    forall i, j :: 0 <= i < j < |s| ==> s[i] != s[j]
  }

  /** Places `x` before the first element it sorts below. */
  function Insert(x: string, s: seq<string>): (r: seq<string>)
    ensures |r| == |s| + 1
  {
    if s == [] then [x]
    else if Below(x, s[0]) then [x] + s
    else [s[0]] + Insert(x, s[1..])
  }

  /** `keys.sort()`. */
  function Sort(s: seq<string>): (r: seq<string>)
    ensures |r| == |s|
  {
    if s == [] then [] else Insert(s[0], Sort(s[1..]))
  }

  lemma {:induction false} InsertPermutes(x: string, s: seq<string>)
    ensures multiset(Insert(x, s)) == multiset(s) + multiset{x}
  {
    if s != [] && !Below(x, s[0]) {
      InsertPermutes(x, s[1..]);
      assert s == [s[0]] + s[1..];
    }
  }

  lemma {:induction false} InsertAscending(x: string, s: seq<string>)
    requires Ascending(s)
    ensures Ascending(Insert(x, s))
  {
    if s == [] {
    } else if Below(x, s[0]) {
      var r := [x] + s;
      forall i, j | 0 <= i < j < |r|
        ensures Below(r[i], r[j])
      {
        if i == 0 && j > 1 {
          BelowTransitive(x, s[0], s[j - 1]);
        }
      }
    } else {
      BelowTotal(x, s[0]);
      InsertAscending(x, s[1..]);
      InsertPermutes(x, s[1..]);
      var r := Insert(x, s);
      var t := Insert(x, s[1..]);
      assert r == [s[0]] + t;
      forall j | 0 < j < |r|
        ensures Below(r[0], r[j])
      {
        assert r[j] == t[j - 1];
        assert r[j] in multiset(t);
        if r[j] != x {
          assert r[j] in multiset(s[1..]);
          var k :| 0 <= k < |s[1..]| && s[1..][k] == r[j];
          assert s[k + 1] == r[j];
        }
      }
      forall i, j | 0 <= i < j < |r|
        ensures Below(r[i], r[j])
      {
        if i > 0 {
          assert r[i] == t[i - 1] && r[j] == t[j - 1];
        }
      }
    }
  }

  /** The sort puts the keys in ascending order. */
  lemma {:induction false} SortAscending(s: seq<string>)
    ensures Ascending(Sort(s))
  {
    if s != [] {
      SortAscending(s[1..]);
      InsertAscending(s[0], Sort(s[1..]));
    }
  }

  /** The sort rearranges the keys and nothing more. */
  lemma {:induction false} SortPermutes(s: seq<string>)
    ensures multiset(Sort(s)) == multiset(s)
  {
    if s != [] {
      SortPermutes(s[1..]);
      InsertPermutes(s[0], Sort(s[1..]));
      assert s == [s[0]] + s[1..];
    }
  }

  /** Two ascending arrangements of the same strings are the same sequence:
      whatever algorithm `Array.prototype.sort` uses, it agrees with `Sort`. */
  lemma {:induction false} AscendingUnique(a: seq<string>, b: seq<string>)
    requires Ascending(a) && Ascending(b) && multiset(a) == multiset(b)
    ensures a == b
    decreases |a|
  {
    assert |a| == |multiset(a)| == |multiset(b)| == |b|;
    if a != [] {
      assert a[0] in multiset(b);
      assert b[0] in multiset(a);
      var j :| 0 <= j < |b| && b[j] == a[0];
      var i :| 0 <= i < |a| && a[i] == b[0];
      if i > 0 { assert Below(a[0], a[i]); } else { BelowReflexive(a[0]); }
      if j > 0 { assert Below(b[0], b[j]); } else { BelowReflexive(b[0]); }
      BelowAntisymmetric(a[0], b[0]);
      DropFirst(a);
      DropFirst(b);
      AscendingUnique(a[1..], b[1..]);
    }
  }

  lemma DropFirst<T>(s: seq<T>)
    requires s != []
    ensures multiset(s[1..]) == multiset(s) - multiset{s[0]}
  {
    assert s == [s[0]] + s[1..];
  }

  /** `s.slice(-n)`: the last `n` elements; `slice(-0)` is `slice(0)`, all of them. */
  function SliceFromEnd<T>(s: seq<T>, n: nat): (r: seq<T>)
    ensures n == 0 ==> r == s
    ensures n > 0 ==> |r| == (if n < |s| then n else |s|)
    ensures r == s[|s| - |r|..]
  {
    if n == 0 || n >= |s| then s else s[|s| - n..]
  }

  /** `s.reverse()`. */
  function Reverse<T>(s: seq<T>): (r: seq<T>)
    ensures |r| == |s|
  {
    if s == [] then [] else Reverse(s[1..]) + [s[0]]
  }

  lemma {:induction false} ReverseAt<T>(s: seq<T>, k: nat)
    requires k < |s|
    ensures Reverse(s)[k] == s[|s| - 1 - k]
  {
    if k < |s| - 1 {
      ReverseAt(s[1..], k);
    }
  }

  /** The keys of a parsed JSON object: the names in order of first
      appearance, each once (`JSON.parse` keeps one property per name). */
  function Dedup<T(==)>(s: seq<T>): seq<T> {
    if s == [] then []
    else
      var d := Dedup(s[..|s| - 1]);
      if s[|s| - 1] in d then d else d + [s[|s| - 1]]
  }

  /** `Dedup` keeps every name and repeats none. */
  lemma {:induction false} DedupSpec<T>(s: seq<T>)
    ensures Distinct(Dedup(s))
    ensures forall x :: x in Dedup(s) <==> x in s
  {
    if s != [] {
      var init := s[..|s| - 1];
      DedupSpec(init);
      assert s == init + [s[|s| - 1]];
    }
  }

  /** Rearranging a list keeps its members. */
  lemma SameMembers<T>(a: seq<T>, b: seq<T>)
    requires multiset(a) == multiset(b)
    ensures forall x :: x in a <==> x in b
  {
    forall x
      ensures x in a <==> x in b
    {
      assert x in a <==> x in multiset(a);
      assert x in b <==> x in multiset(b);
    }
  }

  /** Rearranging a list of distinct names keeps it free of repeats. */
  lemma SameDistinct<T>(a: seq<T>, b: seq<T>)
    requires multiset(a) == multiset(b) && Distinct(a)
    ensures Distinct(b)
  {
    forall i, j | 0 <= i < j < |b|
      ensures b[i] != b[j]
    {
      if b[i] == b[j] {
        var x := b[i];
        assert b == b[..j] + [x] + b[j + 1..];
        assert x in b[..j] by { assert b[..j][i] == x; }
        assert multiset(b)[x] >= 2;
        DistinctCount(a, x);
        assert false;
      }
    }
  }

  /** `keys.sort().slice(-n).reverse()`. */
  function Latest(keys: seq<string>, n: nat): seq<string> {
    Reverse(SliceFromEnd(Sort(keys), n))
  }

  /** Position `i` of `Latest` holds the `i`-th greatest key. */
  lemma LatestAt(keys: seq<string>, n: nat, i: nat)
    requires n > 0 && i < |Latest(keys, n)|
    ensures |Sort(keys)| == |keys|
    ensures |Latest(keys, n)| == (if n < |keys| then n else |keys|)
    ensures Latest(keys, n)[i] == Sort(keys)[|keys| - 1 - i]
  {
    ReverseAt(SliceFromEnd(Sort(keys), n), i);
  }

  /** The keys kept by `Latest` for distinct keys and positive `n`:
      `min(n, |keys|)` of them, all keys, repeating none, from the greatest
      down, and no key left out sorts after a kept one. */
  lemma LatestFirst(keys: seq<string>, n: nat)
    requires Distinct(keys) && n > 0
    ensures var r := Latest(keys, n);
      && |r| == (if n < |keys| then n else |keys|)
      && (forall i :: 0 <= i < |r| ==> r[i] in keys)
      && (forall i, j :: 0 <= i < j < |r| ==> r[i] != r[j] && Below(r[j], r[i]))
      && (forall k, i :: k in keys && k !in r && 0 <= i < |r| ==> Below(k, r[i]) && k != r[i])
  {
    var sorted := Sort(keys);
    var r := Latest(keys, n);
    SortAscending(keys);
    SortPermutes(keys);
    SameMembers(sorted, keys);
    SameDistinct(keys, sorted);
    var m := |keys|;
    assert |r| == (if n < m then n else m) by {
      assert |r| == |SliceFromEnd(sorted, n)|;
    }
    forall i | 0 <= i < |r|
      ensures r[i] == sorted[m - 1 - i]
    {
      LatestAt(keys, n, i);
    }
    forall q | m - |r| <= q < m
      ensures sorted[q] in r
    {
      assert r[m - 1 - q] == sorted[q];
    }
    forall k, i | k in keys && k !in r && 0 <= i < |r|
      ensures Below(k, r[i]) && k != r[i]
    {
      var p :| 0 <= p < m && sorted[p] == k;
      assert Below(sorted[p], sorted[m - 1 - i]);
    }
  }

  /** A name occurs at most once in a list of distinct names. */
  lemma {:induction false} DistinctCount<T>(s: seq<T>, x: T)
    requires Distinct(s)
    ensures multiset(s)[x] <= 1
  {
    if s != [] {
      DistinctCount(s[1..], x);
      assert s == [s[0]] + s[1..];
      if s[0] == x {
        assert x !in s[1..];
      }
    }
  }
}
