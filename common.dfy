/**
 * Shared vocabulary: optional values, results of operations that can
 * throw, and the array operations of JavaScript the core relies on
 * (`filter`, `find`, stable `sort` by a numeric key).
 */
module Common {

  /** A value that JavaScript represents as `undefined`/`null` when absent. */
  datatype Option<T> = None | Some(value: T)

  /** The outcome of an operation that either returns or throws an `Error(message)`. */
  datatype Result<T> = Ok(value: T) | Err(message: string)

  /**
   * An optional field of a JSON body as a schema sees it: missing, a
   * string, or present with another type (a number, `null`).
   */
  datatype OptionalText = Absent | Given(text: string) | Mistyped

  /** An accepted optional field as the schema hands it on: its string, or `undefined` when missing. */
  function GivenText(f: OptionalText): (r: Option<string>)
    ensures r.Some? <==> f.Given?
    ensures r.Some? ==> r.value == f.text
  {
    if f.Given? then Some(f.text) else None
  }

  /** A route's answer: a success body, or an error status with its message. */
  datatype Reply<T> = Success(body: T) | Failure(status: int, error: string)

  /** JavaScript's `a || b` on an optional string: an absent or empty `a` gives `b`. */
  function OrElse(a: Option<string>, b: string): (r: string)
    ensures a.Some? && a.value != "" ==> r == a.value
    ensures a.None? || a.value == "" ==> r == b
  {
    if a.Some? && a.value != "" then a.value else b
  }

  /** `Array.prototype.filter` for a predicate that captures nothing. */
  function Filter<T>(s: seq<T>, p: T -> bool): (r: seq<T>)
    ensures |r| <= |s|
    ensures forall x :: x in r ==> x in s && p(x)
    decreases |s|
  {
    if |s| == 0 then []
    else if p(s[|s| - 1]) then Filter(s[..|s| - 1], p) + [s[|s| - 1]]
    else Filter(s[..|s| - 1], p)
  }

  /** Every element of `s` that satisfies `p` survives the filter. */
  lemma {:induction false} FilterKeeps<T>(s: seq<T>, p: T -> bool, x: T)
    requires x in s && p(x)
    ensures x in Filter(s, p)
    decreases |s|
  {
    if x != s[|s| - 1] {
      assert x in s[..|s| - 1] by {
        var i :| 0 <= i < |s| && s[i] == x;
        assert i < |s| - 1;
        assert s[..|s| - 1][i] == x;
      }
      FilterKeeps(s[..|s| - 1], p, x);
    }
  }

  /** Filtering distributes over concatenation. */
  lemma {:induction false} FilterAppend<T>(a: seq<T>, b: seq<T>, p: T -> bool)
    ensures Filter(a + b, p) == Filter(a, p) + Filter(b, p)
    decreases |b|
  {
    if |b| == 0 {
      assert a + b == a;
    } else {
      var b' := b[..|b| - 1];
      assert (a + b)[..|a + b| - 1] == a + b';
      FilterAppend(a, b', p);
    }
  }

  /** `s` is sorted ascending by `key`. */
  predicate SortedBy<T>(s: seq<T>, key: T -> int)
  {
    forall i, j :: 0 <= i < j < |s| ==> key(s[i]) <= key(s[j])
  }

  /** Places `x` after every element whose key is not larger than its own. */
  function InsertBy<T>(s: seq<T>, x: T, key: T -> int): (r: seq<T>)
    requires SortedBy(s, key)
    ensures SortedBy(r, key)
    ensures multiset(r) == multiset(s) + multiset{x}
    ensures |r| == |s| + 1
    decreases |s|
  {
    if |s| == 0 || key(s[|s| - 1]) <= key(x) then s + [x]
    else
      var init := s[..|s| - 1];
      var last := s[|s| - 1];
      assert s == init + [last];
      var r' := InsertBy(init, x, key);
      forall e | e in r' ensures key(e) <= key(last) {
        assert e in multiset(r');
        if e != x {
          assert e in multiset(init);
          var i :| 0 <= i < |init| && init[i] == e;
          assert s[i] == e;
        }
      }
      r' + [last]
  }

  /**
   * `Array.prototype.sort` with the comparator `(a, b) => key(a) - key(b)`:
   * a stable insertion sort on a value.
   */
  function SortBy<T>(s: seq<T>, key: T -> int): (r: seq<T>)
    ensures SortedBy(r, key)
    ensures multiset(r) == multiset(s)
    ensures |r| == |s|
    decreases |s|
  {
    if |s| == 0 then []
    else
      assert s == s[..|s| - 1] + [s[|s| - 1]];
      InsertBy(SortBy(s[..|s| - 1], key), s[|s| - 1], key)
  }

  /** The test "has key `k`". */
  function KeyIs<T>(key: T -> int, k: int): T -> bool
  {
    (y: T) => key(y) == k
  }

  /** Filtering a single element. */
  lemma FilterSingle<T>(x: T, p: T -> bool)
    ensures Filter([x], p) == (if p(x) then [x] else [])
  {
    assert [x][..0] == [];
  }

  /**
   * The filtering step of a stable insertion: `last` goes after the inserted
   * `x` when they cannot both pass the test.
   */
  lemma InsertFilterStep<T>(r: seq<T>, r': seq<T>, init: seq<T>, last: T, x: T, p: T -> bool)
    requires r == r' + [last]
    requires Filter(r', p) == Filter(init, p) + Filter([x], p)
    requires !(p(last) && p(x))
    ensures Filter(r, p) == Filter(init + [last], p) + Filter([x], p)
  {
    FilterAppend(r', [last], p);
    FilterAppend(init, [last], p);
    FilterSingle(last, p);
    FilterSingle(x, p);
  }

  /** Inserting `x` puts it after every element with its key, leaving their order alone. */
  lemma {:induction false} InsertByStable<T>(s: seq<T>, x: T, key: T -> int, k: int)
    requires SortedBy(s, key)
    ensures Filter(InsertBy(s, x, key), KeyIs(key, k))
            == Filter(s, KeyIs(key, k)) + Filter([x], KeyIs(key, k))
    decreases |s|
  {
    var p := KeyIs(key, k);
    if |s| == 0 || key(s[|s| - 1]) <= key(x) {
      FilterAppend(s, [x], p);
    } else {
      var init, last := s[..|s| - 1], s[|s| - 1];
      assert s == init + [last];
      InsertByStable(init, x, key, k);
      InsertFilterStep(InsertBy(s, x, key), InsertBy(init, x, key), init, last, x, p);
    }
  }

  /**
   * `SortBy` is stable: the elements with any one key come out in the order
   * they went in.
   */
  lemma {:induction false} SortByStable<T>(s: seq<T>, key: T -> int, k: int)
    ensures Filter(SortBy(s, key), KeyIs(key, k)) == Filter(s, KeyIs(key, k))
    decreases |s|
  {
    if |s| > 0 {
      var init := s[..|s| - 1];
      var last := s[|s| - 1];
      assert s == init + [last];
      SortByStable(init, key, k);
      InsertByStable(SortBy(init, key), last, key, k);
      FilterAppend(init, [last], KeyIs(key, k));
    }
  }

  /** Concatenation is associative. */
  lemma ConcatAssoc<T>(a: seq<T>, b: seq<T>, c: seq<T>)
    ensures a + b + c == a + (b + c)
  {
  }

  /** The membership view of a permutation. */
  lemma SameElements<T>(a: seq<T>, b: seq<T>)
    requires multiset(a) == multiset(b)
    ensures forall x :: x in a <==> x in b
  {
    forall x ensures x in a <==> x in b {
      assert x in a <==> x in multiset(a);
      assert x in b <==> x in multiset(b);
    }
  }

  /** `Array.prototype.slice(0, n)`. */
  function Take<T>(s: seq<T>, n: nat): (r: seq<T>)
    ensures |r| <= n && |r| <= |s|
    ensures |s| >= n ==> |r| == n
    ensures forall i :: 0 <= i < |r| ==> r[i] == s[i]
  {
    if |s| <= n then s else s[..n]
  }

  /** `Array.prototype.slice(from, to)` for non-negative bounds. */
  function Slice<T>(s: seq<T>, from: nat, to: nat): (r: seq<T>)
    ensures |r| <= |s|
    ensures from <= to <= |s| ==> r == s[from..to]
    ensures forall i :: 0 <= i < |r| ==> from + i < |s| && r[i] == s[from + i]
  {
    var hi := if to <= |s| then to else |s|;
    if from >= hi then [] else s[from..hi]
  }

  /** `k` is the first index of `s` whose element satisfies `p`. */
  predicate FirstMatch<T>(s: seq<T>, p: T -> bool, k: int)
  {
    0 <= k < |s| && p(s[k]) && forall j :: 0 <= j < k ==> !p(s[j])
  }

  /** `Array.prototype.find`: the first element satisfying `p`, if any. */
  function Find<T(==)>(s: seq<T>, p: T -> bool): (r: Option<T>)
    ensures r.None? <==> forall i :: 0 <= i < |s| ==> !p(s[i])
    ensures r.Some? ==> exists k :: FirstMatch(s, p, k) && s[k] == r.value
    decreases |s|
  {
    if |s| == 0 then None
    else if p(s[0]) then
      assert FirstMatch(s, p, 0);
      Some(s[0])
    else
      var r := Find(s[1..], p);
      if r.Some? then
        var k :| FirstMatch(s[1..], p, k) && s[1..][k] == r.value;
        assert FirstMatch(s, p, k + 1);
        r
      else
        assert forall i :: 1 <= i < |s| ==> s[1..][i - 1] == s[i];
        r
  }

  /** At most one index is the first match. */
  lemma FirstMatchUnique<T>(s: seq<T>, p: T -> bool, k: int, k': int)
    requires FirstMatch(s, p, k) && FirstMatch(s, p, k')
    ensures k == k'
  {
  }

  /** `a` can be obtained from `b` by deleting elements. */
  predicate Subsequence<T(==)>(a: seq<T>, b: seq<T>)
    decreases |b|
  {
    if |a| == 0 then true
    else if |b| == 0 then false
    else if a[|a| - 1] == b[|b| - 1] then Subsequence(a[..|a| - 1], b[..|b| - 1])
    else Subsequence(a, b[..|b| - 1])
  }

  /** The filter keeps exactly the elements that satisfy the predicate. */
  lemma FilterExact<T>(s: seq<T>, p: T -> bool)
    ensures forall x :: x in Filter(s, p) <==> x in s && p(x)
  {
    forall x | x in s && p(x) ensures x in Filter(s, p) {
      FilterKeeps(s, p, x);
    }
  }

  /** The filter keeps the order of what it keeps. */
  lemma {:induction false} FilterSubsequence<T>(s: seq<T>, p: T -> bool)
    ensures Subsequence(Filter(s, p), s)
    decreases |s|
  {
    if |s| > 0 {
      var init := s[..|s| - 1];
      FilterSubsequence(init, p);
      if p(s[|s| - 1]) {
        var f := Filter(init, p) + [s[|s| - 1]];
        assert f[..|f| - 1] == Filter(init, p);
      } else {
        SubsequenceOfLonger(Filter(init, p), init, s[|s| - 1]);
      }
    }
  }

  /** A subsequence stays one when the sequence grows at the end. */
  lemma {:induction false} SubsequenceOfLonger<T>(a: seq<T>, b: seq<T>, x: T)
    requires Subsequence(a, b)
    ensures Subsequence(a, b + [x])
    decreases |b|, 1
  {
    if |a| > 0 {
      assert (b + [x])[..|b|] == b;
      if a[|a| - 1] == x {
        SubsequenceDropLast(a, b);
      }
    }
  }

  /** Dropping the last element of a subsequence keeps it one. */
  lemma {:induction false} SubsequenceDropLast<T>(a: seq<T>, b: seq<T>)
    requires |a| > 0 && Subsequence(a, b)
    ensures Subsequence(a[..|a| - 1], b)
    decreases |b|, 0
  {
    var a' := a[..|a| - 1];
    var b' := b[..|b| - 1];
    if a[|a| - 1] == b[|b| - 1] {
      if |a'| > 0 {
        SubsequenceDropLast(a', b');
        SubsequenceOfLonger(a'[..|a'| - 1], b', b[|b| - 1]);
        assert b' + [b[|b| - 1]] == b;
        if a'[|a'| - 1] == b[|b| - 1] {
        } else {
          SubsequenceOfLonger(a', b', b[|b| - 1]);
        }
      }
    } else {
      SubsequenceDropLast(a, b');
      SubsequenceOfLonger(a', b', b[|b| - 1]);
      assert b' + [b[|b| - 1]] == b;
    }
  }

  /** Two positions of a permutation come from two different positions of the original. */
  lemma DistinctPositions<T>(u: seq<T>, r: seq<T>, i: int, j: int) returns (a: int, b: int)
    requires multiset(u) == multiset(r)
    requires 0 <= i < j < |r|
    ensures 0 <= a < |u| && 0 <= b < |u| && a != b
    ensures u[a] == r[i] && u[b] == r[j]
  {
    var r' := RemoveAt(r, i);
    assert r[i] in multiset(u);
    a :| 0 <= a < |u| && u[a] == r[i];
    var u' := RemoveAt(u, a);
    assert multiset(u') == multiset(r');
    assert r'[j - 1] == r[j];
    assert r[j] in multiset(u');
    var b' :| 0 <= b' < |u'| && u'[b'] == r[j];
    b := if b' < a then b' else b' + 1;
  }

  /** The sequence without its element at `i`. */
  function RemoveAt<T>(s: seq<T>, i: int): (r: seq<T>)
    requires 0 <= i < |s|
    ensures |r| == |s| - 1
    ensures forall k :: 0 <= k < |r| ==> r[k] == if k < i then s[k] else s[k + 1]
    ensures multiset(r) == multiset(s) - multiset{s[i]}
  {
    assert s == s[..i] + [s[i]] + s[i + 1..];
    s[..i] + s[i + 1..]
  }
}
