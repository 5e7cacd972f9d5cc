/** The ordering the generator sorts by.

    Go compares strings byte by byte over their UTF-8 encoding, and UTF-8 is
    built so that this agrees with comparing code points one by one. Strings
    here are sequences of code points, so Go's `<` on strings is the strict
    part of the lexicographic order `Below` below.

    `sort.Strings` and `sort.Slice` are stood in for by one insertion sort,
    `SortBy`, proved to return a sorted permutation of its input. */
module Order {

  /** `a` sorts before `b` or equals it (Go's `a <= b` on strings). */
  predicate Below(a: string, b: string)
  {
    |a| == 0 || (|b| > 0 && (a[0] < b[0] || (a[0] == b[0] && Below(a[1..], b[1..]))))
  }

  lemma {:induction false} BelowReflexive(a: string)
    ensures Below(a, a)
  {
    if |a| > 0 {
      BelowReflexive(a[1..]);
    }
  }

  lemma {:induction false} BelowTotal(a: string, b: string)
    ensures Below(a, b) || Below(b, a)
  {
    if |a| > 0 && |b| > 0 && a[0] == b[0] {
      BelowTotal(a[1..], b[1..]);
    }
  }

  lemma {:induction false} BelowTransitive(a: string, b: string, c: string)
    requires Below(a, b) && Below(b, c)
    ensures Below(a, c)
  {
    if |a| > 0 && a[0] == b[0] && b[0] == c[0] {
      BelowTransitive(a[1..], b[1..], c[1..]);
    }
  }

  lemma {:induction false} BelowAntisymmetric(a: string, b: string)
    requires Below(a, b) && Below(b, a)
    ensures a == b
  {
    if |a| > 0 {
      BelowAntisymmetric(a[1..], b[1..]);
      assert a == [a[0]] + a[1..];
      assert b == [b[0]] + b[1..];
    }
  }

  /** The identity, as the sort key of a list of strings. */
  function Id(s: string): string
  {
    s
  }

  /** `s` is in non-decreasing order of `key`. */
  ghost predicate SortedBy<T>(s: seq<T>, key: T -> string)
  {
    forall i, j :: 0 <= i < j < |s| ==> Below(key(s[i]), key(s[j]))
  }

  /** Places `x` before the first element whose key is not below `x`'s. */
  function Insert<T>(x: T, s: seq<T>, key: T -> string): (r: seq<T>)
    ensures multiset(r) == multiset(s) + multiset{x}
  {
    if s == [] || Below(key(x), key(s[0])) then [x] + s
    else
      assert s == [s[0]] + s[1..];
      [s[0]] + Insert(x, s[1..], key)
  }

  lemma {:induction false} InsertSorted<T>(x: T, s: seq<T>, key: T -> string)
    requires SortedBy(s, key)
    ensures SortedBy(Insert(x, s, key), key)
  {
    if s == [] {
    } else if Below(key(x), key(s[0])) {
      forall j | 0 < j < |s|
        ensures Below(key(x), key(s[j]))
      {
        BelowTransitive(key(x), key(s[0]), key(s[j]));
      }
    } else {
      var t := Insert(x, s[1..], key);
      InsertSorted(x, s[1..], key);
      BelowTotal(key(x), key(s[0]));
      forall k | 0 <= k < |t|
        ensures Below(key(s[0]), key(t[k]))
      {
        assert t[k] in multiset(t);
        if t[k] != x {
          assert t[k] in multiset(s[1..]);
          var m :| 0 <= m < |s[1..]| && s[1..][m] == t[k];
          assert s[m + 1] == t[k];
        }
      }
      var r := [s[0]] + t;
      forall i, j | 0 <= i < j < |r|
        ensures Below(key(r[i]), key(r[j]))
      {
        if i > 0 {
          assert r[i] == t[i - 1] && r[j] == t[j - 1];
        } else {
          assert r[j] == t[j - 1];
        }
      }
    }
  }

  /** Insertion sort by `key`: a sorted permutation of `s`. */
  function SortBy<T>(s: seq<T>, key: T -> string): (r: seq<T>)
    ensures multiset(r) == multiset(s)
    ensures SortedBy(r, key)
  {
    if s == [] then []
    else
      assert s == [s[0]] + s[1..];
      var rest := SortBy(s[1..], key);
      InsertSorted(s[0], rest, key);
      Insert(s[0], rest, key)
  }

  /** Two sorted lists of strings with the same elements start alike. */
  lemma SortedHeadsAgree(a: seq<string>, b: seq<string>)
    requires SortedBy(a, Id) && SortedBy(b, Id)
    requires multiset(a) == multiset(b) && a != []
    ensures b != [] && a[0] == b[0]
  {
    assert a[0] in multiset(b);
    assert b[0] in multiset(a);
    var i :| 0 <= i < |a| && a[i] == b[0];
    var j :| 0 <= j < |b| && b[j] == a[0];
    if i > 0 { assert Below(Id(a[0]), Id(a[i])); } else { BelowReflexive(a[0]); }
    if j > 0 { assert Below(Id(b[0]), Id(b[j])); } else { BelowReflexive(b[0]); }
    BelowAntisymmetric(a[0], b[0]);
  }

  /** Dropping the first element keeps a list sorted and removes that
      element once from its multiset. */
  lemma SortedTail<T>(s: seq<T>, key: T -> string)
    requires SortedBy(s, key) && s != []
    ensures SortedBy(s[1..], key)
    ensures multiset(s[1..]) == multiset(s) - multiset{s[0]}
  {
    assert s == [s[0]] + s[1..];
    forall i, j | 0 <= i < j < |s| - 1
      ensures Below(key(s[1..][i]), key(s[1..][j]))
    {
      assert s[1..][i] == s[i + 1] && s[1..][j] == s[j + 1];
    }
  }

  lemma SameHeadSameTail<T>(a: seq<T>, b: seq<T>)
    requires a != [] && b != [] && a[0] == b[0] && a[1..] == b[1..]
    ensures a == b
  {
    assert a == [a[0]] + a[1..];
    assert b == [b[0]] + b[1..];
  }

  /** A list of strings has only one sorted arrangement, so sorting strings
      loses nothing by the choice of algorithm: any sorted permutation of the
      input, such as the one `sort.Strings` produces, is `SortBy(s, Id)`. */
  lemma {:induction false} SortedStringsUnique(a: seq<string>, b: seq<string>)
    requires SortedBy(a, Id) && SortedBy(b, Id)
    requires multiset(a) == multiset(b)
    ensures a == b
  {
    if a != [] {
      SortedHeadsAgree(a, b);
      SortedTail(a, Id);
      SortedTail(b, Id);
      SortedStringsUnique(a[1..], b[1..]);
      SameHeadSameTail(a, b);
    }
  }
}
