/** Byte-wise string order and sorting by a string key. */
module Sorting {

  predicate Less(a: string, b: string) {
    if b == [] then false
    else if a == [] then true
    else if a[0] != b[0] then a[0] < b[0]
    else Less(a[1..], b[1..])
  }

  lemma {:induction false} LessIrreflexive(a: string)
    ensures !Less(a, a)
  {
    if a != [] { LessIrreflexive(a[1..]); }
  }

  lemma {:induction false} LessTransitive(a: string, b: string, c: string)
    requires Less(a, b) && Less(b, c)
    ensures Less(a, c)
  {
    if a != [] && a[0] == b[0] == c[0] { LessTransitive(a[1..], b[1..], c[1..]); }
  }

  lemma {:induction false} LessTotal(a: string, b: string)
    ensures a == b || Less(a, b) || Less(b, a)
  {
    if a != [] && b != [] && a[0] == b[0] {
      LessTotal(a[1..], b[1..]);
      assert a == [a[0]] + a[1..] && b == [b[0]] + b[1..];
    }
  }

  /** The order is that of the first difference, and a proper prefix comes first. */
  lemma {:induction false} LessExactly(a: string, b: string)
    ensures Less(a, b) <==> (a < b || exists k :: DifferAt(a, b, k) && a[k] < b[k])
  {
    if a != [] && b != [] && a[0] == b[0] {
      LessExactly(a[1..], b[1..]);
      assert a == [a[0]] + a[1..] && b == [b[0]] + b[1..];
      assert a < b <==> a[1..] < b[1..];
      if k :| DifferAt(a[1..], b[1..], k) && a[1..][k] < b[1..][k] {
        assert forall j :: 0 < j < k + 1 ==> a[j] == a[1..][j - 1] && b[j] == b[1..][j - 1];
        assert DifferAt(a, b, k + 1);
      }
      if k :| DifferAt(a, b, k) && a[k] < b[k] {
        assert DifferAt(a[1..], b[1..], k - 1);
      }
    } else if a != [] && b != [] {
      assert DifferAt(a, b, 0);
    }
  }

  /** Position `k` is the first at which the strings differ. */
  predicate DifferAt(a: string, b: string, k: int) {
    0 <= k < |a| && k < |b| && a[k] != b[k] && forall j :: 0 <= j < k ==> a[j] == b[j]
  }

  /** The key of a string that is sorted by itself. */
  function Itself(s: string): string { s }

  predicate Distinct<T>(key: T -> string, xs: seq<T>) {
    forall i, j :: 0 <= i < j < |xs| ==> key(xs[i]) != key(xs[j])
  }

  predicate Strict<T>(key: T -> string, xs: seq<T>) {
    forall i, j :: 0 <= i < j < |xs| ==> Less(key(xs[i]), key(xs[j]))
  }

  function Insert<T>(key: T -> string, x: T, xs: seq<T>): seq<T> {
    if xs == [] then [x]
    else if Less(key(x), key(xs[0])) then [x] + xs
    else [xs[0]] + Insert(key, x, xs[1..])
  }

  /** The stable sort of `xs` by `key`. */
  function Sort<T>(key: T -> string, xs: seq<T>): seq<T> {
    if xs == [] then [] else Insert(key, xs[|xs| - 1], Sort(key, xs[..|xs| - 1]))
  }

  lemma {:induction false} InsertMembers<T>(key: T -> string, x: T, xs: seq<T>)
    ensures multiset(Insert(key, x, xs)) == multiset(xs) + multiset{x}
    ensures |Insert(key, x, xs)| == |xs| + 1
    ensures forall y :: y in Insert(key, x, xs) <==> y == x || y in xs
  {
    if xs != [] {
      assert xs == [xs[0]] + xs[1..];
      InsertMembers(key, x, xs[1..]);
    }
    assert forall y :: y in Insert(key, x, xs) <==> y in multiset(Insert(key, x, xs));
  }

  lemma {:induction false} InsertStrict<T>(key: T -> string, x: T, xs: seq<T>)
    requires Strict(key, xs) && forall y :: y in xs ==> key(y) != key(x)
    ensures Strict(key, Insert(key, x, xs))
  {
    if xs != [] {
      if Less(key(x), key(xs[0])) {
        forall i | 1 <= i < |xs| ensures Less(key(x), key(xs[i])) { LessTransitive(key(x), key(xs[0]), key(xs[i])); }
      } else {
        LessTotal(key(x), key(xs[0]));
        InsertStrict(key, x, xs[1..]);
        InsertMembers(key, x, xs[1..]);
        var rest := Insert(key, x, xs[1..]);
        forall i | 0 <= i < |rest| ensures Less(key(xs[0]), key(rest[i])) {
          assert rest[i] in rest;
          if rest[i] != x {
            assert rest[i] in multiset(rest);
            assert rest[i] in multiset(xs[1..]);
            var j :| 0 <= j < |xs[1..]| && xs[1..][j] == rest[i];
            assert xs[j + 1] == rest[i];
          }
        }
      }
    }
  }

  /** Sorting permutes. */
  lemma {:induction false} SortMembers<T>(key: T -> string, xs: seq<T>)
    ensures multiset(Sort(key, xs)) == multiset(xs) && |Sort(key, xs)| == |xs|
    ensures forall y :: y in Sort(key, xs) <==> y in xs
  {
    if xs != [] {
      var n := |xs| - 1;
      assert xs == xs[..n] + [xs[n]];
      SortMembers(key, xs[..n]);
      InsertMembers(key, xs[n], Sort(key, xs[..n]));
    }
    assert forall y :: y in xs <==> y in multiset(xs);
  }

  lemma {:induction false} SortStrict<T>(key: T -> string, xs: seq<T>)
    requires Distinct(key, xs)
    ensures Strict(key, Sort(key, xs))
  {
    hide Less, Insert;
    if xs != [] {
      var n := |xs| - 1;
      SortStrict(key, xs[..n]);
      SortMembers(key, xs[..n]);
      forall y | y in Sort(key, xs[..n]) ensures key(y) != key(xs[n]) {
        assert y in multiset(Sort(key, xs[..n]));
        assert y in multiset(xs[..n]);
        var i :| 0 <= i < |xs[..n]| && xs[..n][i] == y;
      }
      InsertStrict(key, xs[n], Sort(key, xs[..n]));
    }
  }

  /** Strictly sorted sequences with the same members are the same sequence. */
  lemma {:induction false} StrictUnique<T>(key: T -> string, xs: seq<T>, ys: seq<T>)
    requires Strict(key, xs) && Strict(key, ys)
    requires forall y :: y in xs <==> y in ys
    ensures xs == ys
  {
    assert (xs != [] ==> xs[0] in xs) && (ys != [] ==> ys[0] in ys);
    if xs != [] {
      HeadsAgree(key, xs, ys);
      forall y ensures y in xs[1..] <==> y in ys[1..] { TailMembers(key, xs, y); TailMembers(key, ys, y); }
      StrictUnique(key, xs[1..], ys[1..]);
      assert xs == [xs[0]] + xs[1..] && ys == [ys[0]] + ys[1..];
    }
  }

  lemma HeadsAgree<T>(key: T -> string, xs: seq<T>, ys: seq<T>)
    requires Strict(key, xs) && Strict(key, ys) && xs != [] && ys != [] && xs[0] in ys && ys[0] in xs
    ensures xs[0] == ys[0]
  {
    var i :| 0 <= i < |ys| && ys[i] == xs[0];
    var j :| 0 <= j < |xs| && xs[j] == ys[0];
    if i > 0 && j > 0 {
      LessTransitive(key(xs[0]), key(ys[0]), key(xs[0]));
      LessIrreflexive(key(xs[0]));
      assert false;
    }
  }

  lemma TailMembers<T>(key: T -> string, xs: seq<T>, y: T)
    requires Strict(key, xs) && xs != []
    ensures y in xs[1..] <==> y in xs && y != xs[0]
  {
    if y in xs[1..] {
      var i :| 0 <= i < |xs| - 1 && xs[1..][i] == y;
      assert y == xs[i + 1];
      LessIrreflexive(key(y));
    }
    if y in xs && y != xs[0] {
      var i :| 0 <= i < |xs| && xs[i] == y;
      assert xs[1..][i - 1] == y;
    }
  }

  /** The sorted form depends on the members only. */
  lemma SortCanonical<T>(key: T -> string, xs: seq<T>, ys: seq<T>)
    requires Distinct(key, xs) && Distinct(key, ys)
    requires forall y :: y in xs <==> y in ys
    ensures Sort(key, xs) == Sort(key, ys)
  {
    SortStrict(key, xs);
    SortStrict(key, ys);
    SortMembers(key, xs);
    SortMembers(key, ys);
    StrictUnique(key, Sort(key, xs), Sort(key, ys));
  }

  // ---------- permutations and distinct keys ----------

  lemma {:induction false} TwiceInMultiset<T>(xs: seq<T>, i: nat, j: nat)
    requires i < j < |xs| && xs[i] == xs[j]
    ensures multiset(xs)[xs[i]] >= 2
  {
    assert xs == xs[..j] + [xs[j]] + xs[j + 1..];
    assert xs[i] in xs[..j];
  }

  lemma {:induction false} TwiceInSequence<T>(xs: seq<T>, x: T) returns (i: nat, j: nat)
    requires multiset(xs)[x] >= 2
    ensures i < j < |xs| && xs[i] == xs[j] == x
  {
    var n := |xs| - 1;
    assert xs == xs[..n] + [xs[n]];
    if xs[n] == x {
      j := n;
      assert x in multiset(xs[..n]);
      i :| i < n && xs[..n][i] == x;
    } else {
      i, j := TwiceInSequence(xs[..n], x);
    }
  }

  /** A permutation neither creates nor removes repeated keys. */
  lemma DistinctUnderPermutation<T>(key: T -> string, xs: seq<T>, ys: seq<T>)
    requires multiset(xs) == multiset(ys) && Distinct(key, xs)
    ensures Distinct(key, ys)
  {
    forall i, j | 0 <= i < j < |ys| ensures key(ys[i]) != key(ys[j]) {
      if ys[i] == ys[j] {
        TwiceInMultiset(ys, i, j);
        var a, b := TwiceInSequence(xs, ys[i]);
      } else {
        assert ys[i] in multiset(xs) && ys[j] in multiset(xs);
        var a :| 0 <= a < |xs| && xs[a] == ys[i];
        var b :| 0 <= b < |xs| && xs[b] == ys[j];
      }
    }
  }
}
