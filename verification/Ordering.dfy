/** The order the source sorts by, a sort, and the fact that its result depends
    only on which elements are sorted, not on the order they arrive in. */
module Ordering {

  /** Python compares text by code points, left to right. */
  predicate TextLess(a: string, b: string)
    decreases |a|
  {
    b != [] && (a == [] || a[0] < b[0] || (a[0] == b[0] && TextLess(a[1..], b[1..])))
  }

  /** The (time, id) pairs and the plain numbers the source sorts by. */
  datatype Key = Key(number: int, id: string)

  predicate Less(a: Key, b: Key) {
    a.number < b.number || (a.number == b.number && TextLess(a.id, b.id))
  }

  /** The first difference decides, and a proper prefix comes first. */
  ghost predicate DiffersAt(a: string, b: string, n: nat) {
    n <= |a| && n < |b| && a[..n] == b[..n] && (n == |a| || a[n] < b[n])
  }

  lemma {:induction false} TextLessMeans(a: string, b: string)
    ensures TextLess(a, b) <==> exists n: nat :: DiffersAt(a, b, n)
    decreases |a|
  {
    if a != [] && b != [] && a[0] == b[0] {
      TextLessMeans(a[1..], b[1..]);
      if n: nat :| DiffersAt(a[1..], b[1..], n) {
        assert a[..n + 1] == [a[0]] + a[1..][..n] && b[..n + 1] == [b[0]] + b[1..][..n];
        assert DiffersAt(a, b, n + 1);
      }
      if n: nat :| DiffersAt(a, b, n) {
        assert n > 0 && a[1..][..n - 1] == a[..n][1..] && b[1..][..n - 1] == b[..n][1..];
        assert DiffersAt(a[1..], b[1..], n - 1);
      }
    } else if a == [] || b == [] || a[0] < b[0] {
      assert b != [] ==> DiffersAt(a, b, 0);
    } else {
      forall n: nat | n > 0 && n <= |a| && n <= |b| ensures a[..n] != b[..n] {
        assert a[..n][0] != b[..n][0];
      }
    }
  }

  lemma {:induction false} TextTotal(a: string, b: string)
    ensures TextLess(a, b) || a == b || TextLess(b, a)
    ensures !(TextLess(a, b) && TextLess(b, a))
    decreases |a|
  {
    if a != [] && b != [] && a[0] == b[0] {
      TextTotal(a[1..], b[1..]);
      assert a == [a[0]] + a[1..] && b == [b[0]] + b[1..];
    }
  }

  lemma {:induction false} TextTransitive(a: string, b: string, c: string)
    requires TextLess(a, b) && TextLess(b, c)
    ensures TextLess(a, c)
    decreases |a|
  {
    if a != [] && b != [] && a[0] == b[0] == c[0] {
      TextTransitive(a[1..], b[1..], c[1..]);
    }
  }

  lemma Total(a: Key, b: Key)
    ensures Less(a, b) || a == b || Less(b, a)
    ensures !(Less(a, b) && Less(b, a))
  {
    TextTotal(a.id, b.id);
  }

  /** Not-greater composes: the form every sorted sequence is stated in. */
  lemma NotLessTransitive(a: Key, b: Key, c: Key)
    requires !Less(b, a) && !Less(c, b)
    ensures !Less(c, a)
  {
    if Less(c, a) {
      TextTotal(a.id, b.id);
      TextTotal(b.id, c.id);
      TextTotal(a.id, c.id);
      if a.number == b.number == c.number && a.id != b.id && b.id != c.id {
        TextTransitive(a.id, b.id, c.id);
      }
    }
  }

  // --------------------------------------------------------------- sorting

  ghost predicate SortedBy<T>(s: seq<T>, key: T -> Key) {
    forall i, j :: 0 <= i < j < |s| ==> !Less(key(s[j]), key(s[i]))
  }

  function Insert<T>(x: T, s: seq<T>, key: T -> Key): seq<T> {
    if s == [] || !Less(key(s[0]), key(x)) then [x] + s else [s[0]] + Insert(x, s[1..], key)
  }

  function SortBy<T>(s: seq<T>, key: T -> Key): seq<T> {
    if s == [] then [] else Insert(s[0], SortBy(s[1..], key), key)
  }

  lemma {:induction false} InsertKeeps<T>(x: T, s: seq<T>, key: T -> Key)
    requires SortedBy(s, key)
    ensures SortedBy(Insert(x, s, key), key)
    ensures multiset(Insert(x, s, key)) == multiset{x} + multiset(s)
  {
    if s == [] {
    } else if !Less(key(s[0]), key(x)) {
      forall j | 0 <= j < |s|
        ensures !Less(key(s[j]), key(x))
      {
        if j > 0 { NotLessTransitive(key(x), key(s[0]), key(s[j])); }
      }
    } else {
      InsertKeeps(x, s[1..], key);
      var rest := Insert(x, s[1..], key);
      assert s == [s[0]] + s[1..];
      forall j | 0 <= j < |rest|
        ensures !Less(key(rest[j]), key(s[0]))
      {
        assert rest[j] in multiset(rest);
        if rest[j] != x {
          assert rest[j] in s[1..];
        } else {
          Total(key(s[0]), key(x));
        }
      }
    }
  }

  lemma {:induction false} SortBySorts<T>(s: seq<T>, key: T -> Key)
    ensures SortedBy(SortBy(s, key), key)
    ensures multiset(SortBy(s, key)) == multiset(s)
    ensures |SortBy(s, key)| == |s|
  {
    if s != [] {
      SortBySorts(s[1..], key);
      InsertKeeps(s[0], SortBy(s[1..], key), key);
      assert s == [s[0]] + s[1..];
    }
    assert |SortBy(s, key)| == |multiset(SortBy(s, key))| == |multiset(s)| == |s|;
  }

  /** Elements with different values have different keys. */
  ghost predicate KeysDiffer<T>(s: seq<T>, key: T -> Key) {
    forall x, y :: x in s && y in s && key(x) == key(y) ==> x == y
  }

  lemma LeastComesFirst<T>(a: seq<T>, x: T, key: T -> Key)
    requires SortedBy(a, key) && x in a
    ensures !Less(key(x), key(a[0]))
  {
    Total(key(x), key(x));
  }

  lemma TailOf<T>(a: seq<T>)
    requires a != []
    ensures multiset(a[1..]) == multiset(a) - multiset{a[0]}
  {
    assert a == [a[0]] + a[1..];
  }

  lemma FirstsAgree<T>(a: seq<T>, b: seq<T>, key: T -> Key)
    requires SortedBy(a, key) && SortedBy(b, key) && multiset(a) == multiset(b) && KeysDiffer(a, key) && a != [] && b != []
    ensures a[0] == b[0]
  {
    hide Less, SortedBy;
    assert a[0] in multiset(b) && b[0] in multiset(a);
    LeastComesFirst(a, b[0], key);
    LeastComesFirst(b, a[0], key);
    Total(key(a[0]), key(b[0]));
  }

  lemma {:induction false} SortedIsUnique<T>(a: seq<T>, b: seq<T>, key: T -> Key)
    requires SortedBy(a, key) && SortedBy(b, key) && multiset(a) == multiset(b) && KeysDiffer(a, key)
    ensures a == b
  {
    hide Less;
    assert |a| == |multiset(a)| == |multiset(b)| == |b|;
    if a != [] {
      FirstsAgree(a, b, key);
      TailOf(a);
      TailOf(b);
      SortedIsUnique(a[1..], b[1..], key);
      assert a == [a[0]] + a[1..] && b == [b[0]] + b[1..];
    }
  }

  /** Sorting forgets the order of arrival. */
  lemma SortIgnoresOrder<T>(a: seq<T>, b: seq<T>, key: T -> Key)
    requires multiset(a) == multiset(b) && KeysDiffer(a, key)
    ensures SortBy(a, key) == SortBy(b, key)
  {
    SortBySorts(a, key);
    SortBySorts(b, key);
    forall x | x in SortBy(a, key)
      ensures x in a
    {
      assert x in multiset(SortBy(a, key));
    }
    SortedIsUnique(SortBy(a, key), SortBy(b, key), key);
  }

  // ------------------------------------------------------- without repeats

  ghost predicate Distinct<T>(s: seq<T>) {
    forall i, j | 0 <= i < j < |s| :: s[i] != s[j]
  }

  lemma {:induction false} DistinctCounts<T>(s: seq<T>, x: T)
    requires Distinct(s)
    ensures multiset(s)[x] <= 1
  {
    if s != [] {
      var n := |s| - 1;
      assert s == s[..n] + [s[n]];
      DistinctCounts(s[..n], x);
      assert s[n] !in s[..n];
    }
  }

  lemma TwiceCounts<T>(t: seq<T>, i: nat, j: nat)
    requires i < j < |t| && t[i] == t[j]
    ensures multiset(t)[t[i]] >= 2
  {
    assert t == t[..i] + [t[i]] + t[i + 1..j] + [t[j]] + t[j + 1..];
  }

  lemma ReorderedStaysDistinct<T>(s: seq<T>, t: seq<T>)
    requires Distinct(s) && multiset(s) == multiset(t)
    ensures Distinct(t)
  {
    forall i, j | 0 <= i < j < |t| ensures t[i] != t[j] {
      if t[i] == t[j] {
        TwiceCounts(t, i, j);
        DistinctCounts(s, t[i]);
      }
    }
  }

  lemma ReorderedHasTheSame<T>(s: seq<T>, t: seq<T>)
    requires multiset(s) == multiset(t)
    ensures forall x :: x in s <==> x in t
  {
    assert forall x :: x in s <==> x in multiset(s);
    assert forall x :: x in t <==> x in multiset(t);
  }
}
