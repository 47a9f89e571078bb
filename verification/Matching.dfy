/** Matchings between buyer and seller limits, and the greedy count of
    arena_game/liquidity.py with its proof of optimality. */
module Matching {
  import opened Ordering

  /** Index pairs: a buyer and the seller it trades with. */
  type Pairs = seq<(nat, nat)>

  /** No buyer and no seller trades twice. */
  ghost predicate Apart(p: Pairs) {
    forall j, k :: 0 <= j < k < |p| ==> p[j].0 != p[k].0 && p[j].1 != p[k].1
  }

  ghost predicate IsMatching(p: Pairs, buyers: seq<int>, sellers: seq<int>) {
    && Apart(p)
    && (forall k :: 0 <= k < |p| ==>
          p[k].0 < |buyers| && p[k].1 < |sellers| && buyers[p[k].0] >= sellers[p[k].1])
  }

  /** n is the size of a largest matching. */
  ghost predicate MaximumMatching(n: nat, buyers: seq<int>, sellers: seq<int>) {
    && (exists p: Pairs :: IsMatching(p, buyers, sellers) && |p| == n)
    && (forall p: Pairs :: IsMatching(p, buyers, sellers) ==> |p| <= n)
  }

  /** A set of buyers and a set of sellers that touch every pair bound the number of pairs. */
  lemma {:induction false} CoverBounds(p: Pairs, us: set<nat>, vs: set<nat>)
    requires Apart(p) && forall k :: 0 <= k < |p| ==> p[k].0 in us || p[k].1 in vs
    ensures |p| <= |us| + |vs|
    decreases |p|
  {
    if p != [] {
      var last := p[|p| - 1];
      var rest := p[..|p| - 1];
      if last.0 in us {
        forall k | 0 <= k < |rest|
          ensures rest[k].0 in us - {last.0} || rest[k].1 in vs
        {
          assert rest[k] == p[k];
        }
        CoverBounds(rest, us - {last.0}, vs);
      } else {
        forall k | 0 <= k < |rest|
          ensures rest[k].0 in us || rest[k].1 in vs - {last.1}
        {
          assert rest[k] == p[k];
        }
        CoverBounds(rest, us, vs - {last.1});
      }
    }
  }

  ghost function Range(lo: nat, hi: nat): (r: set<nat>)
    requires lo <= hi
    ensures forall x :: x in r <==> lo <= x < hi
    ensures |r| == hi - lo
    decreases hi - lo
  {
    if lo == hi then {} else Range(lo, hi - 1) + {hi - 1}
  }

  // -------------------------------------------------- permuting the inputs

  /** b[i] is a[at[i]], each element of a taken once. */
  ghost predicate Rearranges<T(!new)>(a: seq<T>, b: seq<T>, at: seq<nat>) {
    && |at| == |b| == |a|
    && (forall i :: 0 <= i < |at| ==> at[i] < |a| && b[i] == a[at[i]])
    && (forall i, j :: 0 <= i < j < |at| ==> at[i] != at[j])
  }

  lemma WithoutOne<T>(a: seq<T>, j: nat)
    requires j < |a|
    ensures multiset(a[..j] + a[j + 1..]) == multiset(a) - multiset{a[j]}
  {
    assert a == a[..j] + [a[j]] + a[j + 1..];
  }

  /** Skip index j when counting through a sequence with that element removed. */
  function Shifted(j: nat, i: nat): nat {
    if i < j then i else i + 1
  }

  lemma {:induction false} Rearrangement<T(!new)>(a: seq<T>, b: seq<T>) returns (at: seq<nat>)
    requires multiset(a) == multiset(b)
    ensures Rearranges(a, b, at)
    decreases |b|
  {
    assert |a| == |multiset(a)| == |multiset(b)| == |b|;
    if b == [] {
      at := [];
    } else {
      var n := |b| - 1;
      assert b[n] in multiset(a);
      var j :| 0 <= j < |a| && a[j] == b[n];
      WithoutOne(a, j);
      WithoutOne(b, n);
      assert b[..n] + b[n + 1..] == b[..n];
      var inner := Rearrangement(a[..j] + a[j + 1..], b[..n]);
      at := PutBack(a, b, j, inner);
    }
  }

  lemma PutBack<T(!new)>(a: seq<T>, b: seq<T>, j: nat, inner: seq<nat>) returns (at: seq<nat>)
    requires |b| == |a| > j && a[j] == b[|b| - 1]
    requires Rearranges(a[..j] + a[j + 1..], b[..|b| - 1], inner)
    ensures Rearranges(a, b, at)
  {
    var n := |b| - 1;
    at := seq(n, i requires 0 <= i < n => Shifted(j, inner[i])) + [j];
    forall i | 0 <= i < n
      ensures b[i] == a[at[i]]
    {
      assert b[..n][i] == (a[..j] + a[j + 1..])[inner[i]];
    }
  }

  /** A matching of rearranged limits is a matching of the limits as they came. */
  lemma MatchingSurvivesReordering(p: Pairs, buyers: seq<int>, sellers: seq<int>,
                                   buyers': seq<int>, sellers': seq<int>) returns (q: Pairs)
    requires multiset(buyers) == multiset(buyers') && multiset(sellers) == multiset(sellers')
    requires IsMatching(p, buyers, sellers)
    ensures IsMatching(q, buyers', sellers') && |q| == |p|
  {
    var bs := Rearrangement(buyers', buyers);
    var ss := Rearrangement(sellers', sellers);
    q := seq(|p|, k requires 0 <= k < |p| => (bs[p[k].0], ss[p[k].1]));
  }

  lemma MaximumSurvivesReordering(n: nat, buyers: seq<int>, sellers: seq<int>,
                                  buyers': seq<int>, sellers': seq<int>)
    requires multiset(buyers) == multiset(buyers') && multiset(sellers) == multiset(sellers')
    requires MaximumMatching(n, buyers, sellers)
    ensures MaximumMatching(n, buyers', sellers')
  {
    var p: Pairs :| IsMatching(p, buyers, sellers) && |p| == n;
    var q := MatchingSurvivesReordering(p, buyers, sellers, buyers', sellers');
    forall p': Pairs | IsMatching(p', buyers', sellers')
      ensures |p'| <= n
    {
      var q' := MatchingSurvivesReordering(p', buyers', sellers', buyers, sellers);
    }
  }

  // ----------------------------------------------------------- the greedy

  function Number(x: int): Key {
    Key(x, "")
  }

  lemma SortedNumbers(s: seq<int>)
    requires SortedBy(s, Number)
    ensures forall i, j :: 0 <= i <= j < |s| ==> s[i] <= s[j]
  {
    forall i, j | 0 <= i < j < |s|
      ensures s[i] <= s[j]
    {
      assert !Less(Number(s[j]), Number(s[i]));
    }
  }

  /** Buyers below bs and sellers from ss on cannot trade, so bs and ss cut off every pair. */
  ghost predicate Cuts(buyers: seq<int>, sellers: seq<int>, bs: nat, ss: nat) {
    forall x, y :: 0 <= x < bs && x < |buyers| && ss <= y < |sellers| ==> buyers[x] < sellers[y]
  }

  lemma CutBounds(p: Pairs, buyers: seq<int>, sellers: seq<int>, bs: nat, ss: nat)
    requires IsMatching(p, buyers, sellers) && bs <= |buyers| && Cuts(buyers, sellers, bs, ss)
    ensures |p| <= |buyers| - bs + ss
  {
    CoverBounds(p, Range(bs, |buyers|), Range(0, ss));
  }

  /** The two-pointer walk over sorted limits. */
  method GreedyCount(buyers: seq<int>, sellers: seq<int>) returns (matches: nat)
    requires forall i, j :: 0 <= i <= j < |buyers| ==> buyers[i] <= buyers[j]
    requires forall i, j :: 0 <= i <= j < |sellers| ==> sellers[i] <= sellers[j]
    ensures MaximumMatching(matches, buyers, sellers)
    ensures matches <= |buyers| && matches <= |sellers|
  {
    var sellerIndex := 0;
    matches := 0;
    ghost var pairs: Pairs := [];
    ghost var bs, ss := 0, 0;
    for i := 0 to |buyers|
      invariant sellerIndex == matches <= i && matches <= |sellers|
      invariant IsMatching(pairs, buyers, sellers) && |pairs| == matches
      invariant forall k :: 0 <= k < |pairs| ==> pairs[k].0 < i && pairs[k].1 < matches
      invariant bs <= i && i - bs + ss == matches && Cuts(buyers, sellers, bs, ss)
    {
      if sellerIndex < |sellers| && buyers[i] >= sellers[sellerIndex] {
        pairs := pairs + [(i, sellerIndex)];
        matches := matches + 1;
        sellerIndex := sellerIndex + 1;
      } else {
        bs, ss := i + 1, matches;
      }
    }
    forall p: Pairs | IsMatching(p, buyers, sellers)
      ensures |p| <= matches
    {
      CutBounds(p, buyers, sellers, bs, ss);
    }
  }

  /** The count is the size of a largest matching, whatever order the limits arrive in. */
  method CompatibleCapacity(buyerLimits: seq<int>, sellerLimits: seq<int>) returns (matches: nat)
    ensures MaximumMatching(matches, buyerLimits, sellerLimits)
    ensures matches <= |buyerLimits| && matches <= |sellerLimits|
  {
    hide MaximumMatching;
    var buyers := SortBy(buyerLimits, Number);
    var sellers := SortBy(sellerLimits, Number);
    SortBySorts(buyerLimits, Number);
    SortBySorts(sellerLimits, Number);
    SortedNumbers(buyers);
    SortedNumbers(sellers);
    matches := GreedyCount(buyers, sellers);
    MaximumSurvivesReordering(matches, buyers, sellers, buyerLimits, sellerLimits);
  }
}
