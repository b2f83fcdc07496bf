/**
 * Sequence helpers for the reductions: occurrence counts, `Array.from(new
 * Set(xs))` (de-duplication in first-seen order), and the fact that the
 * per-key counts of a sequence add up to its length.
 */
module Seqs {

  /** How many times x occurs in s. */
  function Count<T(==)>(s: seq<T>, x: T): (n: nat)
    ensures n <= |s|
  {
    if s == [] then 0 else Count(s[..|s| - 1], x) + (if s[|s| - 1] == x then 1 else 0)
  }

  predicate NoDup<T(==)>(s: seq<T>)
  {
    forall i, j :: 0 <= i < j < |s| ==> s[i] != s[j]
  }

  /** `Array.from(new Set(s))`: the distinct elements in first-seen order. */
  function Dedup<T(==)>(s: seq<T>): seq<T>
  {
    if s == [] then []
    else
      var d := Dedup(s[..|s| - 1]);
      if s[|s| - 1] in d then d else d + [s[|s| - 1]]
  }

  lemma {:induction false} CountAbsent<T>(s: seq<T>, x: T)
    ensures x !in s <==> Count(s, x) == 0
  {
    if s != [] {
      CountAbsent(s[..|s| - 1], x);
      assert s == s[..|s| - 1] + [s[|s| - 1]];
    }
  }

  /** In a sequence without duplicates an element occurs at most once. */
  lemma {:induction false} CountNoDup<T>(s: seq<T>, x: T)
    requires NoDup(s)
    ensures Count(s, x) == if x in s then 1 else 0
  {
    if s != [] {
      var init := s[..|s| - 1];
      CountNoDup(init, x);
      assert s == init + [s[|s| - 1]];
      if s[|s| - 1] == x {
        assert x !in init;
      }
    }
  }

  /** The de-duplicated sequence has no duplicates and exactly the elements of
      the original. */
  lemma {:induction false} DedupSpec<T>(s: seq<T>)
    ensures NoDup(Dedup(s))
    ensures forall x :: x in Dedup(s) <==> x in s
  {
    if s != [] {
      var init := s[..|s| - 1];
      DedupSpec(init);
      assert s == init + [s[|s| - 1]];
    }
  }

  lemma DedupMember<T>(s: seq<T>, k: nat)
    requires k < |Dedup(s)|
    ensures Dedup(s)[k] in s
  {
    DedupSpec(s);
    assert Dedup(s)[k] in Dedup(s);
  }

  /** The index at which x first occurs in s. */
  function FirstIndex<T(==)>(s: seq<T>, x: T): (i: nat)
    requires x in s
    ensures i < |s| && s[i] == x && x !in s[..i]
  {
    if s[0] == x then 0 else 1 + FirstIndex(s[1..], x)
  }

  lemma {:induction false} FirstIndexPrefix<T>(s: seq<T>, t: seq<T>, x: T)
    requires x in s
    ensures FirstIndex(s + t, x) == FirstIndex(s, x)
  {
    if s[0] != x {
      assert (s + t)[1..] == s[1..] + t;
      FirstIndexPrefix(s[1..], t, x);
    }
  }

  /** First-seen order: earlier elements of the de-duplicated sequence occur
      earlier in the original. */
  lemma {:induction false} DedupOrder<T>(s: seq<T>, i: nat, j: nat)
    requires i < j < |Dedup(s)|
    ensures Dedup(s)[i] in s && Dedup(s)[j] in s
    ensures FirstIndex(s, Dedup(s)[i]) < FirstIndex(s, Dedup(s)[j])
    decreases |s|, 1
  {
    var init := s[..|s| - 1];
    assert s == init + [s[|s| - 1]];
    DedupOrderSnoc(init, s[|s| - 1], i, j);
  }

  lemma {:induction false} DedupOrderSnoc<T>(init: seq<T>, last: T, i: nat, j: nat)
    requires i < j < |Dedup(init + [last])|
    ensures Dedup(init + [last])[i] in init + [last] && Dedup(init + [last])[j] in init + [last]
    ensures FirstIndex(init + [last], Dedup(init + [last])[i]) < FirstIndex(init + [last], Dedup(init + [last])[j])
    decreases |init + [last]|, 0
  {
    var s := init + [last];
    assert s[..|s| - 1] == init;
    var d := Dedup(init);
    DedupSpec(init);
    DedupSpec(s);
    if j < |d| {
      DedupOrder(init, i, j);
      FirstIndexPrefix(init, [last], d[i]);
      FirstIndexPrefix(init, [last], d[j]);
    } else {
      assert Dedup(s) == d + [last];
      DedupMember(init, i);
      FirstIndexPrefix(init, [last], d[i]);
      assert FirstIndex(s, last) == |init| by {
        assert s[..|init|] == init;
      }
    }
  }

  /** The sum of the counts in s of the given keys. */
  function SumCounts<T(==)>(keys: seq<T>, s: seq<T>): nat
  {
    if keys == [] then 0 else Count(s, keys[0]) + SumCounts(keys[1..], s)
  }

  lemma {:induction false} SumCountsSnoc<T>(keys: seq<T>, s: seq<T>, x: T)
    ensures SumCounts(keys, s + [x]) == SumCounts(keys, s) + Count(keys, x)
  {
    if keys != [] {
      assert (s + [x])[..|s|] == s;
      SumCountsSnoc(keys[1..], s, x);
      CountCons(keys, x);
    }
  }

  lemma {:induction false} CountCons<T>(s: seq<T>, x: T)
    requires s != []
    ensures Count(s, x) == (if s[0] == x then 1 else 0) + Count(s[1..], x)
  {
    if |s| > 1 {
      var init := s[..|s| - 1];
      CountCons(init, x);
      assert init[1..] == s[1..][..|s| - 2];
    } else {
      assert s[1..] == [];
    }
  }

  /** When every element of s is one of the distinct keys, the keys' counts
      add up to the length of s. */
  lemma {:induction false} SumCountsTotal<T>(keys: seq<T>, s: seq<T>)
    requires NoDup(keys)
    requires forall x :: x in s ==> x in keys
    ensures SumCounts(keys, s) == |s|
  {
    if s == [] {
      SumCountsEmpty(keys);
    } else {
      var init := s[..|s| - 1];
      var last := s[|s| - 1];
      assert s == init + [last];
      SumCountsTotal(keys, init);
      SumCountsSnoc(keys, init, last);
      CountNoDup(keys, last);
    }
  }

  /** The counts of distinct keys add up to at most the length of s. */
  lemma {:induction false} SumCountsBound<T>(keys: seq<T>, s: seq<T>)
    requires NoDup(keys)
    ensures SumCounts(keys, s) <= |s|
  {
    if s == [] {
      SumCountsEmpty(keys);
    } else {
      var init := s[..|s| - 1];
      var last := s[|s| - 1];
      assert s == init + [last];
      SumCountsBound(keys, init);
      SumCountsSnoc(keys, init, last);
      CountNoDup(keys, last);
    }
  }

  lemma {:induction false} SumCountsEmpty<T>(keys: seq<T>)
    ensures SumCounts(keys, []) == 0
  {
    if keys != [] {
      SumCountsEmpty(keys[1..]);
    }
  }

  /** The counts of the distinct elements of s add up to |s|. */
  lemma DistinctCountsTotal<T>(s: seq<T>)
    ensures SumCounts(Dedup(s), s) == |s|
  {
    DedupSpec(s);
    SumCountsTotal(Dedup(s), s);
  }

  /** One (key, count) pair per given key. */
  function CountsOf<T(==)>(keys: seq<T>, s: seq<T>): (r: seq<(T, nat)>)
    ensures |r| == |keys|
    ensures forall i :: 0 <= i < |r| ==> r[i] == (keys[i], Count(s, keys[i]))
  {
    if keys == [] then [] else [(keys[0], Count(s, keys[0]))] + CountsOf(keys[1..], s)
  }

  /** The sum of the counts of a list of (key, count) pairs. */
  function SumSecond<T>(ps: seq<(T, nat)>): nat
  {
    if ps == [] then 0 else ps[0].1 + SumSecond(ps[1..])
  }

  lemma {:induction false} SumSecondCounts<T>(keys: seq<T>, s: seq<T>)
    ensures SumSecond(CountsOf(keys, s)) == SumCounts(keys, s)
  {
    if keys != [] {
      assert CountsOf(keys, s)[1..] == CountsOf(keys[1..], s);
      SumSecondCounts(keys[1..], s);
    }
  }

  /** A group-by-and-count: one pair per distinct element of s, in first-seen
      order, with the number of times it occurs. */
  function Tally<T(==)>(s: seq<T>): seq<(T, nat)>
  {
    CountsOf(Dedup(s), s)
  }

  /** The tally lists each distinct element exactly once with a positive
      count, and the counts add up to |s|. */
  lemma TallySpec<T>(s: seq<T>)
    ensures forall i, j :: 0 <= i < j < |Tally(s)| ==> Tally(s)[i].0 != Tally(s)[j].0
    ensures forall x :: x in s <==> exists i :: 0 <= i < |Tally(s)| && Tally(s)[i].0 == x
    ensures forall i :: 0 <= i < |Tally(s)| ==> Tally(s)[i].1 == Count(s, Tally(s)[i].0) > 0
    ensures SumSecond(Tally(s)) == |s|
  {
    var d := Dedup(s);
    DedupSpec(s);
    forall x | x in s
      ensures exists i :: 0 <= i < |Tally(s)| && Tally(s)[i].0 == x
    {
      var i := FirstIndex(d, x);
    }
    forall i | 0 <= i < |d|
      ensures Count(s, d[i]) > 0
    {
      DedupMember(s, i);
      CountAbsent(s, d[i]);
    }
    forall i | 0 <= i < |Tally(s)|
      ensures Tally(s)[i].0 in s
    {
      DedupMember(s, i);
    }
    SumSecondCounts(d, s);
    DistinctCountsTotal(s);
  }

  /** The keys of a list of pairs, in order. */
  function Keys<K, V>(ps: seq<(K, V)>): (r: seq<K>)
    ensures |r| == |ps| && forall i :: 0 <= i < |ps| ==> r[i] == ps[i].0
  {
    seq(|ps|, i requires 0 <= i < |ps| => ps[i].0)
  }

  /** The count for x in a list of (key, count) pairs; 0 when x is not a key. */
  function Lookup<T(==)>(ps: seq<(T, nat)>, x: T): nat
  {
    if x in Keys(ps) then ps[FirstIndex(Keys(ps), x)].1 else 0
  }

  /** Counting one more x: its pair's count goes up by one, or a pair (x, 1)
      is appended when x is not yet a key. */
  function Bump<T(==)>(ps: seq<(T, nat)>, x: T): (r: seq<(T, nat)>)
    ensures Keys(r) == if x in Keys(ps) then Keys(ps) else Keys(ps) + [x]
  {
    if x in Keys(ps) then
      var j := FirstIndex(Keys(ps), x);
      ps[j := (x, ps[j].1 + 1)]
    else ps + [(x, 1)]
  }

  /** Counts grow one element at a time: the tally of s + [x] is the tally of
      s with x counted once more. */
  lemma TallySnoc<T>(s: seq<T>, x: T)
    ensures Tally(s + [x]) == Bump(Tally(s), x)
  {
    DedupSnoc(s, x);
    DedupSpec(s);
    TallyKeys(s);
    if x in Dedup(s) {
      TallySnocSeen(s, x);
    } else {
      CountAbsent(s, x);
      TallySnocNew(s, x);
    }
  }

  lemma DedupSnoc<T>(s: seq<T>, x: T)
    ensures Dedup(s + [x]) == if x in Dedup(s) then Dedup(s) else Dedup(s) + [x]
  {
    var t := s + [x];
    assert t[..|t| - 1] == s;
  }

  /** The keys of the tally are the distinct elements. */
  lemma TallyKeys<T>(s: seq<T>)
    ensures Keys(Tally(s)) == Dedup(s)
  {
  }

  lemma CountSnoc<T>(s: seq<T>, x: T, y: T)
    ensures Count(s + [x], y) == Count(s, y) + if x == y then 1 else 0
  {
    assert (s + [x])[..|s|] == s;
  }

  lemma TallySnocSeen<T>(s: seq<T>, x: T)
    requires x in Dedup(s) && NoDup(Dedup(s))
    requires Dedup(s + [x]) == Dedup(s)
    ensures var j := FirstIndex(Dedup(s), x);
      Tally(s + [x]) == Tally(s)[j := (x, Tally(s)[j].1 + 1)]
  {
    var d := Dedup(s);
    CountsOfSnoc(d, s, x, FirstIndex(d, x));
  }

  /** Counting once more an x that is the j-th of distinct keys bumps the
      j-th count and leaves the others. */
  lemma CountsOfSnoc<T>(keys: seq<T>, s: seq<T>, x: T, j: nat)
    requires NoDup(keys) && j < |keys| && keys[j] == x
    ensures CountsOf(keys, s + [x]) == CountsOf(keys, s)[j := (x, CountsOf(keys, s)[j].1 + 1)]
  {
    var before, after := CountsOf(keys, s), CountsOf(keys, s + [x]);
    var bumped := before[j := (x, before[j].1 + 1)];
    forall i | 0 <= i < |keys|
      ensures after[i] == bumped[i]
    {
      CountSnoc(s, x, keys[i]);
      if i != j {
        assert keys[i] != keys[j];
      }
    }
  }

  lemma TallySnocNew<T>(s: seq<T>, x: T)
    requires x !in Dedup(s) && Count(s, x) == 0
    requires Dedup(s + [x]) == Dedup(s) + [x]
    ensures Tally(s + [x]) == Tally(s) + [(x, 1)]
  {
    var d := Dedup(s);
    forall i | 0 <= i < |d| + 1
      ensures Tally(s + [x])[i] == (Tally(s) + [(x, 1)])[i]
    {
      if i < |d| {
        CountSnoc(s, x, d[i]);
      } else {
        CountSnoc(s, x, x);
      }
    }
  }

  /** A key's count in the tally is its number of occurrences. */
  lemma TallyLookup<T>(s: seq<T>, x: T)
    ensures Lookup(Tally(s), x) == Count(s, x)
  {
    DedupSpec(s);
    assert Keys(Tally(s)) == Dedup(s);
    if x !in Dedup(s) {
      CountAbsent(s, x);
    }
  }
}
