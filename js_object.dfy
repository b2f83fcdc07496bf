/**
 * A plain JavaScript object used as a counting accumulator, as in
 * `xs.reduce((acc, x) => { acc[x] = (acc[x] || 0) + 1; return acc; }, {})`.
 * Three rules of the language shape the result: the names an object literal
 * inherits from `Object.prototype` read a function (or, for `__proto__`, the
 * prototype itself, whose setter ignores a string); and the keys that are
 * array indices are listed first, in ascending numeric order, before the
 * others in creation order.
 */
module JsObject {
  import opened Text
  import opened Seqs

  /** The property names every object literal inherits from
      `Object.prototype`. */
  const InheritedNames: set<string> := {
    "constructor", "hasOwnProperty", "isPrototypeOf", "propertyIsEnumerable",
    "toString", "toLocaleString", "valueOf", "__proto__",
    "__defineGetter__", "__defineSetter__", "__lookupGetter__", "__lookupSetter__"}

  /** The text Node gives an inherited method when a number is added to it;
      the `constructor` of an object literal is `Object`. */
  function NativeSource(name: string): string
  {
    "function " + (if name == "constructor" then "Object" else name) + "() { [native code] }"
  }

  /** A property value of a counting accumulator: a count, or the text an
      inherited method became when 1 was added to it. */
  datatype Value = NumberValue(n: nat) | StringValue(s: string)

  /** The own properties of an object, in the order they were created. */
  type Props = seq<(string, Value)>

  /** `(v || 0) + 1` for an own property's value. */
  function Incremented(v: Value): Value
  {
    match v
    case NumberValue(n) => NumberValue(n + 1)
    case StringValue(s) => if s == "" then NumberValue(1) else StringValue(s + "1")
  }

  /** `(acc[k] || 0) + 1` for a k that is not an own property: `undefined`
      gives 1, and an inherited method gives its text followed by `1`. */
  function FirstValue(k: string): Value
  {
    if k in InheritedNames then StringValue(NativeSource(k) + "1") else NumberValue(1)
  }

  /** `acc[k] = (acc[k] || 0) + 1`. The assignment to `__proto__` goes to
      the prototype's setter, which ignores a string, so it changes nothing;
      an own property is incremented in place; any other key becomes a new
      last property. */
  function CountInto(props: Props, k: string): (r: Props)
    ensures Keys(r) == if k == "__proto__" || k in Keys(props) then Keys(props) else Keys(props) + [k]
  {
    if k == "__proto__" then props
    else if k in Keys(props) then
      var j := FirstIndex(Keys(props), k);
      props[j := (k, Incremented(props[j].1))]
    else props + [(k, FirstValue(k))]
  }

  // ---------------------------------------------------------------------------
  // The closed form of the counting reduce
  // ---------------------------------------------------------------------------

  /** The value n occurrences of k leave behind: the count itself, or for an
      inherited name its method's text followed by n ones. */
  function Counted(k: string, n: nat): Value
  {
    if k in InheritedNames then StringValue(NativeSource(k) + Repeat('1', n)) else NumberValue(n)
  }

  /** The keys an assignment can create: all but `__proto__`. */
  function Assignable(s: seq<string>): (r: seq<string>)
    ensures forall x :: x in r <==> x in s && x != "__proto__"
  {
    if s == [] then []
    else
      var rest := Assignable(s[..|s| - 1]);
      assert s == s[..|s| - 1] + [s[|s| - 1]];
      if s[|s| - 1] == "__proto__" then rest else rest + [s[|s| - 1]]
  }

  lemma {:induction false} AssignableCount(s: seq<string>, x: string)
    requires x != "__proto__"
    ensures Count(Assignable(s), x) == Count(s, x)
  {
    if s != [] {
      var init, last := s[..|s| - 1], s[|s| - 1];
      AssignableCount(init, x);
      if last != "__proto__" {
        CountSnoc(Assignable(init), last, x);
      }
    }
  }

  /** Each (key, count) pair as the property the reduce leaves. */
  function Rendered(t: seq<(string, nat)>): (r: Props)
    ensures |r| == |t| && forall i :: 0 <= i < |t| ==> r[i] == (t[i].0, Counted(t[i].0, t[i].1))
  {
    seq(|t|, i requires 0 <= i < |t| => (t[i].0, Counted(t[i].0, t[i].1)))
  }

  /** The own properties after counting s into `{}`: one per distinct key
      other than `__proto__`, in first-seen order. */
  function CountObject(s: seq<string>): Props
  {
    Rendered(Tally(Assignable(s)))
  }

  lemma IncrementedCounted(k: string, n: nat)
    ensures Incremented(Counted(k, n)) == Counted(k, n + 1)
  {
    assert Repeat('1', n + 1) == Repeat('1', n) + ['1'];
    if k in InheritedNames {
      assert (NativeSource(k) + Repeat('1', n)) + "1" == NativeSource(k) + Repeat('1', n + 1);
    }
  }

  lemma RenderedBump(t: seq<(string, nat)>, x: string)
    requires x != "__proto__"
    ensures Rendered(Bump(t, x)) == CountInto(Rendered(t), x)
  {
    var r := Rendered(t);
    assert Keys(r) == Keys(t);
    if x in Keys(t) {
      var j := FirstIndex(Keys(t), x);
      IncrementedCounted(x, t[j].1);
      var lhs, rhs := Rendered(Bump(t, x)), CountInto(r, x);
      assert |lhs| == |rhs|;
      forall i | 0 <= i < |lhs|
        ensures lhs[i] == rhs[i]
      {
      }
    } else {
      assert Repeat('1', 1) == "1";
      assert Counted(x, 1) == FirstValue(x);
    }
  }

  /** One step of the reduce on the closed form: counting x after s is
      `CountInto` applied to the object for s. */
  lemma CountObjectSnoc(s: seq<string>, x: string)
    ensures CountObject(s + [x]) == CountInto(CountObject(s), x)
  {
    var a := Assignable(s);
    var t := s + [x];
    assert t[..|t| - 1] == s;
    if x != "__proto__" {
      assert Assignable(t) == a + [x];
      TallySnoc(a, x);
      RenderedBump(Tally(a), x);
    }
  }

  /** The object for s holds exactly one property per key of s other than
      `__proto__`, in first-seen order, valued by that key's number of
      occurrences. */
  lemma CountObjectEntries(s: seq<string>)
    ensures forall k, v :: (k, v) in CountObject(s) <==>
      k in s && k != "__proto__" && v == Counted(k, Count(s, k))
    ensures NoDup(Keys(CountObject(s)))
    ensures Keys(CountObject(s)) == Dedup(Assignable(s))
  {
    var a := Assignable(s);
    var p := CountObject(s);
    TallySpec(a);
    TallyKeys(a);
    assert Keys(p) == Keys(Tally(a));
    forall k, v
      ensures (k, v) in p <==> k in s && k != "__proto__" && v == Counted(k, Count(s, k))
    {
      if (k, v) in p {
        var i :| 0 <= i < |p| && p[i] == (k, v);
        assert Tally(a)[i].0 == k;
        assert k in a;
        AssignableCount(s, k);
      }
      if k in s && k != "__proto__" && v == Counted(k, Count(s, k)) {
        assert k in a;
        var i :| 0 <= i < |Tally(a)| && Tally(a)[i].0 == k;
        AssignableCount(s, k);
        assert p[i] == (k, v);
      }
    }
  }

  // ---------------------------------------------------------------------------
  // The numbers of the object
  // ---------------------------------------------------------------------------

  function NumberOf(v: Value): nat
  {
    if v.NumberValue? then v.n else 0
  }

  /** The sum of the numeric property values (a text value adds nothing). */
  function NumberSum(props: Props): nat
  {
    if props == [] then 0 else NumberOf(props[0].1) + NumberSum(props[1..])
  }

  /** How many elements of s are inherited names. */
  function InheritedCount(s: seq<string>): (n: nat)
    ensures n <= |s|
    ensures n == 0 <==> forall x :: x in s ==> x !in InheritedNames
  {
    if s == [] then 0
    else
      assert s == s[..|s| - 1] + [s[|s| - 1]];
      InheritedCount(s[..|s| - 1]) + (if s[|s| - 1] in InheritedNames then 1 else 0)
  }

  lemma {:induction false} NumberSumAppend(a: Props, b: Props)
    ensures NumberSum(a + b) == NumberSum(a) + NumberSum(b)
  {
    if a == [] {
      assert a + b == b;
    } else {
      assert (a + b)[0] == a[0];
      assert (a + b)[1..] == a[1..] + b;
      NumberSumAppend(a[1..], b);
    }
  }

  lemma {:induction false} NumberSumUpdate(p: Props, j: nat, e: (string, Value))
    requires j < |p|
    ensures NumberSum(p[j := e]) + NumberOf(p[j].1) == NumberSum(p) + NumberOf(e.1)
  {
    if j > 0 {
      assert p[j := e][1..] == p[1..][j - 1 := e];
      NumberSumUpdate(p[1..], j - 1, e);
    }
  }

  /** Every occurrence of a name that is not inherited adds one to the
      numeric values; an inherited one adds nothing, so the numbers add up to
      |s| only when no element of s is an inherited name. */
  lemma {:induction false} CountObjectSum(s: seq<string>)
    ensures NumberSum(CountObject(s)) + InheritedCount(s) == |s|
  {
    if s != [] {
      var init, x := s[..|s| - 1], s[|s| - 1];
      assert s == init + [x];
      CountObjectSum(init);
      CountObjectSumStep(init, x);
    }
  }

  /** One more key adds 1 to the numbers, or nothing for an inherited name. */
  lemma CountObjectSumStep(init: seq<string>, x: string)
    ensures NumberSum(CountObject(init + [x])) == NumberSum(CountObject(init)) + (if x in InheritedNames then 0 else 1)
  {
    CountObjectSnoc(init, x);
    var p := CountObject(init);
    if x == "__proto__" {
    } else if x in Keys(p) {
      var j := FirstIndex(Keys(p), x);
      CountObjectEntries(init);
      assert p[j] in p;
      assert p[j].1 == Counted(x, Count(init, x));
      IncrementedCounted(x, Count(init, x));
      NumberSumUpdate(p, j, (x, Incremented(p[j].1)));
    } else {
      NumberSumAppend(p, [(x, FirstValue(x))]);
    }
  }

  // ---------------------------------------------------------------------------
  // The order in which the keys are listed
  // ---------------------------------------------------------------------------

  /** An array index: the canonical decimal text of an integer below
      2^32 - 1. */
  predicate IsArrayIndex(k: string)
  {
    && |k| >= 1 && AllDigits(k) && (|k| > 1 ==> k[0] != '0')
    && ParseNat(k) < 0xFFFF_FFFF
  }

  /** The number an array-index key stands for. */
  function IndexValue(k: string): nat
  {
    if AllDigits(k) then ParseNat(k) else 0
  }

  /** Two array indices with the same number are the same key. */
  lemma IndexValueInjective(a: string, b: string)
    requires IsArrayIndex(a) && IsArrayIndex(b) && IndexValue(a) == IndexValue(b)
    ensures a == b
  {
    NatToStringParse(a);
    NatToStringParse(b);
  }

  /** The properties whose key is (or is not) an array index, in order. */
  function KeyedBy(props: Props, index: bool): Props
  {
    if props == [] then []
    else if IsArrayIndex(props[0].0) == index then [props[0]] + KeyedBy(props[1..], index)
    else KeyedBy(props[1..], index)
  }

  lemma {:induction false} KeyedByKeys(props: Props, index: bool)
    ensures forall i :: 0 <= i < |KeyedBy(props, index)| ==> IsArrayIndex(KeyedBy(props, index)[i].0) == index
  {
    if props != [] {
      KeyedByKeys(props[1..], index);
    }
  }

  lemma {:induction false} KeyedBySplit(props: Props)
    ensures multiset(KeyedBy(props, true)) + multiset(KeyedBy(props, false)) == multiset(props)
    ensures NumberSum(KeyedBy(props, true)) + NumberSum(KeyedBy(props, false)) == NumberSum(props)
  {
    if props != [] {
      var e, rest := props[0], props[1..];
      KeyedBySplit(rest);
      assert props == [e] + rest;
      var t, f := KeyedBy(rest, true), KeyedBy(rest, false);
      if IsArrayIndex(e.0) {
        assert KeyedBy(props, true) == [e] + t;
        NumberSumAppend([e], t);
      } else {
        assert KeyedBy(props, false) == [e] + f;
        NumberSumAppend([e], f);
      }
    }
  }

  lemma {:induction false} KeyedByAppend(a: Props, b: Props, index: bool)
    ensures KeyedBy(a + b, index) == KeyedBy(a, index) + KeyedBy(b, index)
  {
    if a == [] {
      assert a + b == b;
    } else {
      assert (a + b)[0] == a[0];
      assert (a + b)[1..] == a[1..] + b;
      KeyedByAppend(a[1..], b, index);
    }
  }

  lemma {:induction false} KeyedByAll(props: Props, index: bool)
    requires forall i :: 0 <= i < |props| ==> IsArrayIndex(props[i].0) == index
    ensures KeyedBy(props, index) == props
    ensures KeyedBy(props, !index) == []
  {
    if props != [] {
      KeyedByAll(props[1..], index);
    }
  }

  predicate IndexSorted(s: Props)
  {
    forall i, j :: 0 <= i < j < |s| ==> IndexValue(s[i].0) <= IndexValue(s[j].0)
  }

  /** Inserts a property before the first one with no smaller index. */
  function InsertByIndex(e: (string, Value), s: Props): (r: Props)
    ensures |r| == |s| + 1
    ensures r[0] == e || (s != [] && r[0] == s[0])
  {
    if s == [] || IndexValue(e.0) <= IndexValue(s[0].0) then [e] + s
    else [s[0]] + InsertByIndex(e, s[1..])
  }

  lemma {:induction false} InsertByIndexSorted(e: (string, Value), s: Props)
    requires IndexSorted(s)
    ensures IndexSorted(InsertByIndex(e, s))
  {
    if s != [] && IndexValue(e.0) > IndexValue(s[0].0) {
      var r := InsertByIndex(e, s[1..]);
      InsertByIndexSorted(e, s[1..]);
      var q := InsertByIndex(e, s);
      assert q == [s[0]] + r;
      forall i, j | 0 <= i < j < |q|
        ensures IndexValue(q[i].0) <= IndexValue(q[j].0)
      {
        if i > 0 {
          assert q[i] == r[i - 1] && q[j] == r[j - 1];
        } else {
          assert q[j] == r[j - 1];
        }
      }
    }
  }

  lemma {:induction false} InsertByIndexProps(e: (string, Value), s: Props)
    ensures multiset(InsertByIndex(e, s)) == multiset(s) + multiset{e}
    ensures NumberSum(InsertByIndex(e, s)) == NumberSum(s) + NumberOf(e.1)
  {
    if s != [] && IndexValue(e.0) > IndexValue(s[0].0) {
      InsertByIndexProps(e, s[1..]);
      assert s == [s[0]] + s[1..];
    }
  }

  /** The properties ordered by their index, as an insertion sort. */
  function SortByIndex(s: Props): Props
  {
    if s == [] then [] else InsertByIndex(s[0], SortByIndex(s[1..]))
  }

  lemma {:induction false} SortByIndexSpec(s: Props)
    ensures IndexSorted(SortByIndex(s))
    ensures multiset(SortByIndex(s)) == multiset(s)
    ensures NumberSum(SortByIndex(s)) == NumberSum(s)
  {
    if s != [] {
      SortByIndexSpec(s[1..]);
      InsertByIndexSorted(s[0], SortByIndex(s[1..]));
      InsertByIndexProps(s[0], SortByIndex(s[1..]));
      assert s == [s[0]] + s[1..];
    }
  }

  /** The own properties in the order `Object.keys`, `for…in` and
      `JSON.stringify` list them: the array indices in ascending numeric
      order, then the other keys in creation order. */
  function Enumerated(props: Props): Props
  {
    SortByIndex(KeyedBy(props, true)) + KeyedBy(props, false)
  }

  /** The listing holds the same properties, with the same numbers. */
  lemma EnumeratedPermutation(props: Props)
    ensures multiset(Enumerated(props)) == multiset(props)
    ensures NumberSum(Enumerated(props)) == NumberSum(props)
  {
    var idx, rest := KeyedBy(props, true), KeyedBy(props, false);
    KeyedBySplit(props);
    SortByIndexSpec(idx);
    NumberSumAppend(SortByIndex(idx), rest);
  }

  /** The sorted array indices hold array-index keys only. */
  lemma SortedIndices(props: Props)
    ensures forall i :: 0 <= i < |SortByIndex(KeyedBy(props, true))| ==>
      IsArrayIndex(SortByIndex(KeyedBy(props, true))[i].0)
  {
    var idx := KeyedBy(props, true);
    var sorted := SortByIndex(idx);
    SortByIndexSpec(idx);
    KeyedByKeys(props, true);
    forall i | 0 <= i < |sorted|
      ensures IsArrayIndex(sorted[i].0)
    {
      assert sorted[i] in multiset(idx);
      var k :| 0 <= k < |idx| && idx[k] == sorted[i];
    }
  }

  /** In the listing the array indices come first and ascend. */
  lemma EnumeratedOrder(props: Props)
    ensures forall i, j :: 0 <= i < j < |Enumerated(props)| && IsArrayIndex(Enumerated(props)[j].0) ==>
      IsArrayIndex(Enumerated(props)[i].0) && IndexValue(Enumerated(props)[i].0) <= IndexValue(Enumerated(props)[j].0)
  {
    var idx, rest := KeyedBy(props, true), KeyedBy(props, false);
    var sorted := SortByIndex(idx);
    var e := sorted + rest;
    SortByIndexSpec(idx);
    SortedIndices(props);
    KeyedByKeys(props, false);
    forall j | |sorted| <= j < |e|
      ensures !IsArrayIndex(e[j].0)
    {
      assert e[j] == rest[j - |sorted|];
    }
    forall i, j | 0 <= i < j < |sorted|
      ensures IsArrayIndex(e[i].0) && IndexValue(e[i].0) <= IndexValue(e[j].0)
    {
      assert e[i] == sorted[i] && e[j] == sorted[j];
    }
  }

  /** After the array indices, the other keys follow in creation order. */
  lemma EnumeratedRest(props: Props)
    ensures KeyedBy(Enumerated(props), false) == KeyedBy(props, false)
  {
    var idx, rest := KeyedBy(props, true), KeyedBy(props, false);
    var sorted := SortByIndex(idx);
    SortedIndices(props);
    KeyedByKeys(props, false);
    KeyedByAppend(sorted, rest, false);
    KeyedByAll(sorted, true);
    KeyedByAll(rest, false);
  }

  // ---------------------------------------------------------------------------
  // Distinct keys survive a reordering
  // ---------------------------------------------------------------------------

  lemma {:induction false} DistinctOnce(a: Props, x: (string, Value))
    requires NoDup(Keys(a))
    ensures multiset(a)[x] <= 1
  {
    if a != [] {
      var init := a[..|a| - 1];
      assert a == init + [a[|a| - 1]];
      assert Keys(init) == Keys(a)[..|a| - 1];
      DistinctOnce(init, x);
      if x in init {
        var i :| 0 <= i < |init| && init[i] == x;
        assert Keys(a)[i] != Keys(a)[|a| - 1];
        assert a[|a| - 1] != x;
      } else {
        assert multiset(init)[x] == 0;
      }
    }
  }

  lemma TwiceCounted(b: Props, i: nat, j: nat)
    requires i < j < |b| && b[i] == b[j]
    ensures multiset(b)[b[i]] >= 2
  {
    assert b == b[..j] + [b[j]] + b[j + 1..];
    assert b[i] in b[..j];
  }

  /** Reordering properties with distinct keys keeps the keys distinct. */
  lemma DistinctKeysPermutation(a: Props, b: Props)
    requires multiset(a) == multiset(b) && NoDup(Keys(a))
    ensures NoDup(Keys(b))
  {
    forall i, j | 0 <= i < j < |b|
      ensures b[i].0 != b[j].0
    {
      assert b[i] in multiset(a) && b[j] in multiset(a);
      var p :| 0 <= p < |a| && a[p] == b[i];
      var q :| 0 <= q < |a| && a[q] == b[j];
      if p == q {
        TwiceCounted(b, i, j);
        DistinctOnce(a, b[i]);
        assert false;
      } else {
        assert Keys(a)[p] != Keys(a)[q];
      }
    }
  }

  // ---------------------------------------------------------------------------
  // The object the counting reduce returns
  // ---------------------------------------------------------------------------

  /** `s.reduce((acc, k) => { acc[k] = (acc[k] || 0) + 1; return acc; }, {})`
      with its properties in the order they are listed. */
  function CountedObject(s: seq<string>): Props
  {
    Enumerated(CountObject(s))
  }

  /** The counted object: one property per key of s but `__proto__`, valued
      by its number of occurrences (as text for an inherited name), keys
      distinct, array indices first in strictly ascending order and the other
      keys in first-seen order; its numbers add up to the elements of s that
      are not inherited names. */
  lemma CountedObjectSpec(s: seq<string>)
    ensures forall k, v :: (k, v) in CountedObject(s) <==>
      k in s && k != "__proto__" && v == Counted(k, Count(s, k))
    ensures NoDup(Keys(CountedObject(s)))
    ensures forall i, j :: 0 <= i < j < |CountedObject(s)| && IsArrayIndex(CountedObject(s)[j].0) ==>
      IsArrayIndex(CountedObject(s)[i].0) && IndexValue(CountedObject(s)[i].0) < IndexValue(CountedObject(s)[j].0)
    ensures KeyedBy(CountedObject(s), false) == KeyedBy(CountObject(s), false)
    ensures NumberSum(CountedObject(s)) + InheritedCount(s) == |s|
  {
    var p := CountObject(s);
    var d := CountedObject(s);
    CountObjectEntries(s);
    EnumeratedPermutation(p);
    EnumeratedOrder(p);
    EnumeratedRest(p);
    CountObjectSum(s);
    forall k, v
      ensures (k, v) in d <==> (k, v) in p
    {
      assert (k, v) in d <==> (k, v) in multiset(d);
    }
    DistinctKeysPermutation(p, d);
    forall i, j | 0 <= i < j < |d| && IsArrayIndex(d[j].0)
      ensures IsArrayIndex(d[i].0) && IndexValue(d[i].0) < IndexValue(d[j].0)
    {
      assert Keys(d)[i] != Keys(d)[j];
      if IndexValue(d[i].0) == IndexValue(d[j].0) {
        IndexValueInjective(d[i].0, d[j].0);
      }
    }
  }

  /** A key other than `__proto__` has its count as its property when it
      occurs, and no property when it does not. */
  lemma CountedObjectLookup(s: seq<string>, k: string)
    requires k != "__proto__"
    ensures Count(s, k) > 0 ==> (k, Counted(k, Count(s, k))) in CountedObject(s)
    ensures Count(s, k) == 0 ==> k !in Keys(CountedObject(s))
  {
    CountedObjectSpec(s);
    CountAbsent(s, k);
    var d := CountedObject(s);
    if k in Keys(d) {
      var i :| 0 <= i < |d| && Keys(d)[i] == k;
      assert (d[i].0, d[i].1) in d;
    }
  }

  /** The counts as plain numbers, as a `Map` would hold them. */
  function Numbers(t: seq<(string, nat)>): (r: Props)
    ensures |r| == |t| && forall i :: 0 <= i < |t| ==> r[i] == (t[i].0, NumberValue(t[i].1))
  {
    seq(|t|, i requires 0 <= i < |t| => (t[i].0, NumberValue(t[i].1)))
  }

  /** With ordinary keys the counted object is the plain count, whose
      numbers add up to |s|. */
  lemma PlainCount(s: seq<string>)
    ensures (forall x :: x in s ==> x !in InheritedNames && !IsArrayIndex(x)) ==>
      CountedObject(s) == Numbers(Tally(s)) && SumSecond(Tally(s)) == |s|
  {
    if forall x :: x in s ==> x !in InheritedNames && !IsArrayIndex(x) {
      CountedObjectPlain(s);
      TallySpec(s);
    }
  }

  lemma {:induction false} AssignableAll(s: seq<string>)
    requires "__proto__" !in s
    ensures Assignable(s) == s
  {
    if s != [] {
      assert s == s[..|s| - 1] + [s[|s| - 1]];
      AssignableAll(s[..|s| - 1]);
    }
  }

  /** When no element is an inherited name or an array index, the object is
      the intended count: every key once, in first-seen order, with its
      number of occurrences. */
  lemma CountedObjectPlain(s: seq<string>)
    requires forall x :: x in s ==> x !in InheritedNames && !IsArrayIndex(x)
    ensures CountedObject(s) == Numbers(Tally(s))
  {
    AssignableAll(s);
    TallySpec(s);
    var p := CountObject(s);
    assert p == Numbers(Tally(s));
    KeyedByAll(p, false);
  }

  // ---------------------------------------------------------------------------
  // Three inputs that show the rules
  // ---------------------------------------------------------------------------

  lemma CountObjectOne(k: string)
    requires k != "__proto__"
    ensures CountObject([k]) == [(k, FirstValue(k))]
  {
    assert CountObject([]) == [];
    CountObjectSnoc([], k);
    assert [] + [k] == [k];
  }

  lemma EnumeratedOne(e: (string, Value))
    requires !IsArrayIndex(e.0)
    ensures Enumerated([e]) == [e]
  {
    KeyedByAll([e], false);
  }

  lemma EnumeratedSwap(c: (string, Value), f: (string, Value))
    requires !IsArrayIndex(c.0) && IsArrayIndex(f.0)
    ensures Enumerated([c, f]) == [f, c]
  {
    assert [c, f][1..] == [f];
    assert [f][1..] == [];
    assert KeyedBy([f], true) == [f];
    assert KeyedBy([f], false) == [];
    assert KeyedBy([c, f], true) == [f];
    assert KeyedBy([c, f], false) == [c];
    assert SortByIndex([f]) == [f];
  }

  /** A `__proto__` key is dropped: two keys counted, one property holding 1. */
  lemma ProtoKeyVanishes(k: string)
    requires k != "__proto__" && k !in InheritedNames && !IsArrayIndex(k)
    ensures CountedObject(["__proto__", k]) == [(k, NumberValue(1))]
    ensures NumberSum(CountedObject(["__proto__", k])) == 1
  {
    assert Assignable(["__proto__"]) == [];
    assert CountObject(["__proto__"]) == [];
    CountObjectSnoc(["__proto__"], k);
    assert ["__proto__"] + [k] == ["__proto__", k];
    assert CountInto([], k) == [(k, NumberValue(1))];
    assert CountObject(["__proto__", k]) == [(k, NumberValue(1))];
    EnumeratedOne((k, NumberValue(1)));
  }

  /** An inherited method's text is counted on: k twice. */
  lemma InheritedKeyText(k: string)
    requires k in InheritedNames && k != "__proto__" && !IsArrayIndex(k)
    ensures CountedObject([k, k]) == [(k, StringValue(NativeSource(k) + "11"))]
  {
    CountObjectOne(k);
    CountObjectSnoc([k], k);
    assert [k] + [k] == [k, k];
    var v := StringValue(NativeSource(k) + "1");
    assert Keys([(k, v)]) == [k];
    assert FirstIndex([k], k) == 0;
    assert NativeSource(k) + "1" + "1" == NativeSource(k) + "11";
    assert Incremented(v) == StringValue(NativeSource(k) + "11");
    assert CountInto([(k, v)], k) == [(k, Incremented(v))];
    assert CountObject([k, k]) == [(k, StringValue(NativeSource(k) + "11"))];
    EnumeratedOne((k, StringValue(NativeSource(k) + "11")));
  }

  /** An array-index key is listed before the keys created earlier. */
  lemma IndexKeysFirst(k: string, i: string)
    requires k !in InheritedNames && !IsArrayIndex(k) && k != "__proto__"
    requires i !in InheritedNames && IsArrayIndex(i) && i != "__proto__"
    ensures CountedObject([k, i]) == [(i, NumberValue(1)), (k, NumberValue(1))]
  {
    CountObjectOne(k);
    CountObjectSnoc([k], i);
    assert [k] + [i] == [k, i];
    EnumeratedSwap((k, NumberValue(1)), (i, NumberValue(1)));
  }

  /** The three rules on concrete keys: a `__proto__` status is lost. */
  lemma ProtoStatusLost()
    ensures CountedObject(["__proto__", "completed"]) == [("completed", NumberValue(1))]
  {
    assert !IsDigit("completed"[0]);
    ProtoKeyVanishes("completed");
  }

  /** `constructor` counted twice holds text, not 2. */
  lemma ConstructorStatusText()
    ensures CountedObject(["constructor", "constructor"]) ==
      [("constructor", StringValue("function Object() { [native code] }11"))]
  {
    assert !IsDigit("constructor"[0]);
    InheritedKeyText("constructor");
    assert NativeSource("constructor") == "function Object() { [native code] }";
    assert NativeSource("constructor") + "11" == "function Object() { [native code] }11";
  }

  /** A status `5` is listed before `completed`. */
  lemma NumericStatusFirst()
    ensures CountedObject(["completed", "5"]) == [("5", NumberValue(1)), ("completed", NumberValue(1))]
  {
    assert !IsDigit("completed"[0]);
    assert "5"[..0] == [];
    assert ParseNat("5") == 5;
    IndexKeysFirst("completed", "5");
  }
}
