/** Go's `for key, value := range m` visits every key of a map once, in an
    order the runtime picks afresh on each loop. The model takes that order
    as an explicit sequence of keys and proves that what the loops build
    does not depend on it beyond the order of the entries. */
module MapOrder {

  /** The maps the provider iterates: `map[string]string`. */
  type StringMap = map<string, string>

  ghost predicate NoDuplicates(s: seq<string>)
  {
    forall i, j :: 0 <= i < j < |s| ==> s[i] != s[j]
  }

  /** `order` is an order in which `range` may visit `m`: each key once. */
  ghost predicate Enumerates(order: seq<string>, m: StringMap)
  {
    && NoDuplicates(order)
    && (forall k :: k in order <==> k in m)
  }

  /** The sequence a loop over `order` appends to: one `fmt(key, value)` per key. */
  function Render<R>(m: StringMap, order: seq<string>, fmt: (string, string) -> R): (r: seq<R>)
    requires forall k :: k in order ==> k in m
    ensures |r| == |order|
  {
    if order == [] then [] else [fmt(order[0], m[order[0]])] + Render(m, order[1..], fmt)
  }

  /** The entry at position `j` renders the `j`-th key visited. */
  lemma {:induction false} RenderAt<R>(m: StringMap, order: seq<string>, fmt: (string, string) -> R, j: int)
    requires forall k :: k in order ==> k in m
    requires 0 <= j < |order|
    ensures Render(m, order, fmt)[j] == fmt(order[j], m[order[j]])
  {
    if j > 0 {
      RenderAt(m, order[1..], fmt, j - 1);
    }
  }

  /** Every entry renders the key visited at its position. */
  lemma RenderEntries<R>(m: StringMap, order: seq<string>, fmt: (string, string) -> R)
    requires forall k :: k in order ==> k in m
    ensures forall j :: 0 <= j < |order| ==> Render(m, order, fmt)[j] == fmt(order[j], m[order[j]])
  {
    forall j | 0 <= j < |order|
      ensures Render(m, order, fmt)[j] == fmt(order[j], m[order[j]])
    {
      RenderAt(m, order, fmt, j);
    }
  }

  lemma {:induction false} RenderAppend<R>(m: StringMap, a: seq<string>, b: seq<string>, fmt: (string, string) -> R)
    requires forall k :: k in a + b ==> k in m
    ensures forall k :: k in a ==> k in m
    ensures forall k :: k in b ==> k in m
    ensures Render(m, a + b, fmt) == Render(m, a, fmt) + Render(m, b, fmt)
  {
    assert forall k :: k in a ==> k in a + b;
    assert forall k :: k in b ==> k in a + b;
    if a == [] {
      assert a + b == b;
    } else {
      assert (a + b)[0] == a[0];
      assert (a + b)[1..] == a[1..] + b;
      RenderAppend(m, a[1..], b, fmt);
    }
  }

  /** In an order without duplicates every key occurs exactly once. */
  lemma {:induction false} NoDuplicatesCounts(s: seq<string>)
    requires NoDuplicates(s)
    ensures forall k :: multiset(s)[k] == if k in s then 1 else 0
  {
    if s != [] {
      NoDuplicatesCounts(s[1..]);
      assert s == [s[0]] + s[1..];
      assert multiset(s) == multiset{s[0]} + multiset(s[1..]);
      assert s[0] !in s[1..];
    }
  }

  /** Every key of the map is visited exactly once, and nothing else is. */
  lemma EnumerationVisitsEachKeyOnce(order: seq<string>, m: StringMap)
    requires Enumerates(order, m)
    ensures forall k :: multiset(order)[k] == if k in m then 1 else 0
  {
    NoDuplicatesCounts(order);
  }

  /** The loop runs once per key. */
  lemma {:induction false} EnumerationLength(order: seq<string>, m: StringMap)
    requires Enumerates(order, m)
    ensures |order| == |m|
  {
    if order == [] {
      assert m.Keys == {};
    } else {
      var k := order[0];
      var rest := m - {k};
      assert rest.Keys == m.Keys - {k};
      assert order == [k] + order[1..];
      assert Enumerates(order[1..], rest);
      EnumerationLength(order[1..], rest);
    }
  }

  /** Every map has an iteration order, so requiring one excludes no input. */
  lemma {:induction false} EnumerationExists(m: StringMap)
    ensures exists order :: Enumerates(order, m)
    decreases |m|
  {
    if m.Keys == {} {
      assert Enumerates([], m);
    } else {
      var k :| k in m;
      var rest := m - {k};
      assert rest.Keys == m.Keys - {k};
      EnumerationExists(rest);
      var order :| Enumerates(order, rest);
      assert Enumerates([k] + order, m);
    }
  }

  /** Any two iteration orders of one map are permutations of each other. */
  lemma EnumerationsArePermutations(o1: seq<string>, o2: seq<string>, m: StringMap)
    requires Enumerates(o1, m) && Enumerates(o2, m)
    ensures multiset(o1) == multiset(o2)
  {
    EnumerationVisitsEachKeyOnce(o1, m);
    EnumerationVisitsEachKeyOnce(o2, m);
    assert forall k :: multiset(o1)[k] == multiset(o2)[k];
  }

  /** Taking the key at `i` out of an order takes its entry out of the rendering. */
  lemma RenderRemove<R>(m: StringMap, o: seq<string>, i: int, fmt: (string, string) -> R)
    requires forall k :: k in o ==> k in m
    requires 0 <= i < |o|
    ensures forall k :: k in o[..i] + o[i + 1..] ==> k in m
    ensures multiset(o) == multiset{o[i]} + multiset(o[..i] + o[i + 1..])
    ensures multiset(Render(m, o, fmt))
         == multiset{fmt(o[i], m[o[i]])} + multiset(Render(m, o[..i] + o[i + 1..], fmt))
  {
    var before, after := o[..i], o[i + 1..];
    assert o == before + ([o[i]] + after);
    assert forall k :: k in before + after ==> k in o;
    RenderAppend(m, before, [o[i]] + after, fmt);
    RenderAppend(m, [o[i]], after, fmt);
    RenderAppend(m, before, after, fmt);
  }

  lemma MultisetCancel(x: string, a: multiset<string>, b: multiset<string>)
    requires multiset{x} + a == multiset{x} + b
    ensures a == b
  {
    forall y
      ensures a[y] == b[y]
    {
      assert (multiset{x} + a)[y] == multiset{x}[y] + a[y];
      assert (multiset{x} + b)[y] == multiset{x}[y] + b[y];
    }
  }

  /** Rendering two permutations of the keys gives the same multiset of entries. */
  lemma {:induction false} RenderPermutation<R>(m: StringMap, o1: seq<string>, o2: seq<string>, fmt: (string, string) -> R)
    requires forall k :: k in o1 ==> k in m
    requires multiset(o1) == multiset(o2)
    ensures forall k :: k in o2 ==> k in m
    ensures multiset(Render(m, o1, fmt)) == multiset(Render(m, o2, fmt))
    decreases |o1|
  {
    assert forall k :: k in o2 ==> k in multiset(o1);
    if o1 == [] {
      assert |o2| == |multiset(o2)| == 0;
    } else {
      var rest := RemoveFirst(m, o1, o2, fmt);
      RenderPermutation(m, o1[1..], rest, fmt);
    }
  }

  /** Takes the first key of `o1` out of both orders: what is left of them is
      still a pair of permutations, and each rendering loses the same entry. */
  lemma RemoveFirst<R>(m: StringMap, o1: seq<string>, o2: seq<string>, fmt: (string, string) -> R)
    returns (rest: seq<string>)
    requires forall k :: k in o1 ==> k in m
    requires o1 != [] && multiset(o1) == multiset(o2)
    ensures forall k :: k in o1[1..] ==> k in m
    ensures multiset(o1[1..]) == multiset(rest)
    ensures forall k :: k in o2 ==> k in m
    ensures forall k :: k in rest ==> k in m
    ensures multiset(Render(m, o1, fmt)) == multiset{fmt(o1[0], m[o1[0]])} + multiset(Render(m, o1[1..], fmt))
    ensures multiset(Render(m, o2, fmt)) == multiset{fmt(o1[0], m[o1[0]])} + multiset(Render(m, rest, fmt))
  {
    assert forall k :: k in o2 ==> k in multiset(o1);
    var x := o1[0];
    assert x in multiset(o2);
    var i :| 0 <= i < |o2| && o2[i] == x;
    RenderRemove(m, o1, 0, fmt);
    RenderRemove(m, o2, i, fmt);
    rest := o2[..i] + o2[i + 1..];
    assert o1[..0] + o1[1..] == o1[1..];
    assert multiset{x} + multiset(o1[1..]) == multiset(o1) == multiset(o2) == multiset{x} + multiset(rest);
    MultisetCancel(x, multiset(o1[1..]), multiset(rest));
  }

  /** What a loop over the map renders is, as a multiset, independent of the
      order the runtime picks. */
  lemma RenderOrderIndependent<R>(m: StringMap, o1: seq<string>, o2: seq<string>, fmt: (string, string) -> R)
    requires Enumerates(o1, m) && Enumerates(o2, m)
    ensures multiset(Render(m, o1, fmt)) == multiset(Render(m, o2, fmt))
  {
    EnumerationsArePermutations(o1, o2, m);
    RenderPermutation(m, o1, o2, fmt);
  }

  /** Distinct keys render to distinct entries. */
  ghost predicate InjectiveOnKeys<R>(m: StringMap, fmt: (string, string) -> R)
  {
    forall k1, k2 :: k1 in m && k2 in m && fmt(k1, m[k1]) == fmt(k2, m[k2]) ==> k1 == k2
  }

  /** With distinct entries per key, each key's entry is rendered as often as
      the key is visited. */
  lemma {:induction false} RenderCountsVisits<R>(m: StringMap, o: seq<string>, fmt: (string, string) -> R, k: string)
    requires forall x :: x in o ==> x in m
    requires k in m && InjectiveOnKeys(m, fmt)
    ensures multiset(Render(m, o, fmt))[fmt(k, m[k])] == multiset(o)[k]
  {
    if o != [] {
      RenderCountsVisits(m, o[1..], fmt, k);
      assert o == [o[0]] + o[1..];
      assert multiset(o) == multiset{o[0]} + multiset(o[1..]);
      var r := Render(m, o, fmt);
      assert r == [fmt(o[0], m[o[0]])] + Render(m, o[1..], fmt);
      assert multiset(r) == multiset{fmt(o[0], m[o[0]])} + multiset(Render(m, o[1..], fmt));
    }
  }

  /** Over an iteration order, each key's entry is rendered exactly once. */
  lemma RenderOncePerKey<R>(m: StringMap, o: seq<string>, fmt: (string, string) -> R, k: string)
    requires Enumerates(o, m)
    requires k in m && InjectiveOnKeys(m, fmt)
    ensures multiset(Render(m, o, fmt))[fmt(k, m[k])] == 1
  {
    EnumerationVisitsEachKeyOnce(o, m);
    RenderCountsVisits(m, o, fmt, k);
  }
}
