/**
 * The two middlewares that run at request time.  Each first runs the rest of the field's
 * pipeline, then rewrites the field's result: a collection of keys is batch-loaded, a single
 * key is loaded, and anything else is left as it is.
 */
module DataLoaderMiddlewares {

  /** The field's result as the middlewares classify it.  `Keys` is a result that is a
      collection of keys, `Key` one that is a single key; a result that passes both runtime
      tests is a `Keys`, since that test comes first.  `Value`, `Values` and `ValueSet` are
      what the middlewares write; `Other` is any other object. */
  datatype FieldResult<K, V> =
    | Null
    | Key(key: K)
    | Keys(keys: seq<K>)
    | Value(value: V)
    | Values(values: seq<V>)
    | ValueSet(members: set<V>)
    | Other(id: nat)
  {
    /** The result is one of the shapes the middlewares load for. */
    predicate IsKeyShaped() { Key? || Keys? }
  }

  /** The loader's batch load: one value per key, in the order of the keys. */
  function LoadMany<K, V>(load: K -> V, keys: seq<K>): (values: seq<V>)
    ensures |values| == |keys|
    ensures forall i :: 0 <= i < |keys| ==> values[i] == load(keys[i])
  {
    if keys == [] then [] else [load(keys[0])] + LoadMany(load, keys[1..])
  }

  /** The elements of one array. */
  ghost function Elements<E>(s: seq<E>): set<E> {
    set x | x in s
  }

  /** The elements occurring in any of the arrays, each once. */
  ghost function Occurring<E>(data: seq<seq<E>>): set<E> {
    if data == [] then {} else Occurring(data[..|data| - 1]) + Elements(data[|data| - 1])
  }

  /** The number of elements over all arrays, duplicates included. */
  function TotalLength<E>(data: seq<seq<E>>): nat {
    if data == [] then 0 else TotalLength(data[..|data| - 1]) + |data[|data| - 1]|
  }

  /** An element occurs in the flattened set exactly when it stands at some position of some
      array. */
  lemma {:induction false} OccurringMembers<E>(data: seq<seq<E>>, x: E)
    ensures x in Occurring(data) <==>
      exists m, n :: 0 <= m < |data| && 0 <= n < |data[m]| && data[m][n] == x
  {
    if data != [] {
      var last := |data| - 1;
      OccurringMembers(data[..last], x);
      if x in Occurring(data) {
        if x !in Occurring(data[..last]) {
          var n :| 0 <= n < |data[last]| && data[last][n] == x;
        } else {
          var m, n :| 0 <= m < last && 0 <= n < |data[..last][m]| && data[..last][m][n] == x;
          assert data[m][n] == x;
        }
      } else {
        forall m, n | 0 <= m < |data| && 0 <= n < |data[m]| ensures data[m][n] != x {
          if m < last {
            assert data[..last][m][n] == data[m][n];
          } else {
            assert data[m][n] in data[last];
          }
        }
      }
    }
  }

  /** No two positions of the array hold the same element. */
  ghost predicate Distinct<E>(s: seq<E>) {
    forall i, j :: 0 <= i < j < |s| ==> s[i] != s[j]
  }

  /** No two distinct positions, in the same array or in different ones, hold the same
      element. */
  ghost predicate NoRepeats<E>(data: seq<seq<E>>) {
    forall m1, n1, m2, n2 ::
      0 <= m1 < |data| && 0 <= n1 < |data[m1]| && 0 <= m2 < |data| && 0 <= n2 < |data[m2]|
      && (m1 != m2 || n1 != n2)
      ==> data[m1][n1] != data[m2][n2]
  }

  lemma ElementsSnoc<E>(s: seq<E>)
    requires s != []
    ensures Elements(s) == Elements(s[..|s| - 1]) + {s[|s| - 1]}
  {
    var last := |s| - 1;
    forall x | x in s ensures x in s[..last] || x == s[last] {
      var k :| 0 <= k < |s| && s[k] == x;
      if k < last { assert s[..last][k] == x; }
    }
  }

  lemma DistinctSnoc<E>(s: seq<E>)
    requires s != []
    ensures Distinct(s) <==> Distinct(s[..|s| - 1]) && s[|s| - 1] !in s[..|s| - 1]
  {
    var last := |s| - 1;
    var init := s[..last];
    if Distinct(init) && s[last] !in init {
      forall i, j | 0 <= i < j < |s| ensures s[i] != s[j] {
        assert s[i] == init[i];
        if j < last { assert s[j] == init[j]; }
      }
    }
    if Distinct(s) {
      forall i, j | 0 <= i < j < |init| ensures init[i] != init[j] {
        assert s[i] == init[i] && s[j] == init[j];
      }
      forall k | 0 <= k < |init| ensures init[k] != s[last] {
        assert s[k] == init[k];
      }
    }
  }

  /** An array has at most as many distinct elements as positions, and exactly as many when
      no element repeats. */
  lemma {:induction false} ElementsSize<E>(s: seq<E>)
    ensures |Elements(s)| <= |s|
    ensures |Elements(s)| == |s| <==> Distinct(s)
  {
    if s != [] {
      var last := |s| - 1;
      ElementsSize(s[..last]);
      ElementsSnoc(s);
      DistinctSnoc(s);
    }
  }

  /** Repetition-freedom of a list of arrays splits into that of all arrays but the last, that
      of the last array, and no element shared between the two parts. */
  lemma NoRepeatsSplit<E>(data: seq<seq<E>>)
    requires data != []
    ensures NoRepeats(data) <==>
      && NoRepeats(data[..|data| - 1])
      && Distinct(data[|data| - 1])
      && Occurring(data[..|data| - 1]) !! Elements(data[|data| - 1])
  {
    var last := |data| - 1;
    if NoRepeats(data) {
      NoRepeatsSplitDown(data);
    }
    if && NoRepeats(data[..last]) && Distinct(data[last])
       && Occurring(data[..last]) !! Elements(data[last]) {
      NoRepeatsSplitUp(data);
    }
  }

  lemma NoRepeatsSplitDown<E>(data: seq<seq<E>>)
    requires data != [] && NoRepeats(data)
    ensures NoRepeats(data[..|data| - 1])
    ensures Distinct(data[|data| - 1])
    ensures Occurring(data[..|data| - 1]) !! Elements(data[|data| - 1])
  {
    var last := |data| - 1;
    var init, tail := data[..last], data[last];
    forall m1, n1, m2, n2 |
      0 <= m1 < |init| && 0 <= n1 < |init[m1]| && 0 <= m2 < |init| && 0 <= n2 < |init[m2]|
      && (m1 != m2 || n1 != n2)
      ensures init[m1][n1] != init[m2][n2]
    {
      assert init[m1] == data[m1] && init[m2] == data[m2];
    }
    forall i, j | 0 <= i < j < |tail| ensures tail[i] != tail[j] {
      assert data[last][i] != data[last][j];
    }
    forall x | x in Occurring(init) ensures x !in Elements(tail) {
      OccurringMembers(init, x);
      var m, n :| 0 <= m < |init| && 0 <= n < |init[m]| && init[m][n] == x;
      assert init[m] == data[m];
      forall k | 0 <= k < |tail| ensures tail[k] != x {
        assert data[m][n] != data[last][k];
      }
    }
  }

  lemma NoRepeatsSplitUp<E>(data: seq<seq<E>>)
    requires data != []
    requires NoRepeats(data[..|data| - 1])
    requires Distinct(data[|data| - 1])
    requires Occurring(data[..|data| - 1]) !! Elements(data[|data| - 1])
    ensures NoRepeats(data)
  {
    var last := |data| - 1;
    var init, tail := data[..last], data[last];
    forall m1, n1, m2, n2 |
      0 <= m1 < |data| && 0 <= n1 < |data[m1]| && 0 <= m2 < |data| && 0 <= n2 < |data[m2]|
      && (m1 != m2 || n1 != n2)
      ensures data[m1][n1] != data[m2][n2]
    {
      if m1 < last && m2 < last {
        assert init[m1] == data[m1] && init[m2] == data[m2];
        assert init[m1][n1] != init[m2][n2];
      } else if m1 == last && m2 == last {
        if n1 < n2 { assert tail[n1] != tail[n2]; } else { assert tail[n2] != tail[n1]; }
      } else if m1 < last {
        assert init[m1][n1] == data[m1][n1];
        OccurringMembers(init, data[m1][n1]);
        assert data[m1][n1] in Occurring(init);
        assert data[m1][n1] !in Elements(tail);
        assert data[m2][n2] in Elements(tail);
      } else {
        assert init[m2][n2] == data[m2][n2];
        OccurringMembers(init, data[m2][n2]);
        assert data[m2][n2] in Occurring(init);
        assert data[m2][n2] !in Elements(tail);
        assert data[m1][n1] in Elements(tail);
      }
    }
  }

  /** Flattening never yields more elements than the arrays hold together, and it yields
      exactly as many when no element repeats: every repetition, within one array or across
      arrays, is collapsed. */
  lemma {:induction false} OccurringSize<E>(data: seq<seq<E>>)
    ensures |Occurring(data)| <= TotalLength(data)
    ensures |Occurring(data)| == TotalLength(data) <==> NoRepeats(data)
  {
    if data != [] {
      var last := |data| - 1;
      OccurringSize(data[..last]);
      ElementsSize(data[last]);
      NoRepeatsSplit(data);
      var a, b := Occurring(data[..last]), Elements(data[last]);
      assert |a + b| + |a * b| == |a| + |b|;
      if a * b != {} {
        var x :| x in a * b;
        assert {x} <= a * b;
      }
    }
  }

  /** The grouped middleware's flattening loop: adds every element of every array, in order,
      to a set. */
  method CollectDistinct<E(==)>(data: seq<seq<E>>) returns (result: set<E>)
    ensures result == Occurring(data)
  {
    result := {};
    for m := 0 to |data|
      invariant result == Occurring(data[..m])
    {
      for n := 0 to |data[m]|
        invariant result == Occurring(data[..m]) + Elements(data[m][..n])
      {
        result := result + {data[m][n]};
        assert data[m][..n + 1] == data[m][..n] + [data[m][n]];
      }
      assert data[..m + 1][..m] == data[..m];
      assert data[m][..|data[m]|] == data[m];
    }
    assert data[..|data|] == data;
  }

  /** What the plain middleware leaves in the field after the rest of the pipeline produced
      `r`: a key becomes its value; a key collection becomes the values of its keys, one per
      key in key order, duplicates kept; anything else is untouched. */
  function PlainOutcome<K, V(==)>(r: FieldResult<K, V>, load: K -> V): (o: FieldResult<K, V>)
    ensures r.Key? ==> o == Value(load(r.key))
    ensures r.Keys? ==>
      && o.Values?
      && |o.values| == |r.keys|
      && forall i :: 0 <= i < |r.keys| ==> o.values[i] == load(r.keys[i])
    ensures !r.IsKeyShaped() ==> o == r
  {
    match r
    case Keys(keys) => Values(LoadMany(load, keys))
    case Key(key) => Value(load(key))
    case _ => r
  }

  /** What the grouped middleware leaves in the field: a key collection becomes a set (its
      members are given by `GroupedMembers`), a key becomes its array, and anything else is
      untouched. */
  ghost function GroupedOutcome<K, E>(r: FieldResult<K, E>, load: K -> seq<E>): (o: FieldResult<K, E>)
    ensures r.Keys? ==> o.ValueSet?
    ensures r.Key? ==> o == Values(load(r.key))
    ensures !r.IsKeyShaped() ==> o == r
  {
    match r
    case Keys(keys) => ValueSet(Occurring(LoadMany(load, keys)))
    case Key(key) => Values(load(key))
    case _ => r
  }

  /** The grouped result of a key collection holds exactly those elements that occur in the
      array loaded for some key. */
  lemma GroupedMembers<K, E>(keys: seq<K>, load: K -> seq<E>)
    ensures forall x :: x in GroupedOutcome(Keys(keys), load).members <==>
      exists i, n :: 0 <= i < |keys| && 0 <= n < |load(keys[i])| && load(keys[i])[n] == x
  {
    var data := LoadMany(load, keys);
    forall x ensures x in Occurring(data) <==>
      exists i, n :: 0 <= i < |keys| && 0 <= n < |load(keys[i])| && load(keys[i])[n] == x
    {
      OccurringMembers(data, x);
    }
  }

  /** Deduplication: the grouped result of a key collection has no more members than the
      loaded arrays have elements together, exactly as many when no element stands at two
      positions, and strictly fewer when one does, even under two different keys. */
  lemma GroupedDeduplicates<K, E>(keys: seq<K>, load: K -> seq<E>)
    ensures |GroupedOutcome(Keys(keys), load).members| <= TotalLength(LoadMany(load, keys))
    ensures |GroupedOutcome(Keys(keys), load).members| == TotalLength(LoadMany(load, keys))
            <==> NoRepeats(LoadMany(load, keys))
    ensures !NoRepeats(LoadMany(load, keys)) ==>
            |GroupedOutcome(Keys(keys), load).members| < TotalLength(LoadMany(load, keys))
  {
    OccurringSize(LoadMany(load, keys));
  }

  /** The loader of the example below: key 1 has [A], key 3 has [C], every other key [B]. */
  function ExampleLoad(k: int): seq<char> {
    if k == 1 then ['A'] else if k == 3 then ['C'] else ['B']
  }

  /** Keys [1, 2, 2, 3] whose arrays are [A], [B], [B], [C] give {A, B, C}: B, reached
      through the repeated key, is present once. */
  lemma GroupedExample()
    ensures GroupedOutcome(Keys([1, 2, 2, 3]), ExampleLoad) == ValueSet({'A', 'B', 'C'})
  {
    var data := LoadMany(ExampleLoad, [1, 2, 2, 3]);
    assert data == [['A'], ['B'], ['B'], ['C']];
    assert data[..3][..2][..1] == [['A']];
    assert data[..3][..2] == [['A'], ['B']];
    assert data[..3] == [['A'], ['B'], ['B']];
    assert Elements(['A']) == {'A'} && Elements(['B']) == {'B'} && Elements(['C']) == {'C'};
    assert Occurring(data[..3][..2][..1]) == {'A'};
    assert Occurring(data[..3][..2]) == {'A', 'B'};
    assert Occurring(data[..3]) == {'A', 'B'};
    assert Occurring(data) == {'A', 'B', 'C'};
  }

  /** The result slot of one field execution. */
  class MiddlewareContext<K, V(==)> {
    var result: FieldResult<K, V>

    constructor (result: FieldResult<K, V>)
      ensures this.result == result
    {
      this.result := result;
    }
  }

  /** `GroupedDataLoaderMiddleware<TDataLoader, TKey, TValue>`: the loader maps a key to an
      array of values. */
  class GroupedDataLoaderMiddleware<K, E(==)> {
    /** The rest of the field's pipeline, as its effect on the result. */
    const next: FieldResult<K, E> -> FieldResult<K, E>

    constructor (next: FieldResult<K, E> -> FieldResult<K, E>)
      ensures this.next == next
    {
      this.next := next;
    }

    method InvokeAsync(context: MiddlewareContext<K, E>, dataLoader: K -> seq<E>)
      modifies context
      ensures context.result == GroupedOutcome(next(old(context.result)), dataLoader)
    {
      context.result := next(context.result);
      match context.result {
        case Keys(values) =>
          var data := LoadMany(dataLoader, values);
          var result := CollectDistinct(data);
          context.result := ValueSet(result);
        case Key(value) =>
          context.result := Values(dataLoader(value));
        case _ =>
      }
    }
  }

  /** `DataLoaderMiddleware<TDataLoader, TKey, TValue>`: the loader maps a key to one value. */
  class DataLoaderMiddleware<K, V(==)> {
    /** The rest of the field's pipeline, as its effect on the result. */
    const next: FieldResult<K, V> -> FieldResult<K, V>

    constructor (next: FieldResult<K, V> -> FieldResult<K, V>)
      ensures this.next == next
    {
      this.next := next;
    }

    method InvokeAsync(context: MiddlewareContext<K, V>, dataLoader: K -> V)
      modifies context
      ensures context.result == PlainOutcome(next(old(context.result)), dataLoader)
    {
      context.result := next(context.result);
      match context.result {
        case Keys(values) =>
          context.result := Values(LoadMany(dataLoader, values));
        case Key(value) =>
          context.result := Value(dataLoader(value));
        case _ =>
      }
    }
  }
}
