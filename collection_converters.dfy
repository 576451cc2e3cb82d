/** GingerTemplate.Core.Converters.CollectionConverters: conversions that treat
    a null source as empty. A source is an `Option` of the sequence it
    enumerates. */
module CollectionConverters {
  import opened Base

  /** `ToHashSetSafe` with the default comparer. */
  function ToHashSetSafe<T>(source: Option<seq<T>>): (r: set<T>)
    ensures source.None? ==> r == {}
    ensures source.Some? ==> forall x | x in r :: x in source.value
    ensures source.Some? ==> forall i | 0 <= i < |source.value| :: source.value[i] in r
  {
    if source.None? then {} else set x | x in source.value
  }

  /** `ToListSafe`. */
  function ToListSafe<T>(source: Option<seq<T>>): (r: seq<T>)
    ensures source.None? ==> r == []
    ensures source.Some? ==> |r| == |source.value|
    ensures source.Some? ==> forall i :: 0 <= i < |r| ==> r[i] == source.value[i]
  {
    if source.None? then [] else source.value
  }

  /** `ToArraySafe`: the elements in order. `empty` is the one shared
      `Array.Empty<T>()` instance, which is what null and an empty source
      give; any other source gives a fresh array. */
  method ToArraySafe<T>(source: Option<seq<T>>, empty: array<T>) returns (a: array<T>)
    requires empty.Length == 0
    ensures ToListSafe(source) == [] ==> a == empty
    ensures ToListSafe(source) != [] ==> fresh(a)
    ensures a[..] == ToListSafe(source)
  {
    var s := ToListSafe(source);
    if s == [] {
      return empty;
    }
    a := new T[|s|](i requires 0 <= i < |s| => s[i]);
  }

  /** The keys of the first `n` items. */
  ghost function KeysOf<S, K>(items: seq<S>, keySelector: S -> K, n: int): set<K>
    requires 0 <= n <= |items|
  {
    set i | 0 <= i < n :: keySelector(items[i])
  }

  lemma {:induction false} KeysOfStep<S, K>(items: seq<S>, keySelector: S -> K, n: int)
    requires 0 <= n < |items|
    ensures KeysOf(items, keySelector, n + 1) == KeysOf(items, keySelector, n) + {keySelector(items[n])}
  {
    var next := KeysOf(items, keySelector, n + 1);
    forall k | k in next
      ensures k in KeysOf(items, keySelector, n) + {keySelector(items[n])}
    {
      var i :| 0 <= i < n + 1 && k == keySelector(items[i]);
      if i < n {
        assert k in KeysOf(items, keySelector, n);
      }
    }
  }

  /** Item `i` is the last of `items[..n]` with its key. */
  ghost predicate LastWithKeyBefore<S, K>(items: seq<S>, keySelector: S -> K, i: int, n: int)
    requires 0 <= i < n <= |items|
  {
    forall j :: i < j < n ==> keySelector(items[j]) != keySelector(items[i])
  }

  /** What the dictionary holds after the first `n` items: their keys, each
      mapped to the element of the last item with that key. */
  ghost predicate FilledUpTo<S, K, E>(items: seq<S>, keySelector: S -> K, elementSelector: S -> E, n: int, dictionary: map<K, E>)
    requires 0 <= n <= |items|
  {
    && dictionary.Keys == KeysOf(items, keySelector, n)
    && forall i | 0 <= i < n && LastWithKeyBefore(items, keySelector, i, n) ::
         dictionary[keySelector(items[i])] == elementSelector(items[i])
  }

  /** Assigning item `n`'s key keeps the dictionary filled, one item further. */
  lemma {:induction false} FillStep<S, K, E>(items: seq<S>, keySelector: S -> K, elementSelector: S -> E, n: int, dictionary: map<K, E>)
    requires 0 <= n < |items|
    requires FilledUpTo(items, keySelector, elementSelector, n, dictionary)
    ensures FilledUpTo(items, keySelector, elementSelector, n + 1,
                       dictionary[keySelector(items[n]) := elementSelector(items[n])])
  {
    var next := dictionary[keySelector(items[n]) := elementSelector(items[n])];
    KeysOfStep(items, keySelector, n);
    forall i | 0 <= i < n + 1 && LastWithKeyBefore(items, keySelector, i, n + 1)
      ensures next[keySelector(items[i])] == elementSelector(items[i])
    {
      if i < n {
        assert keySelector(items[n]) != keySelector(items[i]);
        assert LastWithKeyBefore(items, keySelector, i, n);
      }
    }
  }

  /** `ToDictionarySafe` with the default comparer: indexer assignment for each
      item in order, so on a repeated key the last item wins and nothing throws. */
  method ToDictionarySafe<S, K, E>(source: Option<seq<S>>, keySelector: S -> K, elementSelector: S -> E)
    returns (dictionary: map<K, E>)
    ensures source.None? ==> dictionary == map[]
    ensures source.Some? ==>
      dictionary.Keys == set i | 0 <= i < |source.value| :: keySelector(source.value[i])
    ensures source.Some? ==>
              forall i | 0 <= i < |source.value| && LastWithKeyBefore(source.value, keySelector, i, |source.value|) ::
                dictionary[keySelector(source.value[i])] == elementSelector(source.value[i])
  {
    dictionary := map[];
    if source.None? {
      return;
    }
    var items := source.value;
    var n := 0;
    while n < |items|
      invariant 0 <= n <= |items|
      invariant FilledUpTo(items, keySelector, elementSelector, n, dictionary)
    {
      FillStep(items, keySelector, elementSelector, n, dictionary);
      dictionary := dictionary[keySelector(items[n]) := elementSelector(items[n])];
      n := n + 1;
    }
  }
}
