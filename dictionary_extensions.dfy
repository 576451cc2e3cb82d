/** GingerTemplate.Core.Extensions.DictionaryExtensions: merging two
    dictionaries, the second one's entries overwriting the first's. */
module DictionaryExtensions {

  /** `MergeDictionaries`: copies `first`, then writes every entry of `second`
      over the copy. Both inputs are values here, so neither can change. */
  method MergeDictionaries<K, V>(first: map<K, V>, second: map<K, V>) returns (result: map<K, V>)
    ensures result.Keys == first.Keys + second.Keys
    ensures forall k :: k in second ==> result[k] == second[k]
    ensures forall k :: k in first && k !in second ==> result[k] == first[k]
    ensures second == map[] ==> result == first
  {
    result := first;
    var pending := second.Keys;
    while pending != {}
      invariant pending <= second.Keys
      invariant result.Keys == first.Keys + (second.Keys - pending)
      invariant forall k :: k in second && k !in pending ==> result[k] == second[k]
      invariant forall k :: k in first && k !in second ==> result[k] == first[k]
      invariant pending == second.Keys ==> result == first
      decreases pending
    {
      var k :| k in pending;
      result := result[k := second[k]];
      pending := pending - {k};
    }
  }
}
