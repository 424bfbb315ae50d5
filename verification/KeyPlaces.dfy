/** Where the last item of each key stands in a list, and the map of places the merges keep
    (memory/merge.go:914-952, 1026-1046). */
module KeyPlaces {
  /** The last item under a key, or the end. */
  function LastPlace<T>(keyOf: T -> string, items: seq<T>, key: string): (i: nat)
    ensures i <= |items|
    ensures i < |items| ==> keyOf(items[i]) == key
    ensures forall k :: (if i < |items| then i < k else 0 <= k) && k < |items| ==> keyOf(items[k]) != key
  {
    if items == [] then 0
    else
      var n := |items| - 1;
      if keyOf(items[n]) == key then n
      else
        var i := LastPlace(keyOf, items[..n], key);
        if i < n then i else |items|
  }

  lemma LastPlaceIs<T>(keyOf: T -> string, items: seq<T>, key: string, i: nat)
    requires i <= |items| && (i < |items| ==> keyOf(items[i]) == key)
    requires forall k :: (if i < |items| then i < k else 0 <= k) && k < |items| ==> keyOf(items[k]) != key
    ensures LastPlace(keyOf, items, key) == i
  {
  }

  lemma LastPlaceReplaced<T>(keyOf: T -> string, items: seq<T>, i: nat, it: T, key: string)
    requires i < |items| && keyOf(it) == keyOf(items[i])
    ensures LastPlace(keyOf, items[i := it], key) == LastPlace(keyOf, items, key)
  {
    var r := items[i := it];
    assert forall k :: 0 <= k < |items| ==> keyOf(r[k]) == keyOf(items[k]);
    LastPlaceIs(keyOf, r, key, LastPlace(keyOf, items, key));
  }

  lemma LastPlaceAppended<T>(keyOf: T -> string, items: seq<T>, it: T, key: string)
    ensures LastPlace(keyOf, items + [it], key)
         == if keyOf(it) == key then |items|
            else if LastPlace(keyOf, items, key) < |items| then LastPlace(keyOf, items, key) else |items| + 1
  {
    assert (items + [it])[..|items|] == items;
  }

  /** The map holds each key's last place. */
  ghost predicate Indexes<T(!new)>(keyOf: T -> string, index: map<string, nat>, items: seq<T>) {
    forall key :: if key in index then index[key] < |items| && LastPlace(keyOf, items, key) == index[key]
                  else LastPlace(keyOf, items, key) == |items|
  }

  lemma IndexesAt<T(!new)>(keyOf: T -> string, index: map<string, nat>, items: seq<T>, key: string)
    requires Indexes(keyOf, index, items)
    ensures key in index <==> LastPlace(keyOf, items, key) < |items|
    ensures key in index ==> LastPlace(keyOf, items, key) == index[key]
  {
    assert if key in index then LastPlace(keyOf, items, key) == index[key] else LastPlace(keyOf, items, key) == |items|;
  }

  lemma IndexesAppended<T(!new)>(keyOf: T -> string, index: map<string, nat>, items: seq<T>, it: T)
    requires Indexes(keyOf, index, items)
    ensures Indexes(keyOf, index[keyOf(it) := |items|], items + [it])
  {
    var more := items + [it];
    forall key ensures LastPlace(keyOf, more, key)
                    == if key == keyOf(it) then |items| else if key in index then index[key] else |more| {
      IndexesAt(keyOf, index, items, key);
      LastPlaceAppended(keyOf, items, it, key);
    }
  }

  lemma IndexesReplaced<T(!new)>(keyOf: T -> string, index: map<string, nat>, items: seq<T>, i: nat, it: T)
    requires Indexes(keyOf, index, items) && i < |items| && keyOf(it) == keyOf(items[i])
    ensures Indexes(keyOf, index, items[i := it])
  {
    forall key ensures LastPlace(keyOf, items[i := it], key) == LastPlace(keyOf, items, key) {
      LastPlaceReplaced(keyOf, items, i, it, key);
    }
  }
}
