/** `std::list::sort`, as far as its callers can tell: a stable sort by a key. */
module StableSort {

  function Insert<T>(key: T -> int, g: T, sorted: seq<T>): seq<T> {
    if sorted == [] then [g]
    else if key(sorted[0]) < key(g) then [sorted[0]] + Insert(key, g, sorted[1..])
    else [g] + sorted
  }

  function Sort<T>(key: T -> int, list: seq<T>): seq<T> {
    if list == [] then [] else Insert(key, list[0], Sort(key, list[1..]))
  }

  ghost predicate Sorted<T>(key: T -> int, list: seq<T>) {
    forall i, j :: 0 <= i < j < |list| ==> key(list[i]) <= key(list[j])
  }

  /** The elements of one key, in the order of the list. */
  function OfKey<T>(key: T -> int, list: seq<T>, k: int): seq<T> {
    if list == [] then []
    else if key(list[0]) == k then [list[0]] + OfKey(key, list[1..], k)
    else OfKey(key, list[1..], k)
  }

  lemma {:induction false} InsertKeeps<T>(key: T -> int, g: T, sorted: seq<T>)
    ensures multiset(Insert(key, g, sorted)) == multiset(sorted) + multiset{g}
  {
    if sorted != [] && key(sorted[0]) < key(g) {
      InsertKeeps(key, g, sorted[1..]);
      assert sorted == [sorted[0]] + sorted[1..];
    }
  }

  lemma {:induction false} InsertSorted<T>(key: T -> int, g: T, sorted: seq<T>)
    requires Sorted(key, sorted)
    ensures Sorted(key, Insert(key, g, sorted))
  {
    if sorted != [] && key(sorted[0]) < key(g) {
      InsertSorted(key, g, sorted[1..]);
      InsertKeeps(key, g, sorted[1..]);
      var r := Insert(key, g, sorted[1..]);
      forall i | 0 <= i < |r|
        ensures key(sorted[0]) <= key(r[i])
      {
        assert r[i] in multiset(r);
        assert r[i] == g || r[i] in sorted[1..];
      }
    }
  }

  lemma {:induction false} InsertStable<T>(key: T -> int, g: T, sorted: seq<T>, k: int)
    ensures OfKey(key, Insert(key, g, sorted), k) == (if key(g) == k then [g] else []) + OfKey(key, sorted, k)
  {
    if sorted != [] && key(sorted[0]) < key(g) {
      InsertStable(key, g, sorted[1..], k);
      assert Insert(key, g, sorted)[1..] == Insert(key, g, sorted[1..]);
      NoneOfKey(key, sorted, g, k);
    } else {
      assert Insert(key, g, sorted)[1..] == sorted;
    }
  }

  lemma NoneOfKey<T>(key: T -> int, sorted: seq<T>, g: T, k: int)
    requires sorted != [] && key(sorted[0]) < key(g)
    ensures key(sorted[0]) == k ==> key(g) != k
  {
  }

  /** The sorted list is sorted, has the same elements, and keeps those of equal key in
      their order. */
  lemma {:induction false} SortSpec<T>(key: T -> int, list: seq<T>)
    ensures Sorted(key, Sort(key, list)) && multiset(Sort(key, list)) == multiset(list)
    ensures forall k :: OfKey(key, Sort(key, list), k) == OfKey(key, list, k)
  {
    if list != [] {
      SortSpec(key, list[1..]);
      InsertSorted(key, list[0], Sort(key, list[1..]));
      InsertKeeps(key, list[0], Sort(key, list[1..]));
      assert list == [list[0]] + list[1..];
      forall k
        ensures OfKey(key, Sort(key, list), k) == OfKey(key, list, k)
      {
        InsertStable(key, list[0], Sort(key, list[1..]), k);
      }
    }
  }
}
