/**
 * Re-keying a fetched collection by id, as `GetAllRockets`,
 * `GetAllCrewMembers` and `GetAllLaunchpads` do: each element is stored under
 * its id in list order, so on a repeated id the later element wins.
 */
module Reindex {

  /** The map after storing every element of `items`, front to back. */
  function Indexed<E>(items: seq<E>, key: E -> string): map<string, E>
    decreases |items|
  {
    if |items| == 0 then map[]
    else Indexed(items[..|items| - 1], key)[key(items[|items| - 1]) := items[|items| - 1]]
  }

  /** `i` is the last position of `items` whose key is `k`. */
  predicate LastWithKey<E>(items: seq<E>, key: E -> string, k: string, i: int) {
    && 0 <= i < |items| && key(items[i]) == k
    && forall j :: i < j < |items| ==> key(items[j]) != k
  }

  /**
   * A key is present exactly when some element has it, and it maps to the
   * last element that has it.
   */
  lemma {:induction false} IndexedLookup<E>(items: seq<E>, key: E -> string, k: string)
    ensures k in Indexed(items, key) <==> exists i :: 0 <= i < |items| && key(items[i]) == k
    ensures forall i :: LastWithKey(items, key, k, i) ==> Indexed(items, key)[k] == items[i]
    decreases |items|
  {
    if |items| > 0 {
      var init := items[..|items| - 1];
      IndexedLookup(init, key, k);
      if key(items[|items| - 1]) != k {
        forall i | 0 <= i < |items| && key(items[i]) == k ensures 0 <= i < |init| && key(init[i]) == k {
        }
        forall i | LastWithKey(items, key, k, i) ensures LastWithKey(init, key, k, i) {
        }
      }
    }
  }

  /** Every stored element is stored under its own id. */
  lemma IndexedKeysMatch<E>(items: seq<E>, key: E -> string, k: string)
    requires k in Indexed(items, key)
    ensures key(Indexed(items, key)[k]) == k
  {
    IndexedLookup(items, key, k);
    var i :| 0 <= i < |items| && key(items[i]) == k;
    var last := LastOf(items, key, k, i);
  }

  /** The last position with key `k`, found from a position that has it. */
  ghost function LastOf<E>(items: seq<E>, key: E -> string, k: string, i: nat): (last: nat)
    requires i < |items| && key(items[i]) == k
    ensures i <= last && LastWithKey(items, key, k, last)
    decreases |items| - i
  {
    if exists j :: i < j < |items| && key(items[j]) == k then
      var j :| i < j < |items| && key(items[j]) == k;
      LastOf(items, key, k, j)
    else i
  }

  /** The accessor loop: `m[item.ID] = item` for each item in order. */
  method IndexById<E>(items: seq<E>, key: E -> string) returns (m: map<string, E>)
    ensures m == Indexed(items, key)
    ensures forall k :: k in m <==> exists i :: 0 <= i < |items| && key(items[i]) == k
    ensures forall k :: k in m ==> key(m[k]) == k
  {
    m := map[];
    for n := 0 to |items|
      invariant m == Indexed(items[..n], key)
    {
      assert items[..n + 1][..n] == items[..n];
      m := m[key(items[n]) := items[n]];
    }
    assert items[..|items|] == items;
    forall k ensures k in m <==> exists i :: 0 <= i < |items| && key(items[i]) == k {
      IndexedLookup(items, key, k);
    }
    forall k | k in m ensures key(m[k]) == k {
      IndexedKeysMatch(items, key, k);
    }
  }
}
