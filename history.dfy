/**
  The capped, newest-first completion history kept by the hub
  (server/index.js, `handleCompletion`) and mirrored by the dashboard
  (dashboard/app.js, the `COMPLETION` message): `unshift` the new entry, then
  keep the first `cap` entries.
 */
module History {

  /** `list.unshift(x); if (list.length > cap) list = list.slice(0, cap)`. */
  function PrependCapped<T>(list: seq<T>, x: T, cap: nat): (r: seq<T>)
    requires cap >= 1
    ensures |r| == if |list| + 1 <= cap then |list| + 1 else cap
    ensures r[0] == x
    ensures forall i :: 1 <= i < |r| ==> r[i] == list[i - 1]
  {
    var grown := [x] + list;
    if |grown| > cap then grown[..cap] else grown
  }

  /** The capped list never grows past the cap and loses only its oldest entry when full. */
  lemma PrependCappedBounded<T>(list: seq<T>, x: T, cap: nat)
    requires cap >= 1 && |list| <= cap
    ensures |PrependCapped(list, x, cap)| <= cap
    ensures |list| < cap ==> PrependCapped(list, x, cap) == [x] + list
    ensures |list| == cap ==> PrependCapped(list, x, cap) == [x] + list[..cap - 1]
  {
    var r := PrependCapped(list, x, cap);
    if |list| < cap {
      assert r == [x] + list;
    } else {
      assert r == [x] + list[..cap - 1];
    }
  }

  /** Keys that never increase along the list: newest first. */
  predicate NewestFirst<T>(list: seq<T>, key: T -> int) {
    forall i, j :: 0 <= i < j < |list| ==> key(list[i]) >= key(list[j])
  }

  /** Prepending an entry at least as new as the head keeps the list newest first. */
  lemma PrependCappedNewestFirst<T>(list: seq<T>, x: T, cap: nat, key: T -> int)
    requires cap >= 1
    requires NewestFirst(list, key)
    requires |list| > 0 ==> key(x) >= key(list[0])
    ensures NewestFirst(PrependCapped(list, x, cap), key)
  {
    var r := PrependCapped(list, x, cap);
    forall i, j | 0 <= i < j < |r| ensures key(r[i]) >= key(r[j]) {
      if i == 0 {
        assert key(list[0]) >= key(list[j - 1]) || j - 1 == 0;
      }
    }
  }
}
