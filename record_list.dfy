/**
 * Deleting a record from a table's list: `prev.filter((d) => d.id !== x.id)`,
 * generic over how a record's numeric `id` is read.
 */
module RecordList {

  /** The records of `s` whose id is not `id`, in their original order. */
  function RemoveId<T(!new)>(s: seq<T>, idOf: T -> int, id: int): (r: seq<T>)
    ensures |r| <= |s|
    ensures forall x :: x in r <==> x in s && idOf(x) != id
  {
    if s == [] then []
    else (if idOf(s[0]) != id then [s[0]] else []) + RemoveId(s[1..], idOf, id)
  }

  /**
   * Filtering commutes with concatenation: every record is kept or dropped
   * on its own, so the kept records stay in their original relative order.
   */
  lemma {:induction false} RemoveIdAppend<T(!new)>(a: seq<T>, b: seq<T>, idOf: T -> int, id: int)
    ensures RemoveId(a + b, idOf, id) == RemoveId(a, idOf, id) + RemoveId(b, idOf, id)
  {
    if a == [] {
      assert a + b == b;
    } else {
      assert (a + b)[1..] == a[1..] + b;
      RemoveIdAppend(a[1..], b, idOf, id);
    }
  }

  /** A list with no record of that id is left exactly as it was. */
  lemma {:induction false} RemoveIdAbsent<T(!new)>(s: seq<T>, idOf: T -> int, id: int)
    requires forall k :: 0 <= k < |s| ==> idOf(s[k]) != id
    ensures RemoveId(s, idOf, id) == s
  {
    if s != [] {
      RemoveIdAbsent(s[1..], idOf, id);
    }
  }

  /** Deleting the same id twice removes nothing more. */
  lemma RemoveIdIdempotent<T(!new)>(s: seq<T>, idOf: T -> int, id: int)
    ensures RemoveId(RemoveId(s, idOf, id), idOf, id) == RemoveId(s, idOf, id)
  {
    var r := RemoveId(s, idOf, id);
    forall k | 0 <= k < |r| ensures idOf(r[k]) != id {
      assert r[k] in r;
    }
    RemoveIdAbsent(r, idOf, id);
  }

  /** Exactly the records carrying `id` are removed: one fewer per match. */
  lemma {:induction false} RemoveIdCount<T(!new)>(s: seq<T>, idOf: T -> int, id: int)
    ensures |RemoveId(s, idOf, id)| == |s| - Matches(s, idOf, id)
  {
    if s != [] {
      RemoveIdCount(s[1..], idOf, id);
    }
  }

  /** How many records of `s` carry `id`. */
  function Matches<T>(s: seq<T>, idOf: T -> int, id: int): (r: nat)
    ensures r <= |s|
    ensures r == 0 <==> forall k :: 0 <= k < |s| ==> idOf(s[k]) != id
  {
    if s == [] then 0
    else (if idOf(s[0]) == id then 1 else 0) + Matches(s[1..], idOf, id)
  }
}
