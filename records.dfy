/** What both managers do the same way on an ordered collection of records keyed
    by integer ids: find the first record with a key, and number a new record. */
module Records {

  /** Position of the first occurrence of `k` in `keys`, or -1 when there is none:
      JavaScript's `findIndex(x => x.key === k)` over the keys of the records,
      and the position behind `find`. */
  function IndexOf(keys: seq<int>, k: int): (i: int)
    ensures -1 <= i < |keys|
    ensures i == -1 <==> k !in keys
    ensures 0 <= i ==> keys[i] == k && k !in keys[..i]
  {
    if keys == [] then -1
    else if keys[0] == k then 0
    else
      var j := IndexOf(keys[1..], k);
      if j == -1 then -1 else j + 1
  }

  /** Ids that grow strictly along the collection, as they do when every record
      is created by the managers and never reordered. */
  ghost predicate Increasing(ids: seq<int>) {
    forall i, j :: 0 <= i < j < |ids| ==> ids[i] < ids[j]
  }

  /** The id given to a new record: the id of the LAST record plus one, or 1 when
      the collection is empty. When the ids increase, that is the largest id plus
      one, so the new id is fresh and the ids keep increasing. */
  function NextId(ids: seq<int>): (n: int)
    ensures Increasing(ids) ==> n !in ids && Increasing(ids + [n])
    ensures Increasing(ids) && ids != [] ==> n - 1 in ids && forall k :: k in ids ==> k < n
  {
    if |ids| == 0 then 1 else ids[|ids| - 1] + 1
  }

  /** When the stored ids do not increase (a file edited by hand), the new id can
      collide with a stored one: here the last id is 1 and the id 2 is taken. */
  lemma NextIdCollidesWhenUnordered()
    ensures NextId([2, 1]) in [2, 1]
  {
  }
}
