/** LIMIT and OFFSET. */
module Paging {
  function Window<T>(q: seq<T>, offset: nat, limit: nat): seq<T> {
    if offset >= |q| then []
    else if offset + limit <= |q| then q[offset..offset + limit]
    else q[offset..]
  }

  /** At most `limit` items, fewer only at the end, the first of them at position `offset`. */
  lemma {:induction false} WindowIs<T>(q: seq<T>, offset: nat, limit: nat)
    ensures |Window(q, offset, limit)| <= limit
    ensures |q| - offset <= limit ==> |Window(q, offset, limit)| == if offset <= |q| then |q| - offset else 0
    ensures |q| - offset > limit ==> |Window(q, offset, limit)| == limit
    ensures forall i :: 0 <= i < |Window(q, offset, limit)| ==>
              offset + i < |q| && Window(q, offset, limit)[i] == q[offset + i]
  {
  }
}
