/** The id counters. `Identity` (with `next`) and `IdGenerator` (with
    `nextId`) are two copies of the same pre-increment counter; both are
    modelled by `Counter`, threaded through calls as a value. */
module Ids {

  const DEFAULT_START: int := 1000

  datatype Counter = Counter(currentId: int) {

    /** `++currentId`: the advanced counter and the id it hands out. */
    function Next(): (res: (Counter, int))
      ensures res.1 == currentId + 1
      ensures res.0.currentId == res.1
      ensures res.1 > currentId
    {
      var id := currentId + 1;
      (Counter(id), id)
    }
  }

  /** The constructor, with the default start of 1000. */
  function New(start: int := DEFAULT_START): (c: Counter)
    ensures c.currentId == start
  {
    Counter(start)
  }

  /** The ids handed out by `n` successive calls, in call order. */
  function Draw(c: Counter, n: nat): (res: (Counter, seq<int>))
    ensures |res.1| == n
    ensures res.0.currentId == c.currentId + n
    decreases n
  {
    if n == 0 then (c, [])
    else
      var (c', id) := c.Next();
      var (c'', rest) := Draw(c', n - 1);
      (c'', [id] + rest)
  }

  /** With start `s`, the k-th call (counting from 1) returns `s + k`. */
  lemma {:induction false} DrawKth(c: Counter, n: nat)
    ensures forall k :: 0 <= k < n ==> Draw(c, n).1[k] == c.currentId + k + 1
    decreases n
  {
    if n > 0 {
      var (c', _) := c.Next();
      DrawKth(c', n - 1);
    }
  }

  /** Ids are strictly increasing in call order, hence never repeat. */
  lemma DrawStrictlyIncreasing(c: Counter, n: nat)
    ensures forall i, j :: 0 <= i < j < n ==> Draw(c, n).1[i] < Draw(c, n).1[j]
    ensures forall i, j :: 0 <= i < n && 0 <= j < n && i != j ==> Draw(c, n).1[i] != Draw(c, n).1[j]
  {
    DrawKth(c, n);
  }

  /** A fresh counter's first id is 1001. */
  lemma FirstIdIs1001()
    ensures New().Next().1 == 1001
    ensures Draw(New(), 1).1 == [1001]
  {
  }

  /** The loop a caller writes to obtain `n` ids; it agrees with `Draw`. */
  method NextIds(c: Counter, n: nat) returns (c': Counter, ids: seq<int>)
    ensures |ids| == n
    ensures forall k :: 0 <= k < n ==> ids[k] == c.currentId + k + 1
    ensures c'.currentId == c.currentId + n
  {
    c' := c;
    ids := [];
    var i := 0;
    while i < n
      invariant 0 <= i <= n
      invariant |ids| == i
      invariant c'.currentId == c.currentId + i
      invariant forall k :: 0 <= k < i ==> ids[k] == c.currentId + k + 1
    {
      var id;
      c', id := c'.Next().0, c'.Next().1;
      ids := ids + [id];
      i := i + 1;
    }
  }
}
