/** Copying a received payload into a list of buffers, as `copy_data_to_iov` does in place. */
module Scatter {
  import opened Wrappers
  import opened StatusWords

  type Byte = bv8

  /** All bytes of the buffers, in order; its length is their total capacity. */
  function Concat(bufs: seq<seq<Byte>>): seq<Byte> {
    if bufs == [] then [] else Concat(bufs[..|bufs| - 1]) + bufs[|bufs| - 1]
  }

  /** How many buffers come before the first empty one. */
  function UsableCount(bufs: seq<seq<Byte>>): (n: nat)
    ensures n <= |bufs|
    ensures forall i :: 0 <= i < n ==> bufs[i] != []
    ensures n < |bufs| ==> bufs[n] == []
  {
    if bufs == [] then 0
    else if bufs[0] == [] then 0
    else 1 + UsableCount(bufs[1..])
  }

  /** The bytes before the first empty buffer, which is all that the copy can reach. */
  function Reachable(bufs: seq<seq<Byte>>): seq<Byte> {
    Concat(bufs[..UsableCount(bufs)])
  }

  function Min(a: nat, b: nat): nat {
    if a <= b then a else b
  }

  ghost predicate SameShape(before: seq<seq<Byte>>, after: seq<seq<Byte>>) {
    |after| == |before| && forall i :: 0 <= i < |before| ==> |after[i]| == |before[i]|
  }

  /** What one successful call leaves in the buffers, said of their concatenation. */
  ghost predicate Scattered(data: seq<Byte>, before: seq<seq<Byte>>, after: seq<seq<Byte>>, copied: nat) {
    && SameShape(before, after)
    && copied == Min(|data|, |Reachable(before)|)
    && copied <= |Concat(before)|
    && Concat(after) == data[..copied] + Concat(before)[copied..]
  }

  /**
   What one call does. On truncation nothing is written. Otherwise the result is how many bytes were
   copied: all of them, unless an empty buffer comes before enough room, since the loop stops there.
   */
  ghost predicate CopyOutcome(
      data: seq<Byte>, before: seq<seq<Byte>>, after: seq<seq<Byte>>, result: Result<nat, Error>)
  {
    if |Concat(before)| < |data| then
      result == Failure(Error(UCS_ERR_MESSAGE_TRUNCATED)) && after == before
    else
      result.Success? && Scattered(data, before, after, result.value)
  }

  ghost function Contents(iov: seq<array<Byte>>): (bufs: seq<seq<Byte>>)
    reads iov
    ensures |bufs| == |iov|
    ensures forall i :: 0 <= i < |iov| ==> bufs[i] == iov[i][..]
  {
    seq(|iov|, i requires 0 <= i < |iov| reads iov => iov[i][..])
  }

  /** The buffers of one call do not overlap. */
  ghost predicate Disjoint(iov: seq<array<Byte>>) {
    forall i, j :: 0 <= i < j < |iov| ==> iov[i] != iov[j]
  }

  // ---- Concatenation ----

  lemma ConcatSnoc(bufs: seq<seq<Byte>>, k: nat)
    requires k < |bufs|
    ensures Concat(bufs[..k + 1]) == Concat(bufs[..k]) + bufs[k]
  {
    assert bufs[..k + 1][..k] == bufs[..k];
  }

  lemma {:induction false} ConcatSplits(bufs: seq<seq<Byte>>, k: nat)
    requires k <= |bufs|
    ensures Concat(bufs) == Concat(bufs[..k]) + Concat(bufs[k..])
  {
    var n := |bufs|;
    if k == n {
      assert bufs[..k] == bufs;
    } else {
      ConcatSplits(bufs[..n - 1], k);
      assert bufs[..n - 1][..k] == bufs[..k];
      assert bufs[k..][..n - k - 1] == bufs[..n - 1][k..];
    }
  }

  lemma PrefixIsShorter(bufs: seq<seq<Byte>>, i: nat, j: nat)
    requires i <= j <= |bufs|
    ensures |Concat(bufs[..i])| <= |Concat(bufs[..j])| <= |Concat(bufs)|
  {
    ConcatSplits(bufs, j);
    ConcatSplits(bufs[..j], i);
    assert bufs[..j][..i] == bufs[..i];
  }

  // ---- The copy on values ----

  /** How many bytes the first `k` buffers take. */
  function Taken(data: seq<Byte>, bufs: seq<seq<Byte>>, k: nat): (n: nat)
    requires k <= |bufs|
    ensures n <= |data|
  {
    Min(|data|, |Concat(bufs[..k])|)
  }

  /** The buffers once the first `k` are filled, each with the next bytes of the data. */
  function Filled(data: seq<Byte>, bufs: seq<seq<Byte>>, k: nat): (after: seq<seq<Byte>>)
    requires k <= |bufs|
    ensures SameShape(bufs, after)
    ensures after[k..] == bufs[k..]
  {
    if k == 0 then bufs else
      var copied := Taken(data, bufs, k - 1);
      var len := Min(|data| - copied, |bufs[k - 1]|);
      var before := Filled(data, bufs, k - 1);
      assert before[k - 1..][1..] == bufs[k..];
      before[k - 1 := data[copied..copied + len] + bufs[k - 1][len..]]
  }

  lemma FilledLeavesTheRest(data: seq<Byte>, bufs: seq<seq<Byte>>, k: nat)
    requires k < |bufs|
    ensures Filled(data, bufs, k)[k] == bufs[k]
  {
    assert Filled(data, bufs, k)[k..][0] == bufs[k..][0];
  }

  /** One turn of the loop that does not stop. */
  lemma {:induction false} FilledNext(data: seq<Byte>, bufs: seq<seq<Byte>>, k: nat, copied: nat, len: nat)
    requires k <= UsableCount(bufs) && k < |bufs|
    requires copied == Taken(data, bufs, k)
    requires len == Min(|data| - copied, |bufs[k]|) && len != 0
    ensures k < UsableCount(bufs)
    ensures copied + len == Taken(data, bufs, k + 1)
    ensures Filled(data, bufs, k + 1) == Filled(data, bufs, k)[k := data[copied..copied + len] + bufs[k][len..]]
  {
    ConcatSnoc(bufs, k);
  }

  /** Filling one more buffer after some that took all the data. */
  lemma FillAfterTheEnd(data: seq<Byte>, front: seq<Byte>, last: seq<Byte>)
    requires |data| <= |front|
    ensures data + front[|data|..] + last == data + (front + last)[|data|..]
  {
    assert (front + last)[|data|..] == front[|data|..] + last;
    assert data + (front[|data|..] + last) == data + front[|data|..] + last;
  }

  /** Filling one more buffer after some that are full. */
  lemma FillTheNext(data: seq<Byte>, front: seq<Byte>, last: seq<Byte>, n: nat)
    requires |front| <= n <= |data| && n <= |front| + |last|
    ensures data[..|front|] + (data[|front|..n] + last[n - |front|..]) == data[..n] + (front + last)[n..]
  {
    assert (front + last)[n..] == last[n - |front|..];
    assert data[..|front|] + data[|front|..n] == data[..n];
  }

  lemma FillNext(
      data: seq<Byte>, front: seq<Byte>, last: seq<Byte>, all: seq<Byte>, filled: seq<Byte>, m: nat, n: nat)
    requires m == Min(|data|, |front|) && n == Min(|data|, |front| + |last|) && all == front + last
    requires filled == data[..m] + front[m..]
    ensures filled + (data[m..n] + last[n - m..]) == data[..n] + all[n..]
  {
    if m == |data| {
      FillAfterTheEnd(data, front, last);
      assert data[..m] == data && data[m..n] == [] && last[n - m..] == last;
    } else {
      FillTheNext(data, front, last, n);
      assert front[m..] == [] && data[..m] + [] == data[..m];
    }
  }

  lemma {:induction false} TakenGrows(data: seq<Byte>, bufs: seq<seq<Byte>>, k: nat)
    requires 0 < k <= |bufs|
    ensures var m, n := Taken(data, bufs, k - 1), Taken(data, bufs, k);
            && n == Min(|data|, |Concat(bufs[..k - 1])| + |bufs[k - 1]|) >= m
            && n - m == Min(|data| - m, |bufs[k - 1]|)
  {
    ConcatSnoc(bufs, k - 1);
  }

  lemma {:induction false} FilledLast(data: seq<Byte>, bufs: seq<seq<Byte>>, k: nat)
    requires 0 < k <= |bufs|
    ensures var m, n := Taken(data, bufs, k - 1), Taken(data, bufs, k);
            && m <= n && n - m <= |bufs[k - 1]|
            && Filled(data, bufs, k)[..k - 1] == Filled(data, bufs, k - 1)[..k - 1]
            && Filled(data, bufs, k)[k - 1] == data[m..n] + bufs[k - 1][n - m..]
  {
    TakenGrows(data, bufs, k);
    var m, n := Taken(data, bufs, k - 1), Taken(data, bufs, k);
    var before := Filled(data, bufs, k - 1);
    assert Filled(data, bufs, k) == before[k - 1 := data[m..n] + bufs[k - 1][n - m..]];
  }

  lemma {:induction false} FilledGrows(data: seq<Byte>, bufs: seq<seq<Byte>>, k: nat)
    requires 0 < k <= |bufs|
    ensures var m, n := Taken(data, bufs, k - 1), Taken(data, bufs, k);
            && n == Min(|data|, |Concat(bufs[..k - 1])| + |bufs[k - 1]|) >= m
            && n - m <= |bufs[k - 1]|
            && Concat(Filled(data, bufs, k)[..k]) ==
               Concat(Filled(data, bufs, k - 1)[..k - 1]) + (data[m..n] + bufs[k - 1][n - m..])
  {
    TakenGrows(data, bufs, k);
    FilledLast(data, bufs, k);
    ConcatSnoc(Filled(data, bufs, k), k - 1);
  }

  /** The filled buffers hold a prefix of the data, in order and without gaps. */
  lemma {:induction false} FilledPrefix(data: seq<Byte>, bufs: seq<seq<Byte>>, k: nat)
    requires k <= |bufs|
    ensures var n := Taken(data, bufs, k);
            Concat(Filled(data, bufs, k)[..k]) == data[..n] + Concat(bufs[..k])[n..]
  {
    if k == 0 {
      assert bufs[..0] == [] && Filled(data, bufs, 0)[..0] == [];
    } else {
      var m, n := Taken(data, bufs, k - 1), Taken(data, bufs, k);
      var front, filled := Concat(bufs[..k - 1]), Concat(Filled(data, bufs, k - 1)[..k - 1]);
      FilledPrefix(data, bufs, k - 1);
      FilledGrows(data, bufs, k);
      ConcatSnoc(bufs, k - 1);
      FillNext(data, front, bufs[k - 1], Concat(bufs[..k]), filled, m, n);
    }
  }

  lemma OverwriteThenAppend(data: seq<Byte>, front: seq<Byte>, back: seq<Byte>, n: nat)
    requires n <= |data| && n <= |front|
    ensures data[..n] + front[n..] + back == data[..n] + (front + back)[n..]
  {
  }

  /** The bytes past the copied prefix are untouched, in the filled buffers and in the rest. */
  lemma FilledIsScattered(data: seq<Byte>, bufs: seq<seq<Byte>>, k: nat)
    requires k <= |bufs|
    requires Taken(data, bufs, k) == Min(|data|, |Reachable(bufs)|)
    ensures Scattered(data, bufs, Filled(data, bufs, k), Taken(data, bufs, k))
  {
    FilledPrefix(data, bufs, k);
    ConcatSplits(bufs, k);
    ConcatSplits(Filled(data, bufs, k), k);
    OverwriteThenAppend(data, Concat(bufs[..k]), Concat(bufs[k..]), Taken(data, bufs, k));
  }

  /** When the loop stops after `k` buffers, it has copied all it can reach. */
  lemma StoppedLoopHasScattered(data: seq<Byte>, bufs: seq<seq<Byte>>, k: nat)
    requires k <= UsableCount(bufs)
    requires k == |bufs| || bufs[k] == [] || Taken(data, bufs, k) == |data|
    ensures Scattered(data, bufs, Filled(data, bufs, k), Taken(data, bufs, k))
  {
    PrefixIsShorter(bufs, k, UsableCount(bufs));
    FilledIsScattered(data, bufs, k);
  }

  // ---- The copy in place ----

  /** The fold that adds up the buffers' lengths. */
  method TotalLength(iov: seq<array<Byte>>) returns (cap: nat)
    ensures cap == |Concat(Contents(iov))|
  {
    cap := 0;
    ghost var bufs := Contents(iov);
    for i := 0 to |iov|
      invariant cap == |Concat(bufs[..i])|
    {
      ConcatSnoc(bufs, i);
      cap := cap + iov[i].Length;
    }
    assert bufs[..|iov|] == bufs;
  }

  /** `copy_nonoverlapping` into the front of one of the buffers. */
  method CopyChunk(data: seq<Byte>, iov: seq<array<Byte>>, i: nat)
    requires Disjoint(iov) && i < |iov| && |data| <= iov[i].Length
    modifies iov[i]
    ensures Contents(iov) == old(Contents(iov))[i := data + old(iov[i][..])[|data|..]]
  {
    var buf := iov[i];
    forall k | 0 <= k < |data| {
      buf[k] := data[k];
    }
    assert buf[..] == data + old(buf[..])[|data|..];
    forall j | 0 <= j < |iov| && j != i ensures iov[j][..] == old(iov[j][..]) {
      assert iov[j] != buf;
    }
  }

  /** The loop that fills the buffers one by one until the data or the room is used up. */
  method FillBuffers(data: seq<Byte>, iov: seq<array<Byte>>) returns (copied: nat)
    requires Disjoint(iov)
    modifies iov
    ensures Scattered(data, old(Contents(iov)), Contents(iov), copied)
  {
    ghost var before := Contents(iov);
    copied := 0;
    var next := 0;
    while next < |iov|
      invariant 0 <= next <= UsableCount(before)
      invariant copied == Taken(data, before, next)
      invariant Contents(iov) == Filled(data, before, next)
    {
      FilledLeavesTheRest(data, before, next);
      var len := Min(|data| - copied, iov[next].Length);
      if len == 0 {
        break;
      }
      FilledNext(data, before, next, copied, len);
      assert iov[next][..] == before[next];
      CopyChunk(data[copied..copied + len], iov, next);
      copied := copied + len;
      next := next + 1;
    }
    StoppedLoopHasScattered(data, before, next);
  }

  method CopyDataToIov(data: seq<Byte>, iov: seq<array<Byte>>) returns (result: Result<nat, Error>)
    requires Disjoint(iov)
    modifies iov
    ensures CopyOutcome(data, old(Contents(iov)), Contents(iov), result)
  {
    var cap := TotalLength(iov);
    if cap < |data| {
      return Failure(Error(UCS_ERR_MESSAGE_TRUNCATED));
    }
    var copied := FillBuffers(data, iov);
    return Success(copied);
  }

  // ---- What callers can rely on ----

  /** The whole payload arrives exactly when it fits in the buffers before the first empty one. */
  lemma WholePayloadIff(data: seq<Byte>, before: seq<seq<Byte>>, after: seq<seq<Byte>>, copied: nat)
    requires Scattered(data, before, after, copied)
    ensures copied == |data| <==> |data| <= |Reachable(before)|
    ensures copied == |data| ==> Concat(after) == data + Concat(before)[|data|..]
  {
    assert data[..|data|] == data;
  }

  /** With no empty buffer, enough room in all means the whole payload arrives. */
  lemma NoEmptyBuffersDeliverAll(data: seq<Byte>, before: seq<seq<Byte>>, after: seq<seq<Byte>>, copied: nat)
    requires Scattered(data, before, after, copied)
    requires [] !in before && |data| <= |Concat(before)|
    ensures copied == |data| && Concat(after) == data + Concat(before)[|data|..]
  {
    assert UsableCount(before) == |before|;
    assert before[..|before|] == before;
    WholePayloadIff(data, before, after, copied);
  }

  /** With an empty buffer first, a call with data to copy and room enough succeeds and copies nothing. */
  lemma EmptyBufferStopsTheCopy(
      data: seq<Byte>, before: seq<seq<Byte>>, after: seq<seq<Byte>>, result: Result<nat, Error>)
    requires before != [] && before[0] == []
    requires CopyOutcome(data, before, after, result) && 0 < |data| <= |Concat(before)|
    ensures result == Success(0) && after == before
  {
    assert before[..0] == [];
    assert Concat(before)[0..] == Concat(before);
    ConcatIsInjective(before, after);
  }

  /** Buffers of the same lengths with the same bytes in all are the same. */
  lemma {:induction false} ConcatIsInjective(before: seq<seq<Byte>>, after: seq<seq<Byte>>)
    requires SameShape(before, after) && Concat(before) == Concat(after)
    ensures before == after
  {
    if before == [] {
      assert after == [];
    } else {
      var n := |before| - 1;
      var k := |Concat(before)| - |before[n]|;
      assert before[n] == Concat(before)[k..] == after[n];
      assert Concat(before[..n]) == Concat(before)[..k] == Concat(after[..n]);
      ConcatIsInjective(before[..n], after[..n]);
      assert before == before[..n] + [before[n]] && after == after[..n] + [after[n]];
    }
  }
}
