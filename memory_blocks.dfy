/** The value side of the memory-partition simulator: a memory block, the
    three placement rules (First, Best and Worst Fit) with the scan that
    applies them, the split that carves a process out of a dynamic block, the
    release of a process's blocks, the coalescing of neighbouring free
    blocks, and the sums the fragmentation report is made of. */
module MemoryBlocks {

  /** A block or partition: its id, its size, whether it is free, and the
      process that occupies it (empty when free). */
  datatype Block = Block(id: int, size: int, isFree: bool, owner: string)

  /** The two partitioning schemes. They differ in how Worst Fit ranks a
      block (by its size, or by the space it would leave over). */
  datatype Scheme = Dynamic | Fixed

  /** `numeric_limits<int>::max()`, the starting "smallest difference" of
      Best Fit. */
  const IntMax: int := 0x7fff_ffff

  const FirstFit: int := 1
  const BestFit: int := 2
  const WorstFit: int := 3

  /** A block can take a process of `size` units: it is free and large
      enough. */
  predicate Fits(b: Block, size: int) {
    b.isFree && b.size >= size
  }

  // ---------------------------------------------------------------------------
  // The placement rules

  /** First Fit: `k` is the first block that fits. */
  ghost predicate IsFirstFit(bs: seq<Block>, size: int, k: int) {
    && 0 <= k < |bs| && Fits(bs[k], size)
    && forall j :: 0 <= j < k ==> !Fits(bs[j], size)
  }

  /** Best Fit: `k` fits with a left-over below `IntMax`, no fitting block is
      smaller, and every fitting block before it is strictly larger (ties go
      to the earliest block). */
  ghost predicate IsBestFit(bs: seq<Block>, size: int, k: int) {
    && 0 <= k < |bs| && Fits(bs[k], size) && bs[k].size - size < IntMax
    && (forall j :: 0 <= j < |bs| && Fits(bs[j], size) ==> bs[k].size <= bs[j].size)
    && (forall j :: 0 <= j < k && Fits(bs[j], size) ==> bs[k].size < bs[j].size)
  }

  /** What Worst Fit maximises: the size of a dynamic block, the left-over
      of a fixed partition. Either has to beat the starting value -1. */
  function WorstKey(b: Block, size: int, scheme: Scheme): int {
    if scheme == Dynamic then b.size else b.size - size
  }

  /** Worst Fit: `k` fits with a key above -1, no fitting block has a larger
      key, and every fitting block before it has a strictly smaller one. */
  ghost predicate IsWorstFit(bs: seq<Block>, size: int, scheme: Scheme, k: int) {
    && 0 <= k < |bs| && Fits(bs[k], size) && WorstKey(bs[k], size, scheme) > -1
    && (forall j :: 0 <= j < |bs| && Fits(bs[j], size) ==> WorstKey(bs[j], size, scheme) <= WorstKey(bs[k], size, scheme))
    && (forall j :: 0 <= j < k && Fits(bs[j], size) ==> WorstKey(bs[j], size, scheme) < WorstKey(bs[k], size, scheme))
  }

  /** `k` is the block the rule numbered `rule` picks; a rule other than
      1, 2 or 3 picks nothing. */
  ghost predicate Selects(bs: seq<Block>, rule: int, size: int, scheme: Scheme, k: int) {
    if rule == FirstFit then IsFirstFit(bs, size, k)
    else if rule == BestFit then IsBestFit(bs, size, k)
    else if rule == WorstFit then IsWorstFit(bs, size, scheme, k)
    else false
  }

  /** The rule has no block to pick. */
  ghost predicate NoChoice(bs: seq<Block>, rule: int, size: int, scheme: Scheme) {
    if rule == FirstFit then forall j :: 0 <= j < |bs| ==> !Fits(bs[j], size)
    else if rule == BestFit then forall j :: 0 <= j < |bs| && Fits(bs[j], size) ==> bs[j].size - size >= IntMax
    else if rule == WorstFit then forall j :: 0 <= j < |bs| && Fits(bs[j], size) ==> WorstKey(bs[j], size, scheme) <= -1
    else true
  }

  /** The selection scan of `allocateDynamic` and `allocateFixed`: returns
      the index of the block the rule picks, or -1. */
  method Choose(bs: seq<Block>, rule: int, size: int, scheme: Scheme) returns (k: int)
    ensures -1 <= k < |bs|
    ensures k == -1 ==> NoChoice(bs, rule, size, scheme)
    ensures k != -1 ==> Selects(bs, rule, size, scheme, k)
    ensures k != -1 ==> bs[k].isFree && bs[k].size >= size
    ensures k == Pick(bs, rule, size, scheme)
  {
    k := -1;
    if rule == FirstFit {
      var i := 0;
      while i < |bs|
        invariant 0 <= i <= |bs| && k == -1
        invariant forall j :: 0 <= j < i ==> !Fits(bs[j], size)
      {
        if Fits(bs[i], size) {
          k := i;
          break;
        }
        i := i + 1;
      }
    } else if rule == BestFit {
      var minDiff := IntMax;
      for i := 0 to |bs|
        invariant -1 <= k < i && minDiff <= IntMax
        invariant k == -1 ==> minDiff == IntMax
        invariant k != -1 ==> Fits(bs[k], size) && minDiff == bs[k].size - size < IntMax
        invariant forall j :: 0 <= j < i && Fits(bs[j], size) ==> minDiff <= bs[j].size - size
        invariant forall j :: 0 <= j < k && Fits(bs[j], size) ==> minDiff < bs[j].size - size
      {
        if Fits(bs[i], size) && bs[i].size - size < minDiff {
          minDiff := bs[i].size - size;
          k := i;
        }
      }
    } else if rule == WorstFit {
      var maxKey := -1;
      for i := 0 to |bs|
        invariant -1 <= k < i
        invariant k == -1 ==> maxKey == -1
        invariant k != -1 ==> Fits(bs[k], size) && maxKey == WorstKey(bs[k], size, scheme) > -1
        invariant forall j :: 0 <= j < i && Fits(bs[j], size) ==> WorstKey(bs[j], size, scheme) <= maxKey
        invariant forall j :: 0 <= j < k && Fits(bs[j], size) ==> WorstKey(bs[j], size, scheme) < maxKey
      {
        if Fits(bs[i], size) && WorstKey(bs[i], size, scheme) > maxKey {
          maxKey := WorstKey(bs[i], size, scheme);
          k := i;
        }
      }
    }
    PickSelects(bs, rule, size, scheme);
    if k != -1 {
      SelectsUnique(bs, rule, size, scheme, k, Pick(bs, rule, size, scheme));
    }
  }

  /** Each rule determines its block: two picks agree, and a rule with no
      choice picks nothing. */
  lemma SelectsUnique(bs: seq<Block>, rule: int, size: int, scheme: Scheme, k1: int, k2: int)
    requires Selects(bs, rule, size, scheme, k1)
    ensures Selects(bs, rule, size, scheme, k2) <==> k2 == k1
    ensures !NoChoice(bs, rule, size, scheme)
  {
  }

  /** When some free block is large enough, First Fit always finds one, and
      Worst Fit of a fixed partition too; Best Fit finds one as long as the
      left-over stays below `IntMax`. */
  lemma ChoiceExists(bs: seq<Block>, size: int, j: int)
    requires 0 <= j < |bs| && Fits(bs[j], size)
    ensures !NoChoice(bs, FirstFit, size, Fixed) && !NoChoice(bs, WorstFit, size, Fixed)
    ensures bs[j].size - size < IntMax ==> !NoChoice(bs, BestFit, size, Fixed)
  {
  }

  /** The block a rule picks, as a fold over the blocks: the last block
      replaces the pick of the blocks before it when it fits and beats that
      pick's key (the left-over for Best Fit, starting from `IntMax`; the
      Worst Fit key, starting from -1); First Fit keeps the first pick. */
  function Pick(bs: seq<Block>, rule: int, size: int, scheme: Scheme): (k: int)
    ensures -1 <= k < |bs|
    decreases |bs|
  {
    if bs == [] then -1
    else
      var n := |bs| - 1;
      var k := Pick(bs[..n], rule, size, scheme);
      var b := bs[n];
      if rule == FirstFit then
        (if k == -1 && Fits(b, size) then n else k)
      else if rule == BestFit then
        (if Fits(b, size) && b.size - size < (if k == -1 then IntMax else bs[k].size - size) then n else k)
      else if rule == WorstFit then
        (if Fits(b, size) && WorstKey(b, size, scheme) > (if k == -1 then -1 else WorstKey(bs[k], size, scheme)) then n else k)
      else -1
  }

  /** The fold picks exactly what the rule's declarative description
      selects, and nothing exactly when the rule has no choice. */
  lemma {:induction false} PickSelects(bs: seq<Block>, rule: int, size: int, scheme: Scheme)
    ensures Pick(bs, rule, size, scheme) == -1 <==> NoChoice(bs, rule, size, scheme)
    ensures Pick(bs, rule, size, scheme) != -1 ==> Selects(bs, rule, size, scheme, Pick(bs, rule, size, scheme))
    decreases |bs|
  {
    if bs != [] {
      var n := |bs| - 1;
      var pre := bs[..n];
      PickSelects(pre, rule, size, scheme);
      assert forall j :: 0 <= j < n ==> pre[j] == bs[j];
    }
  }

  // ---------------------------------------------------------------------------
  // Sums

  /** The sum of the sizes of `bs`. */
  function Total(bs: seq<Block>): int {
    if bs == [] then 0 else Total(bs[..|bs| - 1]) + bs[|bs| - 1].size
  }

  /** The sum of the sizes of the free blocks of `bs`: the external
      fragmentation. */
  function FreeTotal(bs: seq<Block>): int {
    if bs == [] then 0
    else FreeTotal(bs[..|bs| - 1]) + (if bs[|bs| - 1].isFree then bs[|bs| - 1].size else 0)
  }

  /** The space left unused inside occupied partitions whose process size is
      recorded in `sizes`: the internal fragmentation. */
  function InternalTotal(bs: seq<Block>, sizes: map<string, int>): int {
    if bs == [] then 0
    else
      var b := bs[|bs| - 1];
      InternalTotal(bs[..|bs| - 1], sizes) + (if !b.isFree && b.owner in sizes then b.size - sizes[b.owner] else 0)
  }

  lemma {:induction false} TotalConcat(a: seq<Block>, b: seq<Block>)
    ensures Total(a + b) == Total(a) + Total(b)
    ensures FreeTotal(a + b) == FreeTotal(a) + FreeTotal(b)
    decreases |b|
  {
    if b == [] {
      assert a + b == a;
    } else {
      assert (a + b)[..|a + b| - 1] == a + b[..|b| - 1];
      TotalConcat(a, b[..|b| - 1]);
    }
  }

  /** The sums of a sequence with one block in front. */
  lemma TotalCons(b: Block, bs: seq<Block>)
    ensures Total([b] + bs) == b.size + Total(bs)
    ensures FreeTotal([b] + bs) == (if b.isFree then b.size else 0) + FreeTotal(bs)
  {
    TotalConcat([b], bs);
    assert [b][..0] == [];
  }

  /** Free space never exceeds the total when no block has a negative
      size. */
  lemma {:induction false} FreeWithinTotal(bs: seq<Block>)
    requires forall j :: 0 <= j < |bs| ==> bs[j].size >= 0
    ensures 0 <= FreeTotal(bs) <= Total(bs)
  {
    if bs != [] {
      FreeWithinTotal(bs[..|bs| - 1]);
    }
  }

  /** Every occupied partition with a recorded size holds a process no
      larger than itself. */
  ghost predicate SizesFit(bs: seq<Block>, sizes: map<string, int>) {
    forall j :: 0 <= j < |bs| && !bs[j].isFree && bs[j].owner in sizes ==> sizes[bs[j].owner] <= bs[j].size
  }

  /** Internal fragmentation is not negative when every recorded process
      fits its partition. */
  lemma {:induction false} InternalNonNegative(bs: seq<Block>, sizes: map<string, int>)
    requires SizesFit(bs, sizes)
    ensures InternalTotal(bs, sizes) >= 0
  {
    if bs != [] {
      InternalNonNegative(bs[..|bs| - 1], sizes);
    }
  }

  // ---------------------------------------------------------------------------
  // Placing a process

  /** What block `b` becomes when `pid` (`size` units) is placed in it: a
      larger block is split, the front part keeping the block's id, the rest
      becoming a new free block with id `nextId`. */
  function Carve(b: Block, pid: string, size: int, nextId: int): (r: seq<Block>)
    ensures |r| == (if b.size > size then 2 else 1)
    ensures !r[0].isFree && r[0].owner == pid && r[0].id == b.id
  {
    if b.size > size then [Block(b.id, size, false, pid), Block(nextId, b.size - size, true, "")]
    else [b.(isFree := false, owner := pid)]
  }

  /** Dynamic placement of `pid` in block `k`: the block is carved in place,
      every other block stays where it was. */
  function Place(bs: seq<Block>, k: int, pid: string, size: int, nextId: int): (r: seq<Block>)
    requires 0 <= k < |bs|
  {
    bs[..k] + Carve(bs[k], pid, size, nextId) + bs[k + 1..]
  }

  /** Splitting block `k` first (when larger than `size`) and then marking
      it occupied by `pid` is the placement. */
  lemma SplitThenMark(bs: seq<Block>, k: int, pid: string, size: int, nextId: int)
    requires 0 <= k < |bs|
    ensures var b := bs[k];
            var split := if b.size > size then bs[..k] + [b.(size := size), Block(nextId, b.size - size, true, "")] + bs[k + 1..] else bs;
            split[k := split[k].(isFree := false, owner := pid)] == Place(bs, k, pid, size, nextId)
  {
    var b := bs[k];
    if b.size > size {
      var split := bs[..k] + [b.(size := size), Block(nextId, b.size - size, true, "")] + bs[k + 1..];
      assert split[k := split[k].(isFree := false, owner := pid)] == Place(bs, k, pid, size, nextId);
    } else {
      assert bs[k := b.(isFree := false, owner := pid)] == Place(bs, k, pid, size, nextId);
    }
  }

  /** The id handed to the next split after placing in block `k`. */
  function NextIdAfter(bs: seq<Block>, k: int, size: int, nextId: int): int
    requires 0 <= k < |bs|
  {
    if bs[k].size > size then nextId + 1 else nextId
  }

  /** The sums of three pieces put together. */
  lemma TotalSplice(a: seq<Block>, m: seq<Block>, c: seq<Block>)
    ensures Total(a + m + c) == Total(a) + Total(m) + Total(c)
    ensures FreeTotal(a + m + c) == FreeTotal(a) + FreeTotal(m) + FreeTotal(c)
  {
    TotalConcat(a + m, c);
    TotalConcat(a, m);
  }

  lemma SplitAt<T>(s: seq<T>, k: int)
    requires 0 <= k < |s|
    ensures s == s[..k] + [s[k]] + s[k + 1..]
  {
  }

  /** Placing conserves the total size and takes exactly `size` units of
      free space away. */
  lemma PlaceSums(bs: seq<Block>, k: int, pid: string, size: int, nextId: int)
    requires 0 <= k < |bs| && Fits(bs[k], size)
    ensures Total(Place(bs, k, pid, size, nextId)) == Total(bs)
    ensures FreeTotal(Place(bs, k, pid, size, nextId)) == FreeTotal(bs) - size
  {
    var b := bs[k];
    var mid := Carve(b, pid, size, nextId);
    assert Total(mid) == b.size && FreeTotal(mid) == b.size - size by {
      if b.size > size {
        TotalCons(mid[0], [mid[1]]);
        TotalCons(mid[1], []);
        assert mid == [mid[0]] + [mid[1]];
      } else {
        TotalCons(mid[0], []);
        assert mid == [mid[0]] + [];
      }
    }
    assert Total([b]) == b.size && FreeTotal([b]) == b.size by {
      TotalCons(b, []);
      assert [b] == [b] + [];
    }
    SplitAt(bs, k);
    TotalSplice(bs[..k], mid, bs[k + 1..]);
    TotalSplice(bs[..k], [b], bs[k + 1..]);
  }

  // ---------------------------------------------------------------------------
  // Coalescing

  /** No two neighbouring blocks are both free. */
  ghost predicate NoAdjacentFree(bs: seq<Block>) {
    forall j :: 0 <= j < |bs| - 1 ==> !(bs[j].isFree && bs[j + 1].isFree)
  }

  /** What `mergeFreeBlocks` leaves: scanning from the front, a free block
      absorbs the free block after it (keeping its own id) until an occupied
      block follows, then the scan moves on. */
  function Coalesced(bs: seq<Block>): seq<Block>
    decreases |bs|
  {
    if |bs| < 2 then bs
    else if bs[0].isFree && bs[1].isFree then Coalesced([bs[0].(size := bs[0].size + bs[1].size)] + bs[2..])
    else [bs[0]] + Coalesced(bs[1..])
  }

  /** The occupied blocks of `bs`, in order. */
  function Occupied(bs: seq<Block>): seq<Block> {
    if bs == [] then []
    else Occupied(bs[..|bs| - 1]) + (if bs[|bs| - 1].isFree then [] else [bs[|bs| - 1]])
  }

  lemma {:induction false} OccupiedConcat(a: seq<Block>, b: seq<Block>)
    ensures Occupied(a + b) == Occupied(a) + Occupied(b)
    decreases |b|
  {
    if b == [] {
      assert a + b == a;
    } else {
      assert (a + b)[..|a + b| - 1] == a + b[..|b| - 1];
      OccupiedConcat(a, b[..|b| - 1]);
    }
  }

  /** The front of a coalesced sequence is the first block, grown by the
      free run after it when it is free; its id and state never change. */
  lemma {:induction false} CoalescedFront(bs: seq<Block>)
    requires |bs| > 0
    ensures |Coalesced(bs)| > 0
    ensures Coalesced(bs)[0].isFree == bs[0].isFree && Coalesced(bs)[0].id == bs[0].id
    decreases |bs|
  {
    if |bs| >= 2 && bs[0].isFree && bs[1].isFree {
      CoalescedFront([bs[0].(size := bs[0].size + bs[1].size)] + bs[2..]);
    }
  }

  /** Coalescing conserves the total size and the free space. */
  lemma {:induction false} CoalescedSums(bs: seq<Block>)
    ensures Total(Coalesced(bs)) == Total(bs)
    ensures FreeTotal(Coalesced(bs)) == FreeTotal(bs)
    decreases |bs|
  {
    if |bs| < 2 {
    } else if bs[0].isFree && bs[1].isFree {
      var m := bs[0].(size := bs[0].size + bs[1].size);
      CoalescedSums([m] + bs[2..]);
      assert bs == [bs[0]] + ([bs[1]] + bs[2..]);
      TotalCons(bs[0], [bs[1]] + bs[2..]);
      TotalCons(bs[1], bs[2..]);
      TotalCons(m, bs[2..]);
    } else {
      CoalescedSums(bs[1..]);
      assert bs == [bs[0]] + bs[1..];
      TotalCons(bs[0], bs[1..]);
      TotalCons(bs[0], Coalesced(bs[1..]));
    }
  }

  /** Coalescing keeps the occupied blocks, in order and unchanged. */
  lemma {:induction false} CoalescedOccupied(bs: seq<Block>)
    ensures Occupied(Coalesced(bs)) == Occupied(bs)
    decreases |bs|
  {
    if |bs| < 2 {
    } else if bs[0].isFree && bs[1].isFree {
      var m := bs[0].(size := bs[0].size + bs[1].size);
      CoalescedOccupied([m] + bs[2..]);
      assert bs == [bs[0]] + ([bs[1]] + bs[2..]);
      OccupiedConcat([bs[0]], [bs[1]] + bs[2..]);
      OccupiedConcat([bs[1]], bs[2..]);
      OccupiedConcat([m], bs[2..]);
      assert [bs[0]][..0] == [] && [bs[1]][..0] == [] && [m][..0] == [];
    } else {
      CoalescedOccupied(bs[1..]);
      assert bs == [bs[0]] + bs[1..];
      OccupiedConcat([bs[0]], bs[1..]);
      OccupiedConcat([bs[0]], Coalesced(bs[1..]));
      assert [bs[0]][..0] == [];
    }
  }

  /** After coalescing no two neighbours are free. */
  lemma {:induction false} CoalescedApart(bs: seq<Block>)
    ensures NoAdjacentFree(Coalesced(bs))
    decreases |bs|
  {
    if |bs| < 2 {
    } else if bs[0].isFree && bs[1].isFree {
      CoalescedApart([bs[0].(size := bs[0].size + bs[1].size)] + bs[2..]);
    } else {
      var rest := Coalesced(bs[1..]);
      CoalescedApart(bs[1..]);
      CoalescedFront(bs[1..]);
      var r := [bs[0]] + rest;
      forall j | 0 <= j < |r| - 1
        ensures !(r[j].isFree && r[j + 1].isFree)
      {
        if j > 0 {
          assert r[j] == rest[j - 1] && r[j + 1] == rest[j];
        }
      }
    }
  }

  /** Block `i` absorbs block `i + 1`: one step of the merge scan. */
  function Absorb(bs: seq<Block>, i: int): (r: seq<Block>)
    requires 0 <= i && i + 1 < |bs|
    ensures |r| == |bs| - 1
  {
    bs[..i] + [bs[i].(size := bs[i].size + bs[i + 1].size)] + bs[i + 2..]
  }

  /** The merge scan at position `i` has produced `bs[..i]` and still has
      to coalesce `bs[i..]`; a step of the scan keeps what the whole scan
      yields. */
  lemma ScanAbsorb(bs: seq<Block>, i: int)
    requires 0 <= i && i + 1 < |bs| && bs[i].isFree && bs[i + 1].isFree
    ensures Absorb(bs, i)[..i] + Coalesced(Absorb(bs, i)[i..]) == bs[..i] + Coalesced(bs[i..])
  {
    var r := Absorb(bs, i);
    assert bs[i..][0] == bs[i] && bs[i..][1] == bs[i + 1] && bs[i..][2..] == bs[i + 2..];
    assert r[..i] == bs[..i];
    assert r[i..] == [bs[i].(size := bs[i].size + bs[i + 1].size)] + bs[i + 2..];
  }

  lemma ScanSkip(bs: seq<Block>, i: int)
    requires 0 <= i && i + 1 < |bs| && !(bs[i].isFree && bs[i + 1].isFree)
    ensures bs[..i + 1] + Coalesced(bs[i + 1..]) == bs[..i] + Coalesced(bs[i..])
  {
    var t := bs[i..];
    assert t[0] == bs[i] && t[1] == bs[i + 1] && t[1..] == bs[i + 1..];
    assert Coalesced(t) == [bs[i]] + Coalesced(bs[i + 1..]);
    assert bs[..i + 1] == bs[..i] + [bs[i]];
  }

  lemma ScanEnd(bs: seq<Block>, i: int)
    requires 0 <= i < |bs| && i + 1 >= |bs|
    ensures bs[..i] + Coalesced(bs[i..]) == bs
  {
    assert bs[..i] + bs[i..] == bs;
  }

  /** The scan of `mergeFreeBlocks`: a free block absorbs its free right
      neighbour and stays in place to absorb the next one; otherwise the
      scan moves on. */
  method MergeRuns(bs: seq<Block>) returns (r: seq<Block>)
    ensures r == Coalesced(bs)
  {
    if |bs| < 2 {
      assert Coalesced(bs) == bs;
      return bs;
    }
    r := bs;
    var i := 0;
    while i + 1 < |r|
      invariant 0 <= i < |r|
      invariant r[..i] + Coalesced(r[i..]) == Coalesced(bs)
      decreases |r| - i
    {
      if r[i].isFree && r[i + 1].isFree {
        ScanAbsorb(r, i);
        r := Absorb(r, i);
      } else {
        ScanSkip(r, i);
        i := i + 1;
      }
    }
    ScanEnd(r, i);
  }

  /** Coalescing changes nothing when no two neighbours are free. */
  lemma {:induction false} CoalescedIdle(bs: seq<Block>)
    requires NoAdjacentFree(bs)
    ensures Coalesced(bs) == bs
    decreases |bs|
  {
    if |bs| >= 2 {
      assert !(bs[0].isFree && bs[1].isFree);
      assert NoAdjacentFree(bs[1..]) by {
        forall j | 0 <= j < |bs[1..]| - 1
          ensures !(bs[1..][j].isFree && bs[1..][j + 1].isFree)
        {
          assert bs[1..][j] == bs[j + 1] && bs[1..][j + 1] == bs[j + 2];
        }
      }
      CoalescedIdle(bs[1..]);
      assert bs == [bs[0]] + bs[1..];
    }
  }

  /** Placing in a free block keeps free neighbours apart: the block itself
      becomes occupied, and a split-off free rest sits between it and a
      neighbour that cannot be free. */
  lemma PlaceKeepsApart(bs: seq<Block>, k: int, pid: string, size: int, nextId: int)
    requires 0 <= k < |bs| && Fits(bs[k], size) && NoAdjacentFree(bs)
    ensures NoAdjacentFree(Place(bs, k, pid, size, nextId))
  {
    var r := Place(bs, k, pid, size, nextId);
    var d := |r| - |bs|;
    forall j | 0 <= j < |r| - 1
      ensures !(r[j].isFree && r[j + 1].isFree)
    {
      if j + 1 < k {
        assert r[j] == bs[j] && r[j + 1] == bs[j + 1];
      } else if j + 1 == k {
        assert !r[k].isFree;
      } else if j == k {
        assert !r[k].isFree;
      } else if d == 1 && j == k + 1 {
        assert r[j + 1] == bs[k + 1];
        assert !(bs[k].isFree && bs[k + 1].isFree);
      } else {
        assert r[j] == bs[j - d] && r[j + 1] == bs[j + 1 - d];
      }
    }
  }

  // ---------------------------------------------------------------------------
  // Releasing a process

  /** A block after `pid` is released: freed and cleared if `pid` occupies
      it. */
  function Release(b: Block, pid: string): Block {
    if !b.isFree && b.owner == pid then b.(isFree := true, owner := "") else b
  }

  predicate Owns(b: Block, pid: string) {
    !b.isFree && b.owner == pid
  }

  /** Every block `pid` occupies, released. */
  function ReleaseAll(bs: seq<Block>, pid: string): (r: seq<Block>)
    ensures |r| == |bs|
  {
    seq(|bs|, j requires 0 <= j < |bs| => Release(bs[j], pid))
  }

  /** Releasing frees exactly the blocks `pid` occupied and keeps every
      size; when `pid` occupies nothing it changes nothing. */
  lemma ReleaseAllProperties(bs: seq<Block>, pid: string)
    ensures forall j :: 0 <= j < |bs| ==> !Owns(ReleaseAll(bs, pid)[j], pid)
    ensures forall j :: 0 <= j < |bs| ==> ReleaseAll(bs, pid)[j].size == bs[j].size && ReleaseAll(bs, pid)[j].id == bs[j].id
    ensures forall j :: 0 <= j < |bs| && !Owns(bs[j], pid) ==> ReleaseAll(bs, pid)[j] == bs[j]
    ensures (forall j :: 0 <= j < |bs| ==> !Owns(bs[j], pid)) ==> ReleaseAll(bs, pid) == bs
  {
  }

  /** Releasing conserves the total size. */
  lemma {:induction false} ReleaseAllTotal(bs: seq<Block>, pid: string)
    ensures Total(ReleaseAll(bs, pid)) == Total(bs)
    decreases |bs|
  {
    if bs != [] {
      var n := |bs| - 1;
      assert ReleaseAll(bs, pid)[..n] == ReleaseAll(bs[..n], pid);
      ReleaseAllTotal(bs[..n], pid);
    }
  }

  /** The first partition `pid` occupies, or -1. */
  function FirstOwned(bs: seq<Block>, pid: string): (k: int)
    ensures -1 <= k < |bs|
    ensures k != -1 ==> Owns(bs[k], pid) && forall j :: 0 <= j < k ==> !Owns(bs[j], pid)
    ensures k == -1 ==> forall j :: 0 <= j < |bs| ==> !Owns(bs[j], pid)
  {
    if bs == [] then -1
    else if Owns(bs[0], pid) then 0
    else
      var k := FirstOwned(bs[1..], pid);
      if k == -1 then -1 else k + 1
  }

  /** Occupies partition `k` with `pid`: the layout stays the same. */
  function Occupy(bs: seq<Block>, k: int, pid: string): (r: seq<Block>)
    requires 0 <= k < |bs|
    ensures |r| == |bs|
    ensures forall j :: 0 <= j < |bs| ==> r[j].size == bs[j].size && r[j].id == bs[j].id
  {
    bs[k := bs[k].(isFree := false, owner := pid)]
  }

  /** Placing a process whose id occupies no partition, with a recorded size
      no larger than the partition, keeps every recorded size within its
      partition. */
  lemma OccupyKeepsSizesFit(bs: seq<Block>, sizes: map<string, int>, k: int, pid: string, size: int)
    requires SizesFit(bs, sizes) && 0 <= k < |bs| && Fits(bs[k], size)
    requires forall j :: 0 <= j < |bs| ==> !Owns(bs[j], pid)
    ensures SizesFit(Occupy(bs, k, pid), sizes[pid := size])
  {
    var r := Occupy(bs, k, pid);
    forall j | 0 <= j < |r| && !r[j].isFree && r[j].owner in sizes[pid := size]
      ensures sizes[pid := size][r[j].owner] <= r[j].size
    {
      if j != k {
        assert r[j] == bs[j] && !Owns(bs[j], pid);
      }
    }
  }

  /** Freeing a partition and forgetting its process keeps every recorded
      size within its partition. */
  lemma FreeKeepsSizesFit(bs: seq<Block>, sizes: map<string, int>, k: int, pid: string)
    requires SizesFit(bs, sizes) && 0 <= k < |bs|
    ensures SizesFit(bs[k := bs[k].(isFree := true, owner := "")], sizes - {pid})
  {
  }

  /** With the same process id placed twice, internal fragmentation can come
      out negative: partitions of 10 and 50, `P1` of 5 units and then `P1`
      of 40 units (First Fit) record 40 for both partitions. */
  lemma DuplicateIdNegativeInternal()
    ensures var bs := [Block(0, 10, true, ""), Block(1, 50, true, "")];
            var first := Occupy(bs, 0, "P1");
            var second := Occupy(first, 1, "P1");
            && IsFirstFit(bs, 5, 0) && IsFirstFit(first, 40, 1)
            && InternalTotal(second, map["P1" := 5][ "P1" := 40]) == -20
  {
    var bs := [Block(0, 10, true, ""), Block(1, 50, true, "")];
    var first := Occupy(bs, 0, "P1");
    var second := Occupy(first, 1, "P1");
    var sizes := map["P1" := 5]["P1" := 40];
    assert second[..1] == [second[0]];
    assert [second[0]][..0] == [];
    assert InternalTotal([second[0]], sizes) == 10 - 40;
  }
}
