/** The memory-partition simulator's manager: its memory (a list of blocks
    under dynamic partitioning, a vector of partitions under fixed
    partitioning), the recorded process sizes and the id counter, updated in
    place by allocation, release and coalescing; the fragmentation report;
    and the configuration and command loop of a session. */
module MemoryManagement {
  import opened MemoryBlocks

  /** A command line of a session, already parsed: `A pid size` allocates,
      `L pid` releases, `M` shows the map and the fragmentation and ends the
      session; any other line is skipped. */
  datatype Command = Alloc(pid: string, size: int) | Free(pid: string) | ShowMap | Skip

  /** Same partitions in the same order, with the same ids and sizes. */
  ghost predicate SameLayout(a: seq<Block>, b: seq<Block>) {
    |a| == |b| && forall j :: 0 <= j < |a| ==> a[j].id == b[j].id && a[j].size == b[j].size
  }

  /** Partitions with the same layout have the same total size. */
  lemma {:induction false} SameLayoutTotal(a: seq<Block>, b: seq<Block>)
    requires SameLayout(a, b)
    ensures Total(a) == Total(b)
    decreases |a|
  {
    if a != [] {
      var n := |a| - 1;
      assert SameLayout(a[..n], b[..n]) by {
        forall j | 0 <= j < n
          ensures a[..n][j].id == b[..n][j].id && a[..n][j].size == b[..n][j].size
        {
          assert a[..n][j] == a[j] && b[..n][j] == b[j];
        }
      }
      SameLayoutTotal(a[..n], b[..n]);
    }
  }

  /** The partitions `setup` creates from the sizes it reads: numbered from
      0, all free. */
  function Partitions(sizes: seq<int>): (r: seq<Block>)
    ensures |r| == |sizes|
    ensures forall j :: 0 <= j < |r| ==> r[j] == Block(j, sizes[j], true, "")
  {
    seq(|sizes|, j requires 0 <= j < |sizes| => Block(j, sizes[j], true, ""))
  }

  /** The loop of `setup` that creates the fixed partitions, one per size
      read, and adds their sizes up. */
  method LayOut(partitionSizes: seq<int>) returns (parts: seq<Block>, sum: int)
    ensures parts == Partitions(partitionSizes)
    ensures sum == Total(parts)
  {
    parts, sum := [], 0;
    for i := 0 to |partitionSizes|
      invariant parts == Partitions(partitionSizes[..i])
      invariant sum == Total(parts)
    {
      var b := Block(i, partitionSizes[i], true, "");
      assert Partitions(partitionSizes[..i + 1]) == parts + [b];
      assert (parts + [b])[..|parts|] == parts;
      parts := parts + [b];
      sum := sum + partitionSizes[i];
    }
    assert partitionSizes[..|partitionSizes|] == partitionSizes;
  }

  /** A snapshot of what the manager's commands change: the two memories,
      the recorded process sizes and the id counter. */
  datatype Memory = Memory(dynamicMemory: seq<Block>, fixedMemory: seq<Block>, processSizes: map<string, int>, nextBlockId: int)

  /** What `allocate` makes of `m`: the block the rule picks is carved
      (dynamic) or occupied (fixed) and the size recorded; nothing changes
      when the rule picks nothing. */
  function Allocated(m: Memory, dynamic: bool, rule: int, pid: string, size: int): Memory {
    if dynamic then
      var k := Pick(m.dynamicMemory, rule, size, Dynamic);
      if k == -1 then m
      else m.(dynamicMemory := Place(m.dynamicMemory, k, pid, size, m.nextBlockId),
               nextBlockId := NextIdAfter(m.dynamicMemory, k, size, m.nextBlockId),
               processSizes := m.processSizes[pid := size])
    else
      var k := Pick(m.fixedMemory, rule, size, Fixed);
      if k == -1 then m
      else m.(fixedMemory := Occupy(m.fixedMemory, k, pid), processSizes := m.processSizes[pid := size])
  }

  /** What `liberate` makes of `m`: dynamic memory releases every block of
      `pid` and coalesces, fixed memory frees the first partition of `pid`;
      the size is forgotten; nothing changes when `pid` holds nothing. */
  function Liberated(m: Memory, dynamic: bool, pid: string): Memory {
    if dynamic then
      if FirstOwned(m.dynamicMemory, pid) == -1 then m
      else m.(dynamicMemory := Coalesced(ReleaseAll(m.dynamicMemory, pid)), processSizes := m.processSizes - {pid})
    else
      var k := FirstOwned(m.fixedMemory, pid);
      if k == -1 then m
      else m.(fixedMemory := m.fixedMemory[k := m.fixedMemory[k].(isFree := true, owner := "")],
              processSizes := m.processSizes - {pid})
  }

  /** The occupants the memory map looks up: those of every occupied block
      (only blocks of positive size under dynamic partitioning). */
  function Listed(bs: seq<Block>, dynamic: bool): set<string> {
    set j | 0 <= j < |bs| && !bs[j].isFree && (!dynamic || bs[j].size > 0) :: bs[j].owner
  }

  /** The recorded sizes after the memory map is printed: looking up an
      occupant with `operator[]` records size 0 for it when it had none. */
  function ShownSizes(bs: seq<Block>, sizes: map<string, int>, dynamic: bool): map<string, int> {
    map o | o in sizes.Keys + Listed(bs, dynamic) :: if o in sizes then sizes[o] else 0
  }

  /** Printing the map keeps every recorded size, records 0 for every
      listed occupant without one, and adds nothing else; it changes nothing
      when every listed occupant has a recorded size. */
  lemma ShownSizesProperties(bs: seq<Block>, sizes: map<string, int>, dynamic: bool)
    ensures ShownSizes(bs, sizes, dynamic).Keys == sizes.Keys + Listed(bs, dynamic)
    ensures forall o :: o in sizes ==> ShownSizes(bs, sizes, dynamic)[o] == sizes[o]
    ensures forall o :: o in Listed(bs, dynamic) && o !in sizes ==> ShownSizes(bs, sizes, dynamic)[o] == 0
    ensures Listed(bs, dynamic) <= sizes.Keys ==> ShownSizes(bs, sizes, dynamic) == sizes
  {
  }

  /** One more block looked up: its occupant is added with size 0 when it
      is listed and has no entry yet. */
  lemma ShownStep(bs: seq<Block>, i: int, sizes: map<string, int>, dynamic: bool)
    requires 0 <= i < |bs|
    ensures var b := bs[i]; var before := ShownSizes(bs[..i], sizes, dynamic);
      ShownSizes(bs[..i + 1], sizes, dynamic)
        == if !b.isFree && (!dynamic || b.size > 0) && b.owner !in before then before[b.owner := 0] else before
  {
    var b := bs[i];
    assert Listed(bs[..i + 1], dynamic) == Listed(bs[..i], dynamic) + (if !b.isFree && (!dynamic || b.size > 0) then {b.owner} else {}) by {
      assert forall j :: 0 <= j < i ==> bs[..i + 1][j] == bs[..i][j];
      assert bs[..i + 1][i] == b;
    }
  }

  /** The memory after `M` prints the map of the active scheme. */
  function Shown(m: Memory, dynamic: bool): Memory {
    m.(processSizes := ShownSizes(if dynamic then m.dynamicMemory else m.fixedMemory, m.processSizes, dynamic))
  }

  /** The memory a command sequence leads to: allocations and releases in
      order, up to and including the first `M`, which prints the map and
      ends the session. */
  function Session(m: Memory, dynamic: bool, rule: int, commands: seq<Command>): Memory
    decreases |commands|
  {
    if commands == [] then m
    else if commands[0] == ShowMap then Shown(m, dynamic)
    else Session(Step(m, dynamic, rule, commands[0]), dynamic, rule, commands[1..])
  }

  /** The memory after one command that does not end the session. */
  function Step(m: Memory, dynamic: bool, rule: int, command: Command): Memory {
    match command
    case Alloc(pid, size) => Allocated(m, dynamic, rule, pid, size)
    case Free(pid) => Liberated(m, dynamic, pid)
    case _ => m
  }

  /** The fragmentation `M` reports for `m`: internal and external. */
  function Report(m: Memory, dynamic: bool): (int, int) {
    if dynamic then (0, FreeTotal(m.dynamicMemory))
    else (InternalTotal(m.fixedMemory, m.processSizes), FreeTotal(m.fixedMemory))
  }

  /** A session runs its commands up to the first `M` and ignores what
      follows it. */
  lemma {:induction false} SessionStopsAtShowMap(m: Memory, dynamic: bool, rule: int, before: seq<Command>, after: seq<Command>)
    requires ShowMap !in before
    ensures Session(m, dynamic, rule, before + [ShowMap] + after) == Shown(Session(m, dynamic, rule, before), dynamic)
    decreases |before|
  {
    var cs := before + [ShowMap] + after;
    if before == [] {
      assert cs[0] == ShowMap;
    } else {
      assert cs[0] == before[0] != ShowMap && cs[1..] == before[1..] + [ShowMap] + after;
      SessionStopsAtShowMap(Step(m, dynamic, rule, before[0]), dynamic, rule, before[1..], after);
    }
  }

  /** First Fit places `P1` of size 5 in partition 0 of partitions 10
      and 50, and `P1` of size 40 in partition 1, recording the last size. */
  lemma AllocatedTwice()
    ensures Allocated(Allocated(Memory([], Partitions([10, 50]), map[], 1), false, FirstFit, "P1", 5), false, FirstFit, "P1", 40)
            == Memory([], [Block(0, 10, false, "P1"), Block(1, 50, false, "P1")], map["P1" := 40], 1)
  {
    var m0 := Memory([], Partitions([10, 50]), map[], 1);
    var p0, p1 := Block(0, 10, true, ""), Block(1, 50, true, "");
    var q0, q1 := Block(0, 10, false, "P1"), Block(1, 50, false, "P1");
    assert m0.fixedMemory == [p0, p1] && [p0, p1][..1] == [p0];
    assert Pick([p0], FirstFit, 5, Fixed) == 0;
    assert Pick([p0, p1], FirstFit, 5, Fixed) == 0;
    var m1 := Allocated(m0, false, FirstFit, "P1", 5);
    assert m1 == Memory([], [q0, p1], map["P1" := 5], 1);
    assert [q0, p1][..1] == [q0];
    assert Pick([q0], FirstFit, 40, Fixed) == -1;
    assert Pick([q0, p1], FirstFit, 40, Fixed) == 1;
  }

  /** A process allocated twice under fixed partitioning and then released
      leaves its second partition occupied without a recorded size; printing
      the map records size 0 for it, so the whole partition counts as
      internal fragmentation: memory 100, partitions 10 and 50, First Fit,
      `A P1 5`, `A P1 40`, `L P1`, `M` reports 50 internal and 10 external. */
  lemma ShowMapCountsUnsizedOccupant()
    ensures var m := Session(Memory([], Partitions([10, 50]), map[], 1), false, FirstFit,
                             [Alloc("P1", 5), Alloc("P1", 40), Free("P1"), ShowMap]);
            m.processSizes == map["P1" := 0] && Report(m, false) == (50, 10)
  {
    var m0 := Memory([], Partitions([10, 50]), map[], 1);
    var p0, q0, q1 := Block(0, 10, true, ""), Block(0, 10, false, "P1"), Block(1, 50, false, "P1");
    AllocatedTwice();
    var m2 := Memory([], [q0, q1], map["P1" := 40], 1);
    assert FirstOwned([q0, q1], "P1") == 0;
    var m3 := Liberated(m2, false, "P1");
    assert m3.fixedMemory == [p0, q1] && m3.processSizes == map[];
    var cs := [Alloc("P1", 5), Alloc("P1", 40), Free("P1"), ShowMap];
    assert cs[1..][1..][1..][0] == ShowMap;
    assert Session(m0, false, FirstFit, cs) == Shown(m3, false);
    ShowMapFragmentation(m3);
  }

  /** The report for partitions 10 (free) and 50 (held by `P1`, no size
      recorded) once the map has been printed. */
  lemma ShowMapFragmentation(m: Memory)
    requires m.fixedMemory == [Block(0, 10, true, ""), Block(1, 50, false, "P1")] && m.processSizes == map[]
    ensures Shown(m, false).processSizes == map["P1" := 0] && Report(Shown(m, false), false) == (50, 10)
  {
    var p0, q1 := Block(0, 10, true, ""), Block(1, 50, false, "P1");
    assert Listed([p0, q1], false) == {"P1"} by {
      assert [p0, q1][1] == q1;
    }
    var sizes := map["P1" := 0];
    assert [p0, q1][..1] == [p0] && [p0][..0] == [];
    assert FreeTotal([]) == 0 && InternalTotal([], sizes) == 0;
    assert InternalTotal([p0], sizes) == 0 && FreeTotal([p0]) == 10;
    assert InternalTotal([p0, q1], sizes) == 50;
    assert FreeTotal([p0, q1]) == 10;
  }

  class MemoryManager {
    var dynamicMemory: seq<Block>
    var fixedMemory: seq<Block>
    var processSizes: map<string, int>
    /** Whether the scheme is dynamic partitioning; anything else behaves as
        fixed partitioning. */
    var dynamicScheme: bool
    var totalSize: int
    var nextBlockId: int
    var algorithm: int

    /** The state a configured session keeps: under dynamic partitioning the
        blocks add up to the memory size and no two neighbours are free;
        under fixed partitioning the partitions fit in the memory. */
    ghost predicate Valid()
      reads this
    {
      && (dynamicScheme ==> Total(dynamicMemory) == totalSize && NoAdjacentFree(dynamicMemory))
      && (!dynamicScheme ==> Total(fixedMemory) <= totalSize)
    }

    /** The part of the state the commands change. */
    ghost function State(): Memory
      reads this
    {
      Memory(dynamicMemory, fixedMemory, processSizes, nextBlockId)
    }

    constructor ()
      ensures dynamicMemory == [] && fixedMemory == [] && processSizes == map[]
      ensures !dynamicScheme && totalSize == 0 && nextBlockId == 1 && algorithm == 0
    {
      dynamicMemory := [];
      fixedMemory := [];
      processSizes := map[];
      dynamicScheme := false;
      totalSize := 0;
      nextBlockId := 1;
      algorithm := 0;
    }

    /** Merges every run of neighbouring free blocks into its first block. */
    method MergeFreeBlocks()
      modifies this
      ensures dynamicMemory == Coalesced(old(dynamicMemory))
      ensures fixedMemory == old(fixedMemory) && processSizes == old(processSizes)
      ensures dynamicScheme == old(dynamicScheme) && totalSize == old(totalSize)
      ensures nextBlockId == old(nextBlockId) && algorithm == old(algorithm)
      ensures Total(dynamicMemory) == Total(old(dynamicMemory))
      ensures FreeTotal(dynamicMemory) == FreeTotal(old(dynamicMemory))
      ensures Occupied(dynamicMemory) == Occupied(old(dynamicMemory))
      ensures NoAdjacentFree(dynamicMemory)
    {
      CoalescedSums(dynamicMemory);
      CoalescedOccupied(dynamicMemory);
      CoalescedApart(dynamicMemory);
      dynamicMemory := MergeRuns(dynamicMemory);
    }

    /** Dynamic allocation: the rule picks a free block large enough; a
        larger block is split, the rest becoming a new free block right
        after it; the process's size is recorded. Returns the block's index,
        or -1 when nothing qualifies, in which case nothing changes. */
    method AllocateDynamic(pid: string, size: int) returns (k: int)
      modifies this
      ensures k == Pick(old(dynamicMemory), algorithm, size, Dynamic)
      ensures k == -1 ==> NoChoice(old(dynamicMemory), algorithm, size, Dynamic)
      ensures k == -1 ==> dynamicMemory == old(dynamicMemory) && processSizes == old(processSizes) && nextBlockId == old(nextBlockId)
      ensures k != -1 ==> Selects(old(dynamicMemory), algorithm, size, Dynamic, k)
      ensures k != -1 ==> dynamicMemory == Place(old(dynamicMemory), k, pid, size, old(nextBlockId))
      ensures k != -1 ==> nextBlockId == NextIdAfter(old(dynamicMemory), k, size, old(nextBlockId))
      ensures k != -1 ==> processSizes == old(processSizes)[pid := size]
      ensures fixedMemory == old(fixedMemory) && dynamicScheme == old(dynamicScheme)
      ensures totalSize == old(totalSize) && algorithm == old(algorithm)
      ensures Total(dynamicMemory) == Total(old(dynamicMemory))
      ensures FreeTotal(dynamicMemory) == FreeTotal(old(dynamicMemory)) - (if k == -1 then 0 else size)
      ensures old(NoAdjacentFree(dynamicMemory)) ==> NoAdjacentFree(dynamicMemory)
    {
      k := Choose(dynamicMemory, algorithm, size, Dynamic);
      if k != -1 {
        PlaceInBlock(k, pid, size);
      }
    }

    /** Places `pid` in the free block `k`, splitting it when larger, and
        records the process's size. */
    method PlaceInBlock(k: int, pid: string, size: int)
      requires 0 <= k < |dynamicMemory| && Fits(dynamicMemory[k], size)
      modifies this
      ensures dynamicMemory == Place(old(dynamicMemory), k, pid, size, old(nextBlockId))
      ensures nextBlockId == NextIdAfter(old(dynamicMemory), k, size, old(nextBlockId))
      ensures processSizes == old(processSizes)[pid := size]
      ensures fixedMemory == old(fixedMemory) && dynamicScheme == old(dynamicScheme)
      ensures totalSize == old(totalSize) && algorithm == old(algorithm)
      ensures Total(dynamicMemory) == Total(old(dynamicMemory))
      ensures FreeTotal(dynamicMemory) == FreeTotal(old(dynamicMemory)) - size
      ensures old(NoAdjacentFree(dynamicMemory)) ==> NoAdjacentFree(dynamicMemory)
    {
      var blocks := dynamicMemory;
      PlaceSums(blocks, k, pid, size, nextBlockId);
      if NoAdjacentFree(blocks) {
        PlaceKeepsApart(blocks, k, pid, size, nextBlockId);
      }
      SplitThenMark(blocks, k, pid, size, nextBlockId);
      processSizes := processSizes[pid := size];
      var b := blocks[k];
      if b.size > size {
        var rest := Block(nextBlockId, b.size - size, true, "");
        nextBlockId := nextBlockId + 1;
        blocks := blocks[..k] + [b.(size := size), rest] + blocks[k + 1..];
      }
      blocks := blocks[k := blocks[k].(isFree := false, owner := pid)];
      dynamicMemory := blocks;
    }

    /** Fixed allocation: the rule picks a free partition large enough,
        which becomes occupied; the process's size is recorded. Returns the
        partition's index, or -1 when nothing qualifies, in which case
        nothing changes. */
    method AllocateFixed(pid: string, size: int) returns (k: int)
      modifies this
      ensures k == Pick(old(fixedMemory), algorithm, size, Fixed)
      ensures k == -1 ==> NoChoice(old(fixedMemory), algorithm, size, Fixed)
      ensures k == -1 ==> fixedMemory == old(fixedMemory) && processSizes == old(processSizes)
      ensures k != -1 ==> Selects(old(fixedMemory), algorithm, size, Fixed, k)
      ensures k != -1 ==> fixedMemory == Occupy(old(fixedMemory), k, pid) && processSizes == old(processSizes)[pid := size]
      ensures SameLayout(fixedMemory, old(fixedMemory))
      ensures old(SizesFit(fixedMemory, processSizes)) && (forall j :: 0 <= j < |old(fixedMemory)| ==> !Owns(old(fixedMemory)[j], pid))
              ==> SizesFit(fixedMemory, processSizes)
      ensures dynamicMemory == old(dynamicMemory) && nextBlockId == old(nextBlockId) && dynamicScheme == old(dynamicScheme)
      ensures totalSize == old(totalSize) && algorithm == old(algorithm)
    {
      k := Choose(fixedMemory, algorithm, size, Fixed);
      if k != -1 {
        if SizesFit(fixedMemory, processSizes) && forall j :: 0 <= j < |fixedMemory| ==> !Owns(fixedMemory[j], pid) {
          OccupyKeepsSizesFit(fixedMemory, processSizes, k, pid, size);
        }
        fixedMemory := fixedMemory[k := fixedMemory[k].(isFree := false, owner := pid)];
        processSizes := processSizes[pid := size];
      }
    }

    /** Dynamic release: frees every block `pid` occupies and forgets its
        size, then, if anything was freed, merges free neighbours. Returns
        whether `pid` was found. */
    method LiberateDynamic(pid: string) returns (found: bool)
      modifies this
      ensures found <==> exists j :: 0 <= j < |old(dynamicMemory)| && Owns(old(dynamicMemory)[j], pid)
      ensures found ==> dynamicMemory == Coalesced(ReleaseAll(old(dynamicMemory), pid)) && processSizes == old(processSizes) - {pid}
      ensures !found ==> dynamicMemory == old(dynamicMemory) && processSizes == old(processSizes)
      ensures fixedMemory == old(fixedMemory) && nextBlockId == old(nextBlockId) && dynamicScheme == old(dynamicScheme)
      ensures totalSize == old(totalSize) && algorithm == old(algorithm)
      ensures Total(dynamicMemory) == Total(old(dynamicMemory))
      ensures old(NoAdjacentFree(dynamicMemory)) ==> NoAdjacentFree(dynamicMemory)
    {
      var blocks := dynamicMemory;
      var sizes := processSizes;
      found := false;
      for j := 0 to |blocks|
        invariant |blocks| == |dynamicMemory|
        invariant forall t :: 0 <= t < j ==> blocks[t] == Release(dynamicMemory[t], pid)
        invariant forall t :: j <= t < |blocks| ==> blocks[t] == dynamicMemory[t]
        invariant found <==> exists t :: 0 <= t < j && Owns(dynamicMemory[t], pid)
        invariant sizes == if found then processSizes - {pid} else processSizes
        invariant unchanged(this)
      {
        if !blocks[j].isFree && blocks[j].owner == pid {
          blocks := blocks[j := blocks[j].(isFree := true, owner := "")];
          sizes := sizes - {pid};
          found := true;
        }
      }
      assert blocks == ReleaseAll(dynamicMemory, pid);
      ReleaseAllTotal(dynamicMemory, pid);
      ReleaseAllProperties(dynamicMemory, pid);
      dynamicMemory := blocks;
      processSizes := sizes;
      if found {
        MergeFreeBlocks();
      }
    }

    /** Fixed release: frees the first partition `pid` occupies and forgets
        its size. Returns that partition's index, or -1 when `pid` occupies
        none, in which case nothing changes. */
    method LiberateFixed(pid: string) returns (k: int)
      modifies this
      ensures k == FirstOwned(old(fixedMemory), pid)
      ensures k == -1 ==> fixedMemory == old(fixedMemory) && processSizes == old(processSizes)
      ensures k != -1 ==> fixedMemory == old(fixedMemory)[k := old(fixedMemory)[k].(isFree := true, owner := "")]
      ensures k != -1 ==> processSizes == old(processSizes) - {pid}
      ensures SameLayout(fixedMemory, old(fixedMemory))
      ensures old(SizesFit(fixedMemory, processSizes)) ==> SizesFit(fixedMemory, processSizes)
      ensures dynamicMemory == old(dynamicMemory) && nextBlockId == old(nextBlockId) && dynamicScheme == old(dynamicScheme)
      ensures totalSize == old(totalSize) && algorithm == old(algorithm)
    {
      k := -1;
      var i := 0;
      while i < |fixedMemory|
        invariant 0 <= i <= |fixedMemory| && k == -1
        invariant forall j :: 0 <= j < i ==> !Owns(fixedMemory[j], pid)
        invariant unchanged(this)
      {
        if !fixedMemory[i].isFree && fixedMemory[i].owner == pid {
          k := i;
          break;
        }
        i := i + 1;
      }
      if k != -1 {
        if SizesFit(fixedMemory, processSizes) {
          FreeKeepsSizesFit(fixedMemory, processSizes, k, pid);
        }
        fixedMemory := fixedMemory[k := fixedMemory[k].(isFree := true, owner := "")];
        processSizes := processSizes - {pid};
      }
    }

    /** Allocation under the configured scheme. Returns the index of the
        block or partition used, or -1 (and nothing changes) when the rule
        finds none. */
    method Allocate(pid: string, size: int) returns (k: int)
      requires Valid()
      modifies this
      ensures Valid()
      ensures State() == Allocated(old(State()), dynamicScheme, algorithm, pid, size)
      ensures dynamicScheme ==> (k == -1 <==> NoChoice(old(dynamicMemory), algorithm, size, Dynamic))
      ensures !dynamicScheme ==> (k == -1 <==> NoChoice(old(fixedMemory), algorithm, size, Fixed))
      ensures k == -1 ==> dynamicMemory == old(dynamicMemory) && fixedMemory == old(fixedMemory) && processSizes == old(processSizes)
      ensures k != -1 ==> processSizes == old(processSizes)[pid := size]
      ensures SameLayout(fixedMemory, old(fixedMemory)) && nextBlockId >= old(nextBlockId)
      ensures dynamicScheme == old(dynamicScheme) && totalSize == old(totalSize) && algorithm == old(algorithm)
    {
      if dynamicScheme {
        k := AllocateDynamic(pid, size);
        if k != -1 {
          SelectsUnique(old(dynamicMemory), algorithm, size, Dynamic, k, k);
        }
      } else {
        k := AllocateFixed(pid, size);
        if k != -1 {
          SelectsUnique(old(fixedMemory), algorithm, size, Fixed, k, k);
        }
        SameLayoutTotal(fixedMemory, old(fixedMemory));
      }
    }

    /** Release under the configured scheme. Returns whether `pid` held any
        memory; when it held none, nothing changes. */
    method Liberate(pid: string) returns (found: bool)
      requires Valid()
      modifies this
      ensures Valid()
      ensures State() == Liberated(old(State()), dynamicScheme, pid)
      ensures dynamicScheme ==> (found <==> exists j :: 0 <= j < |old(dynamicMemory)| && Owns(old(dynamicMemory)[j], pid))
      ensures !dynamicScheme ==> (found <==> exists j :: 0 <= j < |old(fixedMemory)| && Owns(old(fixedMemory)[j], pid))
      ensures !found ==> dynamicMemory == old(dynamicMemory) && fixedMemory == old(fixedMemory) && processSizes == old(processSizes)
      ensures found ==> processSizes == old(processSizes) - {pid}
      ensures SameLayout(fixedMemory, old(fixedMemory)) && nextBlockId == old(nextBlockId)
      ensures dynamicScheme == old(dynamicScheme) && totalSize == old(totalSize) && algorithm == old(algorithm)
    {
      if dynamicScheme {
        found := LiberateDynamic(pid);
        if !found {
          assert FirstOwned(old(dynamicMemory), pid) == -1;
        }
      } else {
        var k := LiberateFixed(pid);
        found := k != -1;
        SameLayoutTotal(fixedMemory, old(fixedMemory));
      }
    }

    /** The lookups of the memory map: every occupant it lists (blocks of
        positive size under dynamic partitioning) is looked up in the
        recorded sizes, which records size 0 for one without an entry. */
    method PrintShellFormat()
      modifies this
      ensures processSizes == ShownSizes(if dynamicScheme then dynamicMemory else fixedMemory, old(processSizes), dynamicScheme)
      ensures dynamicMemory == old(dynamicMemory) && fixedMemory == old(fixedMemory) && nextBlockId == old(nextBlockId)
      ensures dynamicScheme == old(dynamicScheme) && totalSize == old(totalSize) && algorithm == old(algorithm)
    {
      var blocks := if dynamicScheme then dynamicMemory else fixedMemory;
      var sizes := processSizes;
      for i := 0 to |blocks|
        invariant sizes == ShownSizes(blocks[..i], processSizes, dynamicScheme)
        invariant unchanged(this)
      {
        ShownStep(blocks, i, processSizes, dynamicScheme);
        var b := blocks[i];
        if !b.isFree && (!dynamicScheme || b.size > 0) && b.owner !in sizes {
          sizes := sizes[b.owner := 0];
        }
      }
      assert blocks[..|blocks|] == blocks;
      processSizes := sizes;
    }

    /** The fragmentation report: under dynamic partitioning no internal
        fragmentation and the free space as external fragmentation; under
        fixed partitioning the unused space of occupied partitions and the
        size of the free ones. */
    method Fragmentation() returns (internal: int, external: int)
      ensures dynamicScheme ==> internal == 0 && external == FreeTotal(dynamicMemory)
      ensures !dynamicScheme ==> internal == InternalTotal(fixedMemory, processSizes) && external == FreeTotal(fixedMemory)
    {
      internal, external := 0, 0;
      if dynamicScheme {
        for i := 0 to |dynamicMemory|
          invariant external == FreeTotal(dynamicMemory[..i])
        {
          assert dynamicMemory[..i + 1][..i] == dynamicMemory[..i];
          if dynamicMemory[i].isFree {
            external := external + dynamicMemory[i].size;
          }
        }
        assert dynamicMemory[..|dynamicMemory|] == dynamicMemory;
      } else {
        for i := 0 to |fixedMemory|
          invariant internal == InternalTotal(fixedMemory[..i], processSizes)
          invariant external == FreeTotal(fixedMemory[..i])
        {
          var partition := fixedMemory[i];
          assert fixedMemory[..i + 1][..i] == fixedMemory[..i];
          if !partition.isFree && partition.owner in processSizes {
            internal := internal + (partition.size - processSizes[partition.owner]);
          }
          if partition.isFree {
            external := external + partition.size;
          }
        }
        assert fixedMemory[..|fixedMemory|] == fixedMemory;
      }
    }

    /** The configuration part of a session: the memory size, the scheme
        (1 fixed, 2 dynamic) with its partition sizes, and the rule. A
        non-positive size, an unknown scheme or partitions adding up to more
        than the memory end the session (`ok` false). */
    method Setup(total: int, scheme: int, partitionSizes: seq<int>, rule: int) returns (ok: bool)
      requires dynamicMemory == [] && fixedMemory == []
      modifies this
      ensures ok <==> total > 0 && (scheme == 2 || (scheme == 1 && Total(Partitions(partitionSizes)) <= total))
      ensures ok ==> Valid()
      ensures totalSize == total && algorithm == (if ok then rule else old(algorithm))
      ensures processSizes == old(processSizes) && nextBlockId == old(nextBlockId)
      ensures total > 0 && scheme == 1 ==> !dynamicScheme && fixedMemory == Partitions(partitionSizes) && dynamicMemory == []
      ensures total > 0 && scheme == 2 ==> dynamicScheme && dynamicMemory == [Block(0, total, true, "")] && fixedMemory == []
      ensures total <= 0 || (scheme != 1 && scheme != 2) ==> dynamicMemory == [] && fixedMemory == [] && dynamicScheme == old(dynamicScheme)
    {
      totalSize := total;
      if total <= 0 {
        return false;
      }
      if scheme == 1 {
        dynamicScheme := false;
        var parts, current := LayOut(partitionSizes);
        fixedMemory := parts;
        if current > total {
          return false;
        }
      } else if scheme == 2 {
        dynamicScheme := true;
        dynamicMemory := [Block(0, total, true, "")];
        assert [Block(0, total, true, "")][..0] == [];
      } else {
        return false;
      }
      algorithm := rule;
      ok := true;
    }

    /** One command of a session other than `M`: an allocation, a release,
        or nothing. */
    method Perform(command: Command)
      requires Valid() && command != ShowMap
      modifies this
      ensures Valid()
      ensures State() == Step(old(State()), dynamicScheme, algorithm, command)
      ensures SameLayout(fixedMemory, old(fixedMemory)) && nextBlockId >= old(nextBlockId)
      ensures dynamicScheme == old(dynamicScheme) && totalSize == old(totalSize) && algorithm == old(algorithm)
    {
      match command {
        case Alloc(pid, size) =>
          var _ := Allocate(pid, size);
        case Free(pid) =>
          var _ := Liberate(pid);
        case Skip =>
      }
    }

    /** The command loop of a session: allocations and releases in order
        until the first `M`, which reports the fragmentation and ends it.
        Every step keeps the session's invariant and the partition layout. */
    method Execute(commands: seq<Command>) returns (shown: bool, internal: int, external: int)
      requires Valid()
      modifies this
      ensures Valid()
      ensures shown <==> ShowMap in commands
      ensures State() == Session(old(State()), dynamicScheme, algorithm, commands)
      ensures shown ==> (internal, external) == Report(State(), dynamicScheme)
      ensures !shown ==> internal == 0 && external == 0
      ensures SameLayout(fixedMemory, old(fixedMemory)) && nextBlockId >= old(nextBlockId)
      ensures dynamicScheme == old(dynamicScheme) && totalSize == old(totalSize) && algorithm == old(algorithm)
    {
      shown, internal, external := false, 0, 0;
      var i := 0;
      while i < |commands|
        invariant 0 <= i <= |commands|
        invariant Valid() && ShowMap !in commands[..i]
        invariant Session(old(State()), dynamicScheme, algorithm, commands) == Session(State(), dynamicScheme, algorithm, commands[i..])
        invariant !shown && internal == 0 && external == 0
        invariant SameLayout(fixedMemory, old(fixedMemory)) && nextBlockId >= old(nextBlockId)
        invariant dynamicScheme == old(dynamicScheme) && totalSize == old(totalSize) && algorithm == old(algorithm)
      {
        if commands[i] == ShowMap {
          PrintShellFormat();
          internal, external := Fragmentation();
          shown := true;
          break;
        }
        Perform(commands[i]);
        assert commands[..i + 1] == commands[..i] + [commands[i]];
        assert commands[i..][0] == commands[i] && commands[i..][1..] == commands[i + 1..];
        i := i + 1;
      }
      if !shown {
        assert commands[..i] == commands;
      }
    }
  }
}
