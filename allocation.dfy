/**
 * Contiguous memory allocation. Each request, in order, is bound to one free
 * block that is large enough, chosen by First-Fit (the lowest index) or by
 * Best-Fit (the smallest size, the lowest index among equal sizes). Blocks
 * are never freed, and a request nothing fits is reported and skipped.
 */
module MemoryAllocation {
  import opened Records

  /** The initial running minimum of Best-Fit: no block of this size or more
      is ever chosen by it. */
  const Sentinel := 99999

  datatype Strategy = First | Best

  /** Block b is free and at least req large. */
  predicate Fits(b: MemoryBlock, req: int) {
    !b.isAllocated && b.size >= req
  }

  /** First-Fit's choice among bs[..n]: the lowest index that fits. */
  function FirstFitIn(bs: seq<MemoryBlock>, req: int, n: nat): (r: Option<nat>)
    requires n <= |bs|
    ensures r.Some? ==> r.value < n && Fits(bs[r.value], req)
    ensures r.Some? ==> forall k :: 0 <= k < r.value ==> !Fits(bs[k], req)
    ensures r.None? <==> forall k :: 0 <= k < n ==> !Fits(bs[k], req)
  {
    if n == 0 then None
    else
      match FirstFitIn(bs, req, n - 1)
      case Some(j) => Some(j)
      case None => if Fits(bs[n - 1], req) then Some(n - 1) else None
  }

  /** Best-Fit's choice among bs[..n], scanning with a strict comparison
      against a running minimum that starts at Sentinel. */
  function BestFitIn(bs: seq<MemoryBlock>, req: int, n: nat): (r: Option<nat>)
    requires n <= |bs|
    ensures r.Some? ==> r.value < n && Fits(bs[r.value], req) && bs[r.value].size < Sentinel
    ensures r.Some? ==> forall k :: 0 <= k < n && Fits(bs[k], req) ==> bs[r.value].size <= bs[k].size
    ensures r.Some? ==> forall k :: 0 <= k < r.value && Fits(bs[k], req) ==> bs[r.value].size < bs[k].size
    ensures r.None? <==> forall k :: 0 <= k < n && Fits(bs[k], req) ==> bs[k].size >= Sentinel
  {
    if n == 0 then None
    else
      var r := BestFitIn(bs, req, n - 1);
      var minSize := if r.Some? then bs[r.value].size else Sentinel;
      if Fits(bs[n - 1], req) && bs[n - 1].size < minSize then Some(n - 1) else r
  }

  /** The block a strategy picks for a request: always a free block that is
      large enough. */
  function Choose(st: Strategy, bs: seq<MemoryBlock>, req: int): (r: Option<nat>)
    ensures r.Some? ==> r.value < |bs| && Fits(bs[r.value], req)
  {
    match st
    case First => FirstFitIn(bs, req, |bs|)
    case Best => BestFitIn(bs, req, |bs|)
  }

  /** Binds the chosen block, if any, to request number proc. */
  function Bind(bs: seq<MemoryBlock>, choice: Option<nat>, proc: int): (r: seq<MemoryBlock>)
    requires choice.Some? ==> choice.value < |bs|
    ensures |r| == |bs|
    ensures choice.None? ==> r == bs
    ensures choice.Some? ==>
      var j := choice.value;
      r[j].isAllocated && r[j].allocatedProcess == proc && r[j].id == bs[j].id && r[j].size == bs[j].size
      && forall k :: 0 <= k < |bs| && k != j ==> r[k] == bs[k]
  {
    match choice
    case None => bs
    case Some(j) => bs[j := bs[j].(isAllocated := true, allocatedProcess := proc)]
  }

  /** The blocks after the requests of sizes have been handled in order;
      request i (0-based) is bound under the number i + 1. */
  function Allocate(st: Strategy, bs: seq<MemoryBlock>, sizes: seq<int>): (r: seq<MemoryBlock>)
    ensures |r| == |bs|
  {
    if sizes == [] then bs
    else
      var before := Allocate(st, bs, sizes[..|sizes| - 1]);
      Bind(before, Choose(st, before, sizes[|sizes| - 1]), |sizes|)
  }

  /** The numbers of the requests reported as "cannot be allocated". */
  function Unallocated(st: Strategy, bs: seq<MemoryBlock>, sizes: seq<int>): (r: seq<nat>)
    ensures |r| <= |sizes|
    ensures forall k :: 0 <= k < |r| ==> 1 <= r[k] <= |sizes|
    ensures forall a, b :: 0 <= a < b < |r| ==> r[a] < r[b]
  {
    if sizes == [] then []
    else
      var before := Allocate(st, bs, sizes[..|sizes| - 1]);
      Unallocated(st, bs, sizes[..|sizes| - 1])
        + (if Choose(st, before, sizes[|sizes| - 1]).None? then [|sizes|] else [])
  }

  /** One more request adds its number to the report exactly when no block
      is chosen for it. */
  lemma UnallocatedStep(st: Strategy, bs: seq<MemoryBlock>, sizes: seq<int>)
    requires sizes != []
    ensures Unallocated(st, bs, sizes)
         == Unallocated(st, bs, sizes[..|sizes| - 1])
            + (if Choose(st, Allocate(st, bs, sizes[..|sizes| - 1]), sizes[|sizes| - 1]).None? then [|sizes|] else [])
  {
  }

  /** Block j was free before the run and is bound after it. */
  predicate NewlyBound(bs: seq<MemoryBlock>, r: seq<MemoryBlock>, j: nat)
    requires j < |bs| == |r|
  {
    !bs[j].isAllocated && r[j].isAllocated
  }

  /** Block j was bound during the run to request number q. */
  predicate Bound(bs: seq<MemoryBlock>, r: seq<MemoryBlock>, j: nat, q: int)
    requires j < |bs| == |r|
  {
    NewlyBound(bs, r, j) && r[j].allocatedProcess == q
  }

  /** Blocks keep their id and size, a bound block stays bound to the same
      request, and a block still free at the end was never touched. */
  lemma {:induction false} AllocateKeepsBlocks(st: Strategy, bs: seq<MemoryBlock>, sizes: seq<int>)
    ensures var r := Allocate(st, bs, sizes);
      forall j :: 0 <= j < |bs| ==>
        r[j].id == bs[j].id && r[j].size == bs[j].size
        && (bs[j].isAllocated ==> r[j] == bs[j])
        && (!r[j].isAllocated ==> r[j] == bs[j])
  {
    if sizes != [] {
      AllocateKeepsBlocks(st, bs, sizes[..|sizes| - 1]);
    }
  }

  /** Every block bound during the run is bound to one of the requests and is
      large enough for it, and no request is bound to two blocks. */
  lemma {:induction false} AllocateBindsOnce(st: Strategy, bs: seq<MemoryBlock>, sizes: seq<int>)
    ensures var r := Allocate(st, bs, sizes);
      forall j :: 0 <= j < |bs| && NewlyBound(bs, r, j) ==>
        1 <= r[j].allocatedProcess <= |sizes| && r[j].size >= sizes[r[j].allocatedProcess - 1]
    ensures var r := Allocate(st, bs, sizes);
      forall j, k :: 0 <= j < k < |bs| && NewlyBound(bs, r, j) && NewlyBound(bs, r, k) ==>
        r[j].allocatedProcess != r[k].allocatedProcess
  {
    if sizes != [] {
      var prefix := sizes[..|sizes| - 1];
      var before := Allocate(st, bs, prefix);
      AllocateBindsOnce(st, bs, prefix);
      AllocateKeepsBlocks(st, bs, prefix);
      forall j | 0 <= j < |bs| && NewlyBound(bs, before, j)
        ensures j < |bs| && sizes[before[j].allocatedProcess - 1] == prefix[before[j].allocatedProcess - 1]
      {
      }
    }
  }

  /** A request is reported as unallocatable exactly when no block was bound
      to it. */
  lemma {:induction false} UnallocatedExactly(st: Strategy, bs: seq<MemoryBlock>, sizes: seq<int>, q: int)
    requires 1 <= q <= |sizes|
    ensures q in Unallocated(st, bs, sizes)
      <==> !exists j :: 0 <= j < |bs| && Bound(bs, Allocate(st, bs, sizes), j, q)
  {
    var prefix := sizes[..|sizes| - 1];
    var before := Allocate(st, bs, prefix);
    AllocateBindsOnce(st, bs, prefix);
    AllocateKeepsBlocks(st, bs, prefix);
    var r := Allocate(st, bs, sizes);
    var c := Choose(st, before, sizes[|sizes| - 1]);
    if q < |sizes| {
      UnallocatedExactly(st, bs, prefix, q);
      forall j | 0 <= j < |bs|
        ensures Bound(bs, r, j, q) <==> Bound(bs, before, j, q)
      {
        if c.Some? && j == c.value {
          assert !before[j].isAllocated;
        }
      }
      assert q in Unallocated(st, bs, sizes) <==> q in Unallocated(st, bs, prefix);
      if q !in Unallocated(st, bs, sizes) {
        var j :| 0 <= j < |bs| && Bound(bs, before, j, q);
        assert Bound(bs, r, j, q);
        assert exists j :: 0 <= j < |bs| && Bound(bs, Allocate(st, bs, sizes), j, q);
      } else {
        assert !exists j :: 0 <= j < |bs| && Bound(bs, Allocate(st, bs, sizes), j, q);
      }
    } else if c.Some? {
      assert q !in Unallocated(st, bs, prefix);
      assert Bound(bs, r, c.value, q);
      assert q !in Unallocated(st, bs, sizes);
      assert exists j :: 0 <= j < |bs| && Bound(bs, Allocate(st, bs, sizes), j, q);
    } else {
      assert r == before;
      assert q in Unallocated(st, bs, sizes) <==> !exists j :: 0 <= j < |bs| && Bound(bs, Allocate(st, bs, sizes), j, q);
    }
  }

  /** The inner scan of First-Fit: the lowest index of a free block of at
      least req, or -1 when there is none. */
  method FindFirstFit(blocks: array<MemoryBlock>, req: int) returns (j: int)
    ensures -1 <= j < blocks.Length
    ensures j != -1 ==> Fits(blocks[j], req) && forall k :: 0 <= k < j ==> !Fits(blocks[k], req)
    ensures j == -1 <==> forall k :: 0 <= k < blocks.Length ==> !Fits(blocks[k], req)
    ensures FirstFitIn(blocks[..], req, blocks.Length) == if j == -1 then None else Some(j)
  {
    j := 0;
    while j < blocks.Length
      invariant 0 <= j <= blocks.Length
      invariant forall k :: 0 <= k < j ==> !Fits(blocks[k], req)
    {
      if !blocks[j].isAllocated && blocks[j].size >= req {
        return;
      }
      j := j + 1;
    }
    j := -1;
  }

  /** The inner scan of Best-Fit: the smallest free block of at least req
      and below Sentinel, the lowest index among equal sizes, or -1 when
      there is none. */
  method FindBestFit(blocks: array<MemoryBlock>, req: int) returns (bestIdx: int)
    ensures -1 <= bestIdx < blocks.Length
    ensures bestIdx != -1 ==>
      Fits(blocks[bestIdx], req) && blocks[bestIdx].size < Sentinel
      && (forall k :: 0 <= k < blocks.Length && Fits(blocks[k], req) ==> blocks[bestIdx].size <= blocks[k].size)
      && (forall k :: 0 <= k < bestIdx && Fits(blocks[k], req) ==> blocks[bestIdx].size < blocks[k].size)
    ensures bestIdx == -1 <==>
      forall k :: 0 <= k < blocks.Length && Fits(blocks[k], req) ==> blocks[k].size >= Sentinel
    ensures BestFitIn(blocks[..], req, blocks.Length) == if bestIdx == -1 then None else Some(bestIdx)
  {
    bestIdx := -1;
    var minSize := Sentinel;
    for j := 0 to blocks.Length
      invariant BestFitIn(blocks[..], req, j) == if bestIdx == -1 then None else Some(bestIdx)
      invariant minSize == if bestIdx == -1 then Sentinel else blocks[bestIdx].size
    {
      if !blocks[j].isAllocated && blocks[j].size >= req && blocks[j].size < minSize {
        bestIdx := j;
        minSize := blocks[j].size;
      }
    }
  }

  /** First-Fit over the blocks, one request at a time; returns the numbers
      of the requests that could not be allocated. */
  method FirstFit(blocks: array<MemoryBlock>, processSizes: seq<int>) returns (unallocated: seq<nat>)
    modifies blocks
    ensures blocks[..] == Allocate(First, old(blocks[..]), processSizes)
    ensures unallocated == Unallocated(First, old(blocks[..]), processSizes)
  {
    ghost var bs0 := blocks[..];
    unallocated := [];
    for i := 0 to |processSizes|
      invariant blocks[..] == Allocate(First, bs0, processSizes[..i])
      invariant unallocated == Unallocated(First, bs0, processSizes[..i])
    {
      assert processSizes[..i + 1][..i] == processSizes[..i];
      var j := FindFirstFit(blocks, processSizes[i]);
      if j != -1 {
        blocks[j] := blocks[j].(isAllocated := true, allocatedProcess := i + 1);
      } else {
        unallocated := unallocated + [i + 1];
      }
    }
    assert processSizes[..|processSizes|] == processSizes;
  }

  /** Best-Fit over the blocks, one request at a time; returns the numbers
      of the requests that could not be allocated. */
  method BestFit(blocks: array<MemoryBlock>, processSizes: seq<int>) returns (unallocated: seq<nat>)
    modifies blocks
    ensures blocks[..] == Allocate(Best, old(blocks[..]), processSizes)
    ensures unallocated == Unallocated(Best, old(blocks[..]), processSizes)
  {
    ghost var bs0 := blocks[..];
    unallocated := [];
    for i := 0 to |processSizes|
      invariant blocks[..] == Allocate(Best, bs0, processSizes[..i])
      invariant unallocated == Unallocated(Best, bs0, processSizes[..i])
    {
      assert processSizes[..i + 1][..i] == processSizes[..i];
      var bestIdx := FindBestFit(blocks, processSizes[i]);
      if bestIdx != -1 {
        blocks[bestIdx] := blocks[bestIdx].(isAllocated := true, allocatedProcess := i + 1);
      } else {
        unallocated := unallocated + [i + 1];
      }
    }
    assert processSizes[..|processSizes|] == processSizes;
  }

  /** The block catalogue and the requests of the original program. */
  const ExampleBlocks := [MemoryBlock(1, 100, 0, false), MemoryBlock(2, 500, 0, false), MemoryBlock(3, 200, 0, false),
                          MemoryBlock(4, 300, 0, false), MemoryBlock(5, 600, 0, false)]
  const ExampleSizes := [212, 417, 112, 426]

  /** The block First-Fit picks for each request of the example, given the
      blocks bound by the earlier requests. */
  lemma FirstFitChoices()
    ensures FirstFitIn(ExampleBlocks, 212, 5) == Some(1)
    ensures FirstFitIn([MemoryBlock(1, 100, 0, false), MemoryBlock(2, 500, 1, true), MemoryBlock(3, 200, 0, false),
                       MemoryBlock(4, 300, 0, false), MemoryBlock(5, 600, 0, false)], 417, 5) == Some(4)
    ensures FirstFitIn([MemoryBlock(1, 100, 0, false), MemoryBlock(2, 500, 1, true), MemoryBlock(3, 200, 0, false),
                       MemoryBlock(4, 300, 0, false), MemoryBlock(5, 600, 2, true)], 112, 5) == Some(2)
    ensures FirstFitIn([MemoryBlock(1, 100, 0, false), MemoryBlock(2, 500, 1, true), MemoryBlock(3, 200, 3, true),
                       MemoryBlock(4, 300, 0, false), MemoryBlock(5, 600, 2, true)], 426, 5) == None
  {
  }

  /** The first two requests of the example under First-Fit. */
  lemma FirstFitExampleHalf()
    ensures Allocate(First, ExampleBlocks, ExampleSizes[..2])
         == [MemoryBlock(1, 100, 0, false), MemoryBlock(2, 500, 1, true), MemoryBlock(3, 200, 0, false),
             MemoryBlock(4, 300, 0, false), MemoryBlock(5, 600, 2, true)]
    ensures Unallocated(First, ExampleBlocks, ExampleSizes[..2]) == []
  {
    var b0 := ExampleBlocks;
    var b1 := [MemoryBlock(1, 100, 0, false), MemoryBlock(2, 500, 1, true), MemoryBlock(3, 200, 0, false),
               MemoryBlock(4, 300, 0, false), MemoryBlock(5, 600, 0, false)];
    FirstFitChoices();
    assert Choose(First, b0, 212) == Some(1) && Choose(First, b1, 417) == Some(4);
    assert ExampleSizes[..2][..1][..0] == [];
    assert Allocate(First, b0, ExampleSizes[..2][..1]) == b1;
    UnallocatedStep(First, b0, ExampleSizes[..2][..1]);
    UnallocatedStep(First, b0, ExampleSizes[..2]);
  }

  /** First-Fit binds 212 to block 2, 417 to block 5, 112 to block 3 and
      cannot place 426. */
  lemma FirstFitExample()
    ensures Allocate(First, ExampleBlocks, ExampleSizes)
         == [MemoryBlock(1, 100, 0, false), MemoryBlock(2, 500, 1, true), MemoryBlock(3, 200, 3, true),
             MemoryBlock(4, 300, 0, false), MemoryBlock(5, 600, 2, true)]
    ensures Unallocated(First, ExampleBlocks, ExampleSizes) == [4]
  {
    var b0 := ExampleBlocks;
    var b2 := [MemoryBlock(1, 100, 0, false), MemoryBlock(2, 500, 1, true), MemoryBlock(3, 200, 0, false),
               MemoryBlock(4, 300, 0, false), MemoryBlock(5, 600, 2, true)];
    var b3 := [MemoryBlock(1, 100, 0, false), MemoryBlock(2, 500, 1, true), MemoryBlock(3, 200, 3, true),
               MemoryBlock(4, 300, 0, false), MemoryBlock(5, 600, 2, true)];
    FirstFitChoices();
    FirstFitExampleHalf();
    assert Choose(First, b2, 112) == Some(2) && Choose(First, b3, 426) == None;
    assert ExampleSizes[..3][..2] == ExampleSizes[..2];
    assert Allocate(First, b0, ExampleSizes[..3]) == b3;
    UnallocatedStep(First, b0, ExampleSizes[..3]);
    UnallocatedStep(First, b0, ExampleSizes);
  }

  /** The block Best-Fit picks for each request of the example, given the
      blocks bound by the earlier requests. */
  lemma BestFitChoices()
    ensures BestFitIn(ExampleBlocks, 212, 5) == Some(3)
    ensures BestFitIn([MemoryBlock(1, 100, 0, false), MemoryBlock(2, 500, 0, false), MemoryBlock(3, 200, 0, false),
                       MemoryBlock(4, 300, 1, true), MemoryBlock(5, 600, 0, false)], 417, 5) == Some(1)
    ensures BestFitIn([MemoryBlock(1, 100, 0, false), MemoryBlock(2, 500, 2, true), MemoryBlock(3, 200, 0, false),
                       MemoryBlock(4, 300, 1, true), MemoryBlock(5, 600, 0, false)], 112, 5) == Some(2)
    ensures BestFitIn([MemoryBlock(1, 100, 0, false), MemoryBlock(2, 500, 2, true), MemoryBlock(3, 200, 3, true),
                       MemoryBlock(4, 300, 1, true), MemoryBlock(5, 600, 0, false)], 426, 5) == Some(4)
  {
  }

  /** The first two requests of the example under Best-Fit. */
  lemma BestFitExampleHalf()
    ensures Allocate(Best, ExampleBlocks, ExampleSizes[..2])
         == [MemoryBlock(1, 100, 0, false), MemoryBlock(2, 500, 2, true), MemoryBlock(3, 200, 0, false),
             MemoryBlock(4, 300, 1, true), MemoryBlock(5, 600, 0, false)]
    ensures Unallocated(Best, ExampleBlocks, ExampleSizes[..2]) == []
  {
    var b0 := ExampleBlocks;
    var b1 := [MemoryBlock(1, 100, 0, false), MemoryBlock(2, 500, 0, false), MemoryBlock(3, 200, 0, false),
               MemoryBlock(4, 300, 1, true), MemoryBlock(5, 600, 0, false)];
    BestFitChoices();
    assert Choose(Best, b0, 212) == Some(3) && Choose(Best, b1, 417) == Some(1);
    assert ExampleSizes[..2][..1][..0] == [];
    assert Allocate(Best, b0, ExampleSizes[..2][..1]) == b1;
    UnallocatedStep(Best, b0, ExampleSizes[..2][..1]);
    UnallocatedStep(Best, b0, ExampleSizes[..2]);
  }

  /** Best-Fit binds 212 to block 4, 417 to block 2, 112 to block 3 and 426
      to block 5. */
  lemma BestFitExample()
    ensures Allocate(Best, ExampleBlocks, ExampleSizes)
         == [MemoryBlock(1, 100, 0, false), MemoryBlock(2, 500, 2, true), MemoryBlock(3, 200, 3, true),
             MemoryBlock(4, 300, 1, true), MemoryBlock(5, 600, 4, true)]
    ensures Unallocated(Best, ExampleBlocks, ExampleSizes) == []
  {
    var b0 := ExampleBlocks;
    var b2 := [MemoryBlock(1, 100, 0, false), MemoryBlock(2, 500, 2, true), MemoryBlock(3, 200, 0, false),
               MemoryBlock(4, 300, 1, true), MemoryBlock(5, 600, 0, false)];
    var b3 := [MemoryBlock(1, 100, 0, false), MemoryBlock(2, 500, 2, true), MemoryBlock(3, 200, 3, true),
               MemoryBlock(4, 300, 1, true), MemoryBlock(5, 600, 0, false)];
    BestFitChoices();
    BestFitExampleHalf();
    assert Choose(Best, b2, 112) == Some(2) && Choose(Best, b3, 426) == Some(4);
    assert ExampleSizes[..3][..2] == ExampleSizes[..2];
    assert Allocate(Best, b0, ExampleSizes[..3]) == b3;
    UnallocatedStep(Best, b0, ExampleSizes[..3]);
    UnallocatedStep(Best, b0, ExampleSizes);
  }
}
