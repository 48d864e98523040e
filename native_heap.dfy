/**
 * The unmanaged heap behind `Marshal.AllocHGlobal`, `Marshal.Copy` and
 * `Marshal.FreeHGlobal`, restricted to the blocks the plugin allocates.
 * Addresses are positive numbers; 0 is `IntPtr.Zero`. The allocator hands
 * out addresses that are not currently live.
 */
module NativeHeap {

  import opened Host

  class HGlobalHeap {
    var blocks: map<nat, seq<byte>>  // live block address -> its bytes
    var next: nat                    // every live address is below this
    ghost var liveAtLastAlloc: nat   // how many blocks were live when the last allocation was made

    ghost predicate Valid()
      reads this
    {
      0 < next && forall p :: p in blocks ==> 0 < p < next
    }

    constructor ()
      ensures Valid() && blocks == map[]
    {
      blocks := map[];
      next := 1;
      liveAtLastAlloc := 0;
    }

    /** Reserves `size` bytes; their contents are unspecified until copied. */
    method AllocHGlobal(size: nat) returns (p: nat)
      requires Valid()
      modifies this
      ensures Valid()
      ensures p != 0 && p !in old(blocks)
      ensures p in blocks && |blocks[p]| == size
      ensures blocks.Keys == old(blocks).Keys + {p}
      ensures forall q :: q in old(blocks) ==> blocks[q] == old(blocks)[q]
      ensures liveAtLastAlloc == |old(blocks)|
    {
      liveAtLastAlloc := |blocks|;
      p := next;
      blocks := blocks[p := seq(size, _ => 0)];
      next := next + 1;
    }

    /** Copies `bytes` over the whole block at `p`. */
    method Copy(bytes: seq<byte>, p: nat)
      requires Valid() && p in blocks && |blocks[p]| == |bytes|
      modifies this
      ensures Valid()
      ensures blocks == old(blocks)[p := bytes]
      ensures liveAtLastAlloc == old(liveAtLastAlloc)
    {
      blocks := blocks[p := bytes];
    }

    /** Releases a live block; freeing anything else is undefined, so it is excluded. */
    method FreeHGlobal(p: nat)
      requires Valid() && p in blocks
      modifies this
      ensures Valid()
      ensures blocks == old(blocks) - {p}
      ensures liveAtLastAlloc == old(liveAtLastAlloc)
    {
      blocks := blocks - {p};
    }
  }
}
