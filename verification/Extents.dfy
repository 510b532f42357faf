/** Which device blocks belong to an LBA (lib/offload/OffloadPoller.cpp,
    lib/spdk/SpdkBdev.h, lib/spdk/SpdkBdev.cpp). */
module Extents {
  import opened FreeListSpec
  import IoSizes

  /** A range of device blocks: `length` blocks from `start`. */
  datatype Extent = Extent(start: nat, length: nat)

  predicate Disjoint(a: Extent, b: Extent) {
    a.start + a.length <= b.start || b.start + b.length <= a.start
  }

  predicate Inside(a: Extent, blocks: nat) {
    a.start + a.length <= blocks
  }

  /** `blk_num / blkNumForLba`, the number of LBAs the free list manages. */
  function MaxLba(blkNum: nat, blkNumForLba: nat): (r: nat)
    requires blkNumForLba > 0
  {
    blkNum / blkNumForLba
  }

  /** The extent `blocks` long that starts `lba` such extents into the device: with
      `blkNumForLba` this is what `getBlockOffsetForLba` reserves for an LBA, with a
      value's own block count it is what `doWrite` and `doRead` transfer. */
  function At(lba: nat, blocks: nat): (e: Extent) {
    Extent(blocks * lba, blocks)
  }

  lemma Slots(l1: nat, l2: nat, blocks: nat)
    requires l1 < l2
    ensures blocks * l1 + blocks <= blocks * l2
  {
    IoSizes.MulMonotone(l1 + 1, l2, blocks);
    assert (l1 + 1) * blocks == blocks * l1 + blocks;
  }

  lemma UniformDisjoint(l1: nat, l2: nat, blocks: nat)
    requires l1 != l2
    ensures Disjoint(At(l1, blocks), At(l2, blocks))
  {
    if l1 < l2 { Slots(l1, l2, blocks); } else { Slots(l2, l1, blocks); }
  }

  lemma SlotInside(lba: nat, blkNum: nat, blkNumForLba: nat)
    requires blkNumForLba > 0 && lba < MaxLba(blkNum, blkNumForLba)
    ensures Inside(At(lba, blkNumForLba), blkNum)
  {
    Slots(lba, MaxLba(blkNum, blkNumForLba), blkNumForLba);
  }

  /** Whatever the callers of the free list did, the reserved extents of the LBAs they
      hold are pairwise disjoint and inside the device. */
  lemma HeldExtentsAreSafe(blkNum: nat, blkNumForLba: nat, ops: seq<Op>)
    requires blkNumForLba > 0 && Legal(MaxLba(blkNum, blkNumForLba), ops)
    ensures var held := Exec(MaxLba(blkNum, blkNumForLba), ops).held;
            && (forall l :: l in held ==> l >= 0 && Inside(At(l, blkNumForLba), blkNum))
            && (forall l1, l2 :: l1 in held && l2 in held && l1 != l2 ==>
                  l1 >= 0 && l2 >= 0 && Disjoint(At(l1, blkNumForLba), At(l2, blkNumForLba)))
  {
    var maxLba := MaxLba(blkNum, blkNumForLba);
    if maxLba < 2 { SmallDeviceServesNothing(maxLba, ops); } else { EveryRunIsFifo(maxLba, ops); }
    var held := Exec(maxLba, ops).held;
    forall l | l in held ensures l >= 0 && Inside(At(l, blkNumForLba), blkNum) {
      SlotInside(l, blkNum, blkNumForLba);
    }
    forall l1, l2 | l1 in held && l2 in held && l1 != l2
      ensures l1 >= 0 && l2 >= 0 && Disjoint(At(l1, blkNumForLba), At(l2, blkNumForLba))
    {
      UniformDisjoint(l1, l2, blkNumForLba);
    }
  }

  /** The transfers themselves start at `blockSize * lba` with the value's own block
      count. Values of `b1` and `b2` blocks never overlap, whichever distinct LBAs they
      were given, if and only if they are equally long, or one is empty, or there are no
      two LBAs. */
  lemma TransfersDisjointIffUniform(b1: nat, b2: nat, maxLba: nat)
    ensures (forall l1: nat, l2: nat :: l1 < maxLba && l2 < maxLba && l1 != l2 ==>
                                          Disjoint(At(l1, b1), At(l2, b2)))
            <==> b1 == b2 || b1 == 0 || b2 == 0 || maxLba < 2
  {
    if b1 == b2 {
      forall l1: nat, l2: nat | l1 < maxLba && l2 < maxLba && l1 != l2
        ensures Disjoint(At(l1, b1), At(l2, b2))
      {
        UniformDisjoint(l1, l2, b1);
      }
    } else if 0 < b1 < b2 && maxLba >= 2 {
      assert !Disjoint(At(1, b1), At(0, b2));
    } else if 0 < b2 < b1 && maxLba >= 2 {
      assert !Disjoint(At(0, b1), At(1, b2));
    } else if b1 == 0 {
      assert forall l: nat :: At(l, b1) == Extent(0, 0);
    } else if b2 == 0 {
      assert forall l: nat :: At(l, b2) == Extent(0, 0);
    }
  }

  /** A concrete clash: the four-block value on LBA 1 and the one-block value on LBA 5
      share device block 5. */
  lemma TransfersClash()
    ensures !Disjoint(At(1, 4), At(5, 1))
  {
  }

  /** Every transfer of `blocks` blocks stays on the device, for every LBA of the free
      list, exactly when the device holds maxLba values of that size. */
  lemma TransfersInsideIff(blocks: nat, maxLba: nat, blkNum: nat)
    ensures (forall lba: nat :: lba < maxLba ==> Inside(At(lba, blocks), blkNum))
            <==> blocks * maxLba <= blkNum
  {
    if blocks * maxLba <= blkNum {
      forall lba: nat | lba < maxLba ensures Inside(At(lba, blocks), blkNum) {
        Slots(lba, maxLba, blocks);
      }
    } else if maxLba > 0 {
      assert At(maxLba - 1, blocks).start + blocks == blocks * maxLba;
    }
  }
}
