/** Sizes of a transfer and the DMA buffers it uses
    (lib/spdk/SpdkBdev.h, lib/spdk/SpdkIoBuf.cpp). */
module IoSizes {
  function OptimalSize(size: nat): (r: nat)
    ensures r >= size && r % 4096 == 0
    ensures size > 0 ==> 4096 <= r < size + 4096
  {
    if size == 0 then 0 else ((size - 1) / 4096 + 1) * 4096
  }

  ghost predicate PowerOfTwo(n: nat) {
    n == 1 || (n > 1 && n % 2 == 0 && PowerOfTwo(n / 2))
  }

  /** The largest multiple of blk not above x. */
  function RoundDown(x: nat, blk: nat): (r: nat)
    requires blk > 0
    ensures r <= x < r + blk
  {
    x - x % blk
  }

  /** `OptimalSize(size) + blk - 1` masked with the 32-bit complement of `blk - 1`:
      for a power of two this rounds down to a multiple of blk, and the mask also
      clears everything from bit 32 upwards. */
  function AlignedSize(size: nat, blk: nat): (r: nat)
    requires blk > 0
  {
    RoundDown((OptimalSize(size) + blk - 1) % 0x1_0000_0000, blk)
  }

  function SizeInBlk(size: nat, blk: nat): (r: nat)
    requires blk > 0
  {
    OptimalSize(size) / blk
  }

  /** The number of blocks `doWrite` and `doRead` transfer for a value. */
  function BlocksFor(valueSize: nat, blk: nat): (r: nat)
    requires blk > 0
  {
    SizeInBlk(AlignedSize(valueSize, blk), blk)
  }

  lemma {:induction false} SmallPowerDivides(blk: nat)
    requires PowerOfTwo(blk) && blk <= 4096
    ensures blk > 0 && 4096 % blk == 0
  {
    SmallPowers(blk);
    match blk
    case 1 => case 2 => case 4 => case 8 => case 16 => case 32 => case 64 => case 128 => case 256 => case 512 =>
    case 1024 => case 2048 => case 4096 =>
    case _ => assert false;
  }

  lemma {:induction false} SmallPowers(n: nat)
    requires PowerOfTwo(n) && n <= 4096
    ensures n in {1, 2, 4, 8, 16, 32, 64, 128, 256, 512, 1024, 2048, 4096}
  {
    if n > 1 { SmallPowers(n / 2); }
  }

  lemma {:induction false} BigPower(n: nat)
    requires PowerOfTwo(n) && n > 4096
    ensures n % (8192) == 0
  {
    if n / 2 > 4096 {
      BigPower(n / 2);
    } else {
      SmallPowers(n / 2);
    }
  }

  lemma {:induction false} MulMonotone(a: nat, b: nat, d: nat)
    requires a <= b
    ensures a * d <= b * d
  {
    if a < b { MulMonotone(a, b - 1, d); }
  }

  lemma SameQuotient(d: nat, q: nat, r: nat, q': nat, r': nat)
    requires q * d + r == q' * d + r' && r < d && r' < d
    ensures q == q'
  {
    if q < q' {
      MulMonotone(q + 1, q', d);
    } else if q' < q {
      MulMonotone(q' + 1, q, d);
    }
  }

  lemma DivModUnique(n: nat, d: nat, q: nat, r: nat)
    requires n == q * d + r && r < d
    ensures n / d == q && n % d == r
  {
    SameQuotient(d, q, r, n / d, n % d);
  }

  lemma ExactDivision(x: nat, blk: nat)
    requires blk > 0 && x % blk == 0
    ensures x / blk * blk == x
  {
  }

  lemma RoundDownMultiple(x: nat, blk: nat, extra: nat)
    requires blk > 0 && x % blk == 0 && extra < blk
    ensures RoundDown(x + extra, blk) == x
  {
    DivModUnique(x + extra, blk, x / blk, extra);
  }

  lemma MultipleOfMultiple(x: nat, m: nat, blk: nat)
    requires blk > 0 && m > 0 && m % blk == 0 && x % m == 0
    ensures x % blk == 0
  {
    var a, b := x / m, m / blk;
    assert x == a * m && m == b * blk;
    assert x == (a * b) * blk;
    DivModUnique(x, blk, a * b, 0);
  }

  /** On block sizes up to 4096, alignment adds nothing and loses nothing as long as
      the rounded size fits 32 bits; the blocks transferred are exactly that size. */
  lemma TransferSize(valueSize: nat, blk: nat)
    requires PowerOfTwo(blk) && blk <= 4096 && OptimalSize(valueSize) < 0x1_0000_0000
    ensures blk > 0
    ensures AlignedSize(valueSize, blk) == OptimalSize(valueSize)
    ensures BlocksFor(valueSize, blk) * blk == OptimalSize(valueSize)
  {
    SmallPowerDivides(blk);
    TransferWhole(valueSize, blk);
  }

  lemma TransferWhole(valueSize: nat, blk: nat)
    requires 0 < blk <= 4096 && 4096 % blk == 0 && OptimalSize(valueSize) < 0x1_0000_0000
    ensures AlignedSize(valueSize, blk) == OptimalSize(valueSize)
    ensures BlocksFor(valueSize, blk) * blk == OptimalSize(valueSize)
  {
    RoundedMultiple(OptimalSize(valueSize), blk);
  }

  lemma RoundedMultiple(opt: nat, blk: nat)
    requires 0 < blk <= 4096 && 4096 % blk == 0 && opt % 4096 == 0 && opt < 0x1_0000_0000
    ensures RoundDown((opt + blk - 1) % 0x1_0000_0000, blk) == opt
    ensures OptimalSize(opt) == opt && opt / blk * blk == opt
  {
    assert opt + blk - 1 < 0x1_0000_0000;
    assert opt % blk == 0 by { MultipleOfMultiple(opt, 4096, blk); }
    RoundDownMultiple(opt, blk, blk - 1);
    ExactDivision(opt, blk);
  }

  /** The buffer `doWrite` asks for covers the value if and only if the rounded value
      size fits 32 bits. */
  lemma WriteBufferCoversIff(valueSize: nat, blk: nat)
    requires PowerOfTwo(blk) && blk <= 4096 && valueSize > 0
    ensures blk > 0
    ensures AlignedSize(valueSize, blk) >= valueSize <==> OptimalSize(valueSize) < 0x1_0000_0000
  {
    SmallPowerDivides(blk);
    if OptimalSize(valueSize) < 0x1_0000_0000 {
      TransferSize(valueSize, blk);
    } else {
      assert AlignedSize(valueSize, blk) <= OptimalSize(valueSize) + blk - 1 - 0x1_0000_0000;
    }
  }

  /** Reads ask for a buffer of `OptimalSize` but transfer whole blocks: every value's
      read buffer is big enough if and only if a block is at most 4096 bytes. */
  lemma ReadBufferCoversIff(blk: nat)
    requires PowerOfTwo(blk) && 0 < blk <= 0x8000_0000
    ensures (forall v: nat :: v > 0 && OptimalSize(v) + blk - 1 < 0x1_0000_0000 ==>
                                BlocksFor(v, blk) * blk <= OptimalSize(v))
            <==> blk <= 4096
  {
    if blk <= 4096 {
      forall v: nat | v > 0 && OptimalSize(v) + blk - 1 < 0x1_0000_0000
        ensures BlocksFor(v, blk) * blk <= OptimalSize(v)
      {
        TransferSize(v, blk);
      }
    } else {
      OneBlockTooBig(blk);
    }
  }

  lemma OneBlockTooBig(blk: nat)
    requires PowerOfTwo(blk) && 4096 < blk <= 0x8000_0000
    ensures OptimalSize(1) == 4096 && BlocksFor(1, blk) == 1
  {
    BigPower(blk);
    AlignedOneByte(blk);
    OneWholeBlock(blk);
  }

  lemma AlignedOneByte(blk: nat)
    requires 4096 < blk <= 0x8000_0000
    ensures AlignedSize(1, blk) == blk
  {
    DivModUnique(4095 + blk, blk, 1, 4095);
  }

  lemma WholeUnits(size: nat)
    requires size % 4096 == 0
    ensures OptimalSize(size) == size
  {
  }

  lemma OneWholeBlock(blk: nat)
    requires blk > 0 && blk % 8192 == 0
    ensures SizeInBlk(blk, blk) == 1
  {
    WholeUnits(blk);
    DivModUnique(OptimalSize(blk), blk, 1, 0);
  }
}

/** Size-classed, lazily filled DMA buffers. Buffers of class i < 8 live in a pool of
    their own; larger requests get a dedicated buffer that is deleted on return. */
module IoBufferManager {
  import opened IoSizes

  const CLASSES: nat := 8

  /** `cls` is the buffer's own pool (its C++ template instance), `idx` the stored
      index that only tells dedicated buffers (-1) apart, `dma` the size of the DMA
      memory behind it (0: none yet). */
  datatype IoBuf = IoBuf(cls: nat, idx: int, dma: nat)

  class SpdkIoBufMgr {
    var writePool: seq<seq<IoBuf>>
    var readPool: seq<seq<IoBuf>>

    static ghost predicate Classed(pool: seq<seq<IoBuf>>) {
      && |pool| == CLASSES
      && forall i, b :: 0 <= i < CLASSES && b in pool[i] ==> Fits(b, i)
    }

    static ghost predicate Fits(b: IoBuf, i: nat) {
      b.cls == i && b.idx != -1 && (b.dma == 0 || b.dma == i * 4096)
    }

    /** A buffer some caller holds. */
    static ghost predicate Issued(b: IoBuf) {
      b.idx == -1 || (b.cls < CLASSES && Fits(b, b.cls))
    }

    /** The classes after a request for class i: one buffer of that class is gone if the
        pool had a stored one to give. */
    static ghost function Without(pool: seq<seq<IoBuf>>, i: nat, pick: nat): seq<seq<IoBuf>>
      requires |pool| == CLASSES
    {
      if i < CLASSES && pick < |pool[i]| then pool[i := pool[i][..pick] + pool[i][pick + 1..]] else pool
    }

    ghost predicate Valid()
      reads this
    {
      Classed(writePool) && Classed(readPool)
    }

    constructor ()
      ensures Valid()
    {
      writePool := seq(CLASSES, _ => []);
      readPool := seq(CLASSES, _ => []);
    }

    /** Which pooled buffer comes back is the pool's choice: `pick` names a stored one,
        or a newly made one when it is out of range. */
    method GetIoWriteBuf(ioSize: nat, pick: nat) returns (buf: IoBuf)
      requires Valid() && ioSize % 4096 == 0
      modifies this`writePool
      ensures Valid() && Issued(buf) && buf.dma == ioSize
      ensures writePool == Without(old(writePool), ioSize / 4096, pick)
      ensures buf.idx == -1 <==> ioSize / 4096 >= CLASSES
    {
      var bufIdx := ioSize / 4096;
      if bufIdx < CLASSES {
        if pick < |writePool[bufIdx]| {
          buf := writePool[bufIdx][pick];
          TakeKeepsClassed(writePool, bufIdx, pick);
          writePool := writePool[bufIdx := writePool[bufIdx][..pick] + writePool[bufIdx][pick + 1..]];
        } else {
          buf := IoBuf(bufIdx, 0, 0);
        }
        if buf.dma == 0 {
          buf := buf.(dma := ioSize);
        }
      } else {
        buf := IoBuf(16, -1, ioSize);
      }
    }

    method PutIoWriteBuf(buf: IoBuf)
      requires Valid() && Issued(buf)
      modifies this`writePool
      ensures Valid()
      ensures writePool == if buf.idx == -1 then old(writePool)
                           else old(writePool)[buf.cls := old(writePool)[buf.cls] + [buf]]
    {
      if buf.idx != -1 {
        writePool := writePool[buf.cls := writePool[buf.cls] + [buf]];
      }
    }

    method GetIoReadBuf(ioSize: nat, pick: nat) returns (buf: IoBuf)
      requires Valid() && ioSize % 4096 == 0
      modifies this`readPool
      ensures Valid() && Issued(buf) && buf.dma == ioSize
      ensures readPool == Without(old(readPool), ioSize / 4096, pick)
      ensures buf.idx == -1 <==> ioSize / 4096 >= CLASSES
    {
      var bufIdx := ioSize / 4096;
      if bufIdx < CLASSES {
        if pick < |readPool[bufIdx]| {
          buf := readPool[bufIdx][pick];
          TakeKeepsClassed(readPool, bufIdx, pick);
          readPool := readPool[bufIdx := readPool[bufIdx][..pick] + readPool[bufIdx][pick + 1..]];
        } else {
          buf := IoBuf(bufIdx, 0, 0);
        }
        buf := buf.(idx := bufIdx);
        if buf.dma == 0 {
          buf := buf.(dma := ioSize);
        }
      } else {
        buf := IoBuf(16, -1, ioSize);
      }
    }

    method PutIoReadBuf(buf: IoBuf)
      requires Valid() && Issued(buf)
      modifies this`readPool
      ensures Valid()
      ensures readPool == if buf.idx == -1 then old(readPool)
                          else old(readPool)[buf.cls := old(readPool)[buf.cls] + [buf]]
    {
      if buf.idx != -1 {
        readPool := readPool[buf.cls := readPool[buf.cls] + [buf]];
      }
    }

    static lemma TakeKeepsClassed(pool: seq<seq<IoBuf>>, i: nat, pick: nat)
      requires Classed(pool) && i < CLASSES && pick < |pool[i]|
      ensures Fits(pool[i][pick], i)
      ensures Classed(pool[i := pool[i][..pick] + pool[i][pick + 1..]])
    {
      assert pool[i][pick] in pool[i];
      assert pool[i] == pool[i][..pick] + [pool[i][pick]] + pool[i][pick + 1..];
    }

    /** Any value written and later read back through buffers of any history: both
        buffers hold the value and exactly the blocks transferred, and both transfers
        move the same number of blocks. */
    method RoundTrip(valueSize: nat, blk: nat, wPick: nat, rPick: nat)
      returns (w: IoBuf, r: IoBuf)
      requires Valid() && PowerOfTwo(blk) && 0 < blk <= 4096
      requires valueSize > 0 && OptimalSize(valueSize) < 0x1_0000_0000
      modifies this
      ensures Valid()
      ensures w.dma >= valueSize && w.dma == BlocksFor(valueSize, blk) * blk
      ensures r.dma >= valueSize && r.dma == BlocksFor(valueSize, blk) * blk
    {
      TransferSize(valueSize, blk);
      w := GetIoWriteBuf(AlignedSize(valueSize, blk), wPick);
      PutIoWriteBuf(w);
      r := GetIoReadBuf(OptimalSize(valueSize), rPick);
      PutIoReadBuf(r);
    }
  }
}
