/** Spreading values over several devices and finding them again
    (lib/spdk/SpdkJBODBdev.cpp, lib/spdk/SpdkJBODBdev.h). */
module Jbod {
  import opened Basics

  datatype PciAddr = PciAddr(domain: nat, bus: nat, dev: nat, func: nat)

  // ---- The hash of an address ----

  /** The bit fields domain:2, bus:6, dev:5, func:3 seen as one 16-bit number. */
  function HashAddr(a: PciAddr): (h: nat)
    ensures h <= 65535
  {
    a.domain % 4 + 4 * (a.bus % 64) + 256 * (a.dev % 32) + 8192 * (a.func % 8)
  }

  /** The four fields can be read back from the number. */
  lemma FieldsApart(d: nat, b: nat, v: nat, f: nat, d': nat, b': nat, v': nat, f': nat)
    requires d < 4 && d' < 4 && b < 64 && b' < 64 && v < 32 && v' < 32
    requires d + 4 * b + 256 * v + 8192 * f == d' + 4 * b' + 256 * v' + 8192 * f'
    ensures d == d' && b == b' && v == v' && f == f'
  {
    assert f == f';
    assert v == v';
    assert b == b';
  }

  /** Two addresses collide exactly when all four fields agree in the bits that are kept. */
  lemma HashesEqualIff(a: PciAddr, b: PciAddr)
    ensures HashAddr(a) == HashAddr(b) <==>
              && a.domain % 4 == b.domain % 4 && a.bus % 64 == b.bus % 64
              && a.dev % 32 == b.dev % 32 && a.func % 8 == b.func % 8
  {
    if HashAddr(a) == HashAddr(b) {
      FieldsApart(a.domain % 4, a.bus % 64, a.dev % 32, a.func % 8, b.domain % 4, b.bus % 64, b.dev % 32, b.func % 8);
    }
  }

  /** The table has 65535 entries, one short of the hash's range. */
  lemma HashFitsIff(a: PciAddr)
    ensures HashAddr(a) < 65535 <==>
              !(a.domain % 4 == 3 && a.bus % 64 == 63 && a.dev % 32 == 31 && a.func % 8 == 7)
  {
  }

  // ---- Lookups, as functions of the configured addresses ----

  /** The last device with this hash, or -1: what the table holds. */
  function Hashed(addrs: seq<PciAddr>, h: nat): (i: int) {
    if addrs == [] then -1
    else if HashAddr(addrs[|addrs| - 1]) == h then |addrs| - 1
    else Hashed(addrs[..|addrs| - 1], h)
  }

  lemma {:induction false} HashedIsLast(addrs: seq<PciAddr>, h: nat)
    ensures -1 <= Hashed(addrs, h) < |addrs|
    ensures Hashed(addrs, h) >= 0 ==> HashAddr(addrs[Hashed(addrs, h)]) == h
    ensures forall j :: Hashed(addrs, h) < j < |addrs| ==> HashAddr(addrs[j]) != h
  {
    if addrs != [] { HashedIsLast(addrs[..|addrs| - 1], h); }
  }

  /** i is where the linear search for a stops: the first device with that address. */
  predicate IsFirst(addrs: seq<PciAddr>, a: PciAddr, i: nat) {
    i < |addrs| && addrs[i] == a && a !in addrs[..i]
  }

  ghost predicate DistinctHashes(addrs: seq<PciAddr>) {
    forall i, j :: 0 <= i < j < |addrs| ==> HashAddr(addrs[i]) != HashAddr(addrs[j])
  }

  /** One device: hashed lookup of its own address finds it exactly when no later device
      has the same hash. */
  lemma OwnHashIff(addrs: seq<PciAddr>, i: nat)
    requires i < |addrs|
    ensures Hashed(addrs, HashAddr(addrs[i])) == i <==>
              forall j :: i < j < |addrs| ==> HashAddr(addrs[j]) != HashAddr(addrs[i])
  {
    HashedIsLast(addrs, HashAddr(addrs[i]));
  }

  /** Reads find every device by its address if and only if all hashes differ. */
  lemma ReadsFindAllIff(addrs: seq<PciAddr>)
    ensures (forall i :: 0 <= i < |addrs| ==> Hashed(addrs, HashAddr(addrs[i])) == i) <==> DistinctHashes(addrs)
  {
    forall i | 0 <= i < |addrs|
      ensures Hashed(addrs, HashAddr(addrs[i])) == i <==>
                forall j :: i < j < |addrs| ==> HashAddr(addrs[j]) != HashAddr(addrs[i])
    {
      OwnHashIff(addrs, i);
    }
    if forall i :: 0 <= i < |addrs| ==> Hashed(addrs, HashAddr(addrs[i])) == i {
      forall i, j | 0 <= i < j < |addrs| ensures HashAddr(addrs[i]) != HashAddr(addrs[j]) {
        assert Hashed(addrs, HashAddr(addrs[i])) == i;
      }
    }
  }

  /** With distinct hashes, hashed lookup, linear search and the device itself agree. */
  lemma LookupsAgree(addrs: seq<PciAddr>, i: nat)
    requires DistinctHashes(addrs) && i < |addrs|
    ensures Hashed(addrs, HashAddr(addrs[i])) == i && IsFirst(addrs, addrs[i], i)
  {
    OwnHashIff(addrs, i);
    forall j | 0 <= j < i ensures addrs[j] != addrs[i] {
      assert HashAddr(addrs[j]) != HashAddr(addrs[i]);
    }
  }

  /** Any collision misdirects reads: what device i wrote is read from a later device,
      while removing it goes to device i or an earlier one. */
  lemma CollisionMisreads(addrs: seq<PciAddr>, i: nat, j: nat)
    requires i < j < |addrs| && HashAddr(addrs[i]) == HashAddr(addrs[j])
    ensures Hashed(addrs, HashAddr(addrs[i])) >= j
    ensures exists f :: 0 <= f <= i && IsFirst(addrs, addrs[i], f)
  {
    HashedIsLast(addrs, HashAddr(addrs[i]));
    FirstExists(addrs, addrs[i], i);
  }

  lemma {:induction false} FirstExists(addrs: seq<PciAddr>, a: PciAddr, i: nat)
    requires i < |addrs| && addrs[i] == a
    ensures exists f :: 0 <= f <= i && IsFirst(addrs, a, f)
  {
    if a in addrs[..i] {
      var k: nat :| k < i && addrs[k] == a;
      FirstExists(addrs, a, k);
    } else {
      assert IsFirst(addrs, a, i);
    }
  }

  /** Bus numbers that differ by 64 are such a collision. */
  lemma BusNumbersCollide(a: PciAddr)
    ensures HashAddr(a) == HashAddr(a.(bus := a.bus + 64))
  {
    HashesEqualIff(a, a.(bus := a.bus + 64));
  }

  // ---- Round robin ----

  /** Whose turn it is after n writes. */
  function Turn(n: nat, count: nat): (d: nat)
    requires count > 0
    ensures d < count
  {
    if n == 0 then 0 else Successor(Turn(n - 1, count), count)
  }

  /** n writes are some whole rounds, and as many more as the device whose turn it is. */
  lemma {:induction false} TurnsInRounds(n: nat, count: nat) returns (rounds: nat)
    requires count > 0
    ensures n == rounds * count + Turn(n, count)
  {
    rounds := 0;
    if n > 0 {
      rounds := TurnsInRounds(n - 1, count);
      if Turn(n, count) == 0 { rounds := rounds + 1; }
    }
  }

  /** How many of the first n writes went to device d. */
  function Load(n: nat, count: nat, d: nat): (l: nat)
    requires count > 0
  {
    if n == 0 then 0 else Load(n - 1, count, d) + if Turn(n - 1, count) == d then 1 else 0
  }

  /** Within a round the devices before the one whose turn it is have had one write more. */
  lemma {:induction false} LoadInRound(n: nat, count: nat, d1: nat, d2: nat)
    requires d1 < count && d2 < count
    ensures Load(n, count, d1) + (if d2 < Turn(n, count) then 1 else 0) ==
            Load(n, count, d2) + (if d1 < Turn(n, count) then 1 else 0)
  {
    if n > 0 { LoadInRound(n - 1, count, d1, d2); }
  }

  /** After any number of writes no device has taken two more than another. */
  lemma LoadsDifferByAtMostOne(n: nat, count: nat, d1: nat, d2: nat)
    requires d1 < count && d2 < count
    ensures Load(n, count, d1) <= Load(n, count, d2) + 1
  {
    LoadInRound(n, count, d1, d2);
  }

  // ---- The device set ----

  class SpdkJBODBdev {
    var addrs: seq<PciAddr>         // devices[..numDevices]; a bdev is named by its index
    const deviceHash: array<int>
    var currDevice: nat
    var isRunning: bool
    ghost var writes: nat

    ghost predicate Valid()
      reads this, deviceHash
    {
      && |addrs| <= 64 && deviceHash.Length == 65535
      && (forall h :: 0 <= h < 65535 ==> deviceHash[h] == Hashed(addrs, h))
      && (addrs == [] ==> writes == 0) && currDevice == (if addrs == [] then 0 else Turn(writes, |addrs|))
    }

    constructor ()
      ensures Valid() && addrs == [] && writes == 0 && fresh(deviceHash)
    {
      addrs, currDevice, isRunning, writes := [], 0, false, 0;
      deviceHash := new int[65535](_ => -1);
    }

    /** One device per configured address, as far as they open. */
    method Init(devs: seq<PciAddr>, opens: seq<bool>) returns (ok: bool)
      requires Valid() && addrs == [] && |opens| == |devs| <= 64
      requires forall i :: 0 <= i < |devs| ==> HashAddr(devs[i]) < 65535
      modifies this`addrs, deviceHash
      ensures Valid() && addrs <= devs
      ensures ok <==> false !in opens
      ensures if ok then addrs == devs else |addrs| < |devs| && !opens[|addrs|]
      ensures forall i :: 0 <= i < |addrs| ==> opens[i]
    {
      for i := 0 to |devs|
        invariant Valid() && addrs == devs[..i]
        invariant forall j :: 0 <= j < i ==> opens[j]
      {
        if !opens[i] { return false; }
        deviceHash[HashAddr(devs[i])] := i;
        addrs := addrs + [devs[i]];
        assert addrs[..i] == devs[..i];
      }
      return true;
    }

    method Read(a: PciAddr) returns (dev: Option<nat>)
      requires Valid() && HashAddr(a) < 65535
      ensures dev.Some? <==> isRunning && exists i :: 0 <= i < |addrs| && HashAddr(addrs[i]) == HashAddr(a)
      ensures dev.Some? ==> dev.value < |addrs| && dev.value == Hashed(addrs, HashAddr(a))
      ensures isRunning && DistinctHashes(addrs) && a in addrs ==> dev.Some? && addrs[dev.value] == a
    {
      if !isRunning { return None; }
      var idx := deviceHash[HashAddr(a)];
      HashedIsLast(addrs, HashAddr(a));
      if idx < 0 { return None; }
      return Some(idx);
    }

    method Write() returns (dev: Option<nat>)
      requires Valid() && addrs != []
      modifies this`currDevice, this`writes
      ensures Valid()
      ensures if isRunning then dev == Some(Turn(old(writes), |addrs|)) && writes == old(writes) + 1
              else dev == None && writes == old(writes)
    {
      if !isRunning { return None; }
      dev := Some(currDevice);
      SuccessorIsRemainder(currDevice, |addrs|);
      currDevice := (currDevice + 1) % |addrs|;
      writes := writes + 1;
    }

    method Remove(a: PciAddr) returns (dev: Option<nat>)
      requires Valid()
      ensures dev.Some? <==> isRunning && a in addrs
      ensures dev.Some? ==> IsFirst(addrs, a, dev.value)
    {
      if !isRunning { return None; }
      for i := 0 to |addrs|
        invariant a !in addrs[..i]
      {
        if a == addrs[i] { return Some(i); }
      }
      return None;
    }

    /** A value written now is read from, and removed from, the device that wrote it. */
    method WriteThenFind() returns (wrote: Option<nat>, read: Option<nat>, removed: Option<nat>)
      requires Valid() && addrs != [] && isRunning && DistinctHashes(addrs)
      requires forall i :: 0 <= i < |addrs| ==> HashAddr(addrs[i]) < 65535
      modifies this`currDevice, this`writes
      ensures Valid() && wrote == read == removed && wrote.Some?
    {
      wrote := Write();
      LookupsAgree(addrs, wrote.value);
      read := Read(addrs[wrote.value]);
      removed := Remove(addrs[wrote.value]);
      LookupsAgree(addrs, read.value);
      LookupsAgree(addrs, removed.value);
    }
  }
}
