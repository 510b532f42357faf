/** The allocator's contract that runs of the pipeline assume, in place of
    lib/offload/OffloadLbaAlloc.cpp, which `doWrite` calls (lib/spdk/SpdkBdev.cpp). The LBA
    free list (lib/offload/OffloadFreeList.cpp) is an allocator that meets it, on a device
    with fixed-size blocks and with values of one block count. */
module OffloadAllocation {
  import opened Basics
  import opened ValueIndex
  import opened Extents
  import opened OffloadState
  import opened OffloadData
  import opened OffloadSteps
  import opened OffloadClients
  import opened OffloadTheorems
  import O = OffloadState
  import S = OffloadStages
  import F = FreeListSpec
  import IoSizes

  // ---- Extents on a device with blocks ----

  /** The bytes `doWrite` and `doRead` transfer, on a device with this block size. */
  ghost predicate OnBlocks(c: Config, blk: nat) {
    blk > 0 && forall lba: nat, size: nat {:trigger c.extent(lba, size)} ::
      var blocks := At(lba, IoSizes.BlocksFor(size, blk));
      c.extent(lba, size) == Extent(blk * blocks.start, blk * blocks.length)
  }

  /** A transfer is at least as long as its value, so a write's padding exists. */
  lemma TransferCoversValue(c: Config, blk: nat, lba: nat, size: nat)
    requires OnBlocks(c, blk) && IoSizes.PowerOfTwo(blk) && blk <= 4096 && IoSizes.OptimalSize(size) < 0x1_0000_0000
    ensures size <= c.extent(lba, size).length
  {
    var n, opt := IoSizes.BlocksFor(size, blk), IoSizes.OptimalSize(size);
    assert n * blk == opt >= size by { IoSizes.TransferSize(size, blk); }
    assert c.extent(lba, size).length == blk * n;
    Commutes(n, blk);
  }

  lemma Commutes(a: nat, b: nat)
    ensures a * b == b * a
  {
  }

  lemma BytesDisjoint(a: Extent, b: Extent, blk: nat)
    requires Disjoint(a, b)
    ensures Disjoint(Extent(blk * a.start, blk * a.length), Extent(blk * b.start, blk * b.length))
  {
    if a.start + a.length <= b.start {
      IoSizes.MulMonotone(a.start + a.length, b.start, blk);
    } else {
      IoSizes.MulMonotone(b.start + b.length, a.start, blk);
    }
  }

  lemma BytesInside(a: Extent, blkNum: nat, blk: nat)
    requires Inside(a, blkNum)
    ensures Inside(Extent(blk * a.start, blk * a.length), blk * blkNum)
  {
    IoSizes.MulMonotone(a.start + a.length, blkNum, blk);
  }

  /** The LBA and the size of what an owner owns. */
  function LbaOf(s: State, o: Owner): (lba: nat)
    requires Live(s.index, s.stored, s.rqsts, s.pipe, o)
  {
    match o
    case OfKey(k) => s.index[k].ptr.dev.lba
    case OfRqst(id) => s.rqsts[id].lba
  }

  function SizeOf(s: State, o: Owner): (size: nat)
    requires Live(s.index, s.stored, s.rqsts, s.pipe, o)
  {
    match o
    case OfKey(k) => s.index[k].size
    case OfRqst(id) => s.rqsts[id].size
  }

  /** Everything live is on an LBA that was taken, and has this many blocks. */
  ghost predicate OnTaken(s: State, taken: set<int>, blocks: nat, blk: nat)
    requires blk > 0
  {
    forall o: Owner :: Live(s.index, s.stored, s.rqsts, s.pipe, o) ==>
                         LbaOf(s, o) in taken && IoSizes.BlocksFor(SizeOf(s, o), blk) == blocks
  }

  /** With values of one block count, an LBA nobody took is all it takes. */
  lemma UntakenIsFree(c: Config, s: State, blk: nat, blkNum: nat, lba: nat, size: nat, taken: set<int>)
    requires OnBlocks(c, blk) && |s.disk| == blk * blkNum && lba !in taken
    requires OnTaken(s, taken, IoSizes.BlocksFor(size, blk), blk)
    requires Inside(At(lba, IoSizes.BlocksFor(size, blk)), blkNum)
    ensures FreeExtent(c, s, c.extent(lba, size))
  {
    var blocks := IoSizes.BlocksFor(size, blk);
    BytesInside(At(lba, blocks), blkNum, blk);
    forall o: Owner | Live(s.index, s.stored, s.rqsts, s.pipe, o)
      ensures Disjoint(c.extent(lba, size), ExtentOf(c, s.index, s.rqsts, o))
    {
      assert ExtentOf(c, s.index, s.rqsts, o) == c.extent(LbaOf(s, o), SizeOf(s, o));
      UniformDisjoint(lba, LbaOf(s, o), blocks);
      BytesDisjoint(At(lba, blocks), At(LbaOf(s, o), blocks), blk);
    }
  }

  // ---- Each step keeps everything on taken LBAs ----

  /** Every owner in t was one in s, with the same LBA and size. */
  ghost predicate NoNewOwner(s: State, t: State) {
    forall o: Owner :: Live(t.index, t.stored, t.rqsts, t.pipe, o) ==>
      && Live(s.index, s.stored, s.rqsts, s.pipe, o) && LbaOf(t, o) == LbaOf(s, o) && SizeOf(t, o) == SizeOf(s, o)
  }

  lemma NoNewOwnerKeeps(s: State, t: State, taken: set<int>, blocks: nat, blk: nat)
    requires blk > 0 && OnTaken(s, taken, blocks, blk) && NoNewOwner(s, t)
    ensures OnTaken(t, taken, blocks, blk)
  {
  }

  /** No key came to the device, or to another place there. */
  ghost predicate NoneToDisk(index: Index, stored: Stored, index': Index, stored': Stored) {
    forall k :: k in stored' && k in index' && index'[k].location == DISK ==>
                  k in stored && k in index && index'[k] == index[k]
  }

  /** Changes of the tree that bring no key to the device, or to another place there. */
  lemma TreeOwners(s: State, t: State)
    requires t.rqsts == s.rqsts && t.pipe == s.pipe
    requires NoneToDisk(s.index, s.stored, t.index, t.stored)
    ensures NoNewOwner(s, t)
  {
  }

  lemma SubmitOwners(s: State, op: Kind, k: Key, value: nat, size: nat)
    requires k in s.stored && Absent(s.pipe, s.next)
    ensures NoNewOwner(s, Submit(s, op, k, value, size))
  {
  }

  lemma PollOwners(c: Config, s: State)
    requires s.pipe.pollBatch != [] && Known(s, s.pipe.pollBatch[0])
    ensures NoNewOwner(s, PollOne(c, s))
  {
    var t := PollOne(c, s);
    assert forall id :: id in s.rqsts && s.rqsts[id].op == UPDATE ==> t.rqsts[id] == s.rqsts[id];
  }

  lemma CompleteOwners(c: Config, s: State, i: nat, ok: bool, junk: Bytes)
    requires i < |s.pipe.device| && s.pipe.device[i] in s.rqsts
    requires TransferFits(c, s.disk, s.rqsts[s.pipe.device[i]], junk)
    ensures NoNewOwner(s, CompleteOne(c, s, i, ok, junk))
  {
    var t := CompleteOne(c, s, i, ok, junk);
    assert forall id :: id in t.pipe.device ==> id in s.pipe.device;
  }

  /** Submitting a write adds one owner: the write, on the LBA it was given. */
  lemma EngineOwners(c: Config, s: State, lba: nat, pad: Bytes, taken: set<int>, blocks: nat, blk: nat)
    requires blk > 0 && OnTaken(s, taken, blocks, blk) && s.pipe.engineBatch != [] && Known(s, s.pipe.engineBatch[0])
    requires var r := s.rqsts[s.pipe.engineBatch[0]];
             Submittable(s, r) && (r.op == UPDATE ==> IoSizes.BlocksFor(r.size, blk) == blocks)
    requires Absent(PopEngine(s.pipe), s.pipe.engineBatch[0])
    ensures var added := if s.rqsts[s.pipe.engineBatch[0]].op == UPDATE then {lba} else {};
            OnTaken(EngineOne(c, s, lba, pad), taken + added, blocks, blk)
  {
    var t, id := EngineOne(c, s, lba, pad), s.pipe.engineBatch[0];
    assert EngineEffect(s, lba, pad).pipe == PopEngine(s.pipe);
    forall o: Owner | Live(t.index, t.stored, t.rqsts, t.pipe, o) && o != OfRqst(id)
      ensures Live(s.index, s.stored, s.rqsts, s.pipe, o) && LbaOf(t, o) == LbaOf(s, o) && SizeOf(t, o) == SizeOf(s, o)
    {
    }
  }

  /** Publishing hands the write's LBA on to its key. */
  lemma FinOwners(c: Config, s: State, taken: set<int>, blocks: nat, blk: nat)
    requires blk > 0 && OnTaken(s, taken, blocks, blk) && s.pipe.finBatch != [] && Known(s, s.pipe.finBatch[0])
    requires var r := s.rqsts[s.pipe.finBatch[0]];
             && (r.op == GET && r.result ==> r.size <= |r.buff|)
             && (r.op == UPDATE && r.result ==> r.key in s.index && s.index[r.key].size == r.size)
    ensures OnTaken(FinOne(c, s), taken, blocks, blk)
  {
    var t, id := FinOne(c, s), s.pipe.finBatch[0];
    S.FinFrame(c, s);
    var r := s.rqsts[id];
    forall o: Owner | Live(t.index, t.stored, t.rqsts, t.pipe, o)
      ensures LbaOf(t, o) in taken && IoSizes.BlocksFor(SizeOf(t, o), blk) == blocks
    {
      if r.op == UPDATE && r.result && o == OfKey(r.key) {
        assert Live(s.index, s.stored, s.rqsts, s.pipe, OfRqst(id));
        assert LbaOf(t, o) == LbaOf(s, OfRqst(id)) && SizeOf(t, o) == SizeOf(s, OfRqst(id));
      } else {
        assert Live(s.index, s.stored, s.rqsts, s.pipe, o);
      }
    }
  }

  /** Values are of one block count. */
  ghost predicate Uniform(stored: Stored, blocks: nat, blk: nat)
    requires blk > 0
  {
    forall k :: k in stored ==> IoSizes.BlocksFor(|stored[k]|, blk) == blocks
  }

  /** The step submits a write. */
  predicate Writes(s: State, step: Step) {
    && step.EngineProcess? && s.pipe.engineBatch != [] && s.pipe.engineBatch[0] in s.rqsts
    && s.rqsts[s.pipe.engineBatch[0]].op == UPDATE
  }

  lemma NextIsAbsent(c: Config, s: State)
    requires S.Stages(s)
    ensures Absent(s.pipe, s.next)
  {
    StagedIsUnanswered(s);
  }

  lemma EngineTaken(c: Config, s: State, lba: nat, pad: Bytes, taken: set<int>, blocks: nat, blk: nat)
    requires blk > 0 && S.Stages(s) && Data(c, s) && MovingOk(s)
    requires OnTaken(s, taken, blocks, blk) && Uniform(s.stored, blocks, blk)
    requires s.pipe.engineBatch != [] && Known(s, s.pipe.engineBatch[0])
    requires Submittable(s, s.rqsts[s.pipe.engineBatch[0]])
    ensures OnTaken(EngineOne(c, s, lba, pad), taken + (if Writes(s, EngineProcess(lba, pad)) then {lba} else {}),
                    blocks, blk)
  {
    EngineDefined(c, s);
    S.PopEngineTakes(s.pipe);
    Leaves(s, PopEngine(s.pipe), s.pipe.engineBatch[0]);
    EngineOwners(c, s, lba, pad, taken, blocks, blk);
  }

  lemma FinTaken(c: Config, s: State, taken: set<int>, blocks: nat, blk: nat)
    requires blk > 0 && S.Stages(s) && Data(c, s) && MovingOk(s)
    requires OnTaken(s, taken, blocks, blk) && s.pipe.finBatch != []
    ensures Known(s, s.pipe.finBatch[0])
    ensures var r := s.rqsts[s.pipe.finBatch[0]]; r.op == GET && r.result ==> r.size <= |r.buff|
    ensures OnTaken(FinOne(c, s), taken, blocks, blk)
  {
    FinDefined(c, s);
    FinOwners(c, s, taken, blocks, blk);
  }

  lemma CallOwners(c: Config, s: State, call: Call)
    requires S.Stages(s) && CallPossible(c, s, call) && CallDefined(s, call)
    ensures NoNewOwner(s, AfterCall(c, s, call))
  {
    if Asks(call) {
      NextIsAbsent(c, s);
      match call
      case AskGet(k) => SubmitOwners(s, GET, k, 0, 0);
      case AskUpdate(k) => SubmitOwners(s, UPDATE, k, s.index[k].ptr.addr, s.index[k].size);
      case AskRemove(k) => SubmitOwners(s, REMOVE, k, 0, 0);
    } else {
      CallFrame(c, s, call);
      CallTree(c, s, call);
      TreeOwners(s, AfterCall(c, s, call));
    }
  }

  lemma CallTree(c: Config, s: State, call: Call)
    requires CallPossible(c, s, call) && CallDefined(s, call) && !Asks(call)
    ensures NoneToDisk(s.index, s.stored, AfterCall(c, s, call).index, AfterCall(c, s, call).stored)
  {
    if call.Reserve? {
      ReserveTree(s.index, s.stored, call.k, call.size, call.g);
    } else if call.PutReserved? {
      PutTree(s.index, s.stored, s.clients[call.w].k, s.clients[call.w].bytes);
    } else if call.PutAgain? {
      PutTree(s.index, s.stored, call.k, []);
    } else if call.Unlink? {
      UnlinkTree(s.index, s.stored, s.clients[call.w].k);
    }
  }

  lemma ReserveTree(index: Index, stored: Stored, k: Key, size: nat, g: Grant)
    ensures NoneToDisk(index, stored, Alloc(index, k, size, g).0, stored)
  {
  }

  lemma PutTree(index: Index, stored: Stored, k: Key, v: Bytes)
    ensures NoneToDisk(index, stored, Put(index, k).0, stored)
    ensures k in index ==> NoneToDisk(index, stored, Put(index, k).0, stored[k := v])
    ensures k !in index ==> NoneToDisk(index, stored, index, stored[k := v])
  {
  }

  lemma UnlinkTree(index: Index, stored: Stored, k: Key)
    ensures NoneToDisk(index, stored, Remove(index, k).0, stored - {k})
  {
  }

  lemma DequeueOwners(c: Config, s: State, step: Step)
    requires Possible(c, s, step) && Defined(c, s, step)
    requires step.PollDequeue? || step.EngineDequeue? || step.FinDequeue?
    ensures NoNewOwner(s, Next(c, s, step))
  {
  }

  lemma OtherOwners(c: Config, s: State, step: Step)
    requires S.Stages(s) && MovingOk(s) && Possible(c, s, step) && Defined(c, s, step)
    requires !step.EngineProcess? && !step.FinProcess?
    ensures NoNewOwner(s, Next(c, s, step))
  {
    if step.Client? {
      CallOwners(c, s, step.call);
    } else if step.FinCancel? || step.FinPoint? {
      PublishOwners(c, s, step);
    } else if step.PollProcess? || step.Complete? {
      ProcessOwners(c, s, step);
    } else {
      DequeueOwners(c, s, step);
    }
  }

  lemma ProcessOwners(c: Config, s: State, step: Step)
    requires Possible(c, s, step) && Defined(c, s, step) && (step.PollProcess? || step.Complete?)
    ensures NoNewOwner(s, Next(c, s, step))
  {
    match step
    case PollProcess => PollOwners(c, s);
    case Complete(i, ok, junk) => CompleteOwners(c, s, i, ok, junk);
  }

  lemma PublishOwners(c: Config, s: State, step: Step)
    requires MovingOk(s) && Possible(c, s, step) && (step.FinCancel? || step.FinPoint?)
    ensures NoNewOwner(s, Next(c, s, step))
  {
    match step
    case FinCancel => TreeOwners(s, FinCancelled(s));
    case FinPoint(granted) => TreeOwners(s, FinPointed(c, s, granted));
  }

  lemma TakenKept(c: Config, s: State, step: Step, taken: set<int>, blocks: nat, blk: nat)
    requires blk > 0 && S.Stages(s) && Data(c, s) && MovingOk(s)
    requires OnTaken(s, taken, blocks, blk) && Uniform(s.stored, blocks, blk)
    requires Possible(c, s, step) && Defined(c, s, step)
    ensures OnTaken(Next(c, s, step), taken + (if Writes(s, step) then {step.lba} else {}), blocks, blk)
  {
    if step.EngineProcess? {
      EngineTaken(c, s, step.lba, step.pad, taken, blocks, blk);
    } else {
      OtherTaken(c, s, step, taken, blocks, blk);
    }
  }

  lemma OtherTaken(c: Config, s: State, step: Step, taken: set<int>, blocks: nat, blk: nat)
    requires blk > 0 && S.Stages(s) && Data(c, s) && MovingOk(s) && OnTaken(s, taken, blocks, blk)
    requires Possible(c, s, step) && Defined(c, s, step) && !step.EngineProcess?
    ensures OnTaken(Next(c, s, step), taken + {}, blocks, blk)
  {
    assert taken + {} == taken;
    if step.FinProcess? {
      FinTaken(c, s, taken, blocks, blk);
    } else {
      OtherOwners(c, s, step);
      NoNewOwnerKeeps(s, Next(c, s, step), taken, blocks, blk);
    }
  }

  // ---- Runs that take their space from the free list ----

  /** What the code tests, without any assumption about the space of a write. */
  ghost predicate Offered(c: Config, s: State, step: Step) {
    if step.EngineProcess? then
      && s.pipe.engineBatch != [] && s.pipe.engineBatch[0] in s.rqsts
      && (Writes(s, step) ==>
            s.rqsts[s.pipe.engineBatch[0]].size + |step.pad|
            == c.extent(step.lba, s.rqsts[s.pipe.engineBatch[0]].size).length)
    else Possible(c, s, step)
  }

  /** A device of blkNum blocks of blk bytes, a free list of maxLba LBAs that all fit, and
      values of this many blocks. */
  datatype Layout = Layout(blk: nat, blkNum: nat, maxLba: nat, blocks: nat)

  ghost predicate LayoutOk(c: Config, l: Layout, size: nat) {
    OnBlocks(c, l.blk) && size == l.blk * l.blkNum && l.blocks * l.maxLba <= l.blkNum
  }

  /** What is put has this many blocks. */
  predicate PutFits(s: State, step: Step, blocks: nat, blk: nat)
    requires blk > 0
  {
    step.Client? && step.call.PutReserved? && step.call.w in s.clients && s.clients[step.call.w].Reserving? ==>
      IoSizes.BlocksFor(|s.clients[step.call.w].bytes|, blk) == blocks
  }

  /** One step, with what happens to the free list: a write takes the LBA it hands out; at any
      other time one that nothing live is on may be given back. */
  ghost predicate Allocates(c: Config, l: Layout, s: State, step: Step, t: State, ops: seq<F.Op>, ops': seq<F.Op>)
    requires l.blk > 0
  {
    && Offered(c, s, step) && Careful(s, step)
    && PutFits(s, step, l.blocks, l.blk)
    && (if Writes(s, step)
        then F.Get(F.Exec(l.maxLba, ops).queue, l.maxLba).0 == Some(step.lba) && ops' == ops + [F.DoGet]
        else ops' == ops || GivesBack(l, t, ops, ops'))
    && (Possible(c, s, step) && Defined(c, s, step) ==> t == Next(c, s, step))
  }

  ghost predicate GivesBack(l: Layout, t: State, ops: seq<F.Op>, ops': seq<F.Op>) {
    exists lba :: ops' == ops + [F.DoPush(lba)] && lba in F.Exec(l.maxLba, ops).held
                  && forall o: Owner :: Live(t.index, t.stored, t.rqsts, t.pipe, o) ==> LbaOf(t, o) != lba
  }

  ghost predicate AllocRun(c: Config, l: Layout, disk: Bytes, states: seq<State>, steps: seq<Step>, ops: seq<seq<F.Op>>)
    requires l.blk > 0
  {
    && |states| == |ops| == |steps| + 1 && states[0] == Initial(disk) && ops[0] == []
    && forall i :: 0 <= i < |steps| ==> Allocates(c, l, states[i], steps[i], states[i + 1], ops[i], ops[i + 1])
  }

  /** What holds along such a run. */
  ghost predicate Kept(c: Config, l: Layout, size: nat, s: State, ops: seq<F.Op>)
    requires l.blk > 0
  {
    && Inv(c, s) && F.Legal(l.maxLba, ops) && OnTaken(s, F.Exec(l.maxLba, ops).held, l.blocks, l.blk)
    && Uniform(s.stored, l.blocks, l.blk) && |s.disk| == size
  }

  lemma Handed(l: Layout, ops: seq<F.Op>, lba: nat)
    requires F.Legal(l.maxLba, ops) && F.Get(F.Exec(l.maxLba, ops).queue, l.maxLba).0 == Some(lba)
    ensures lba < l.maxLba && lba !in F.Exec(l.maxLba, ops).held
    ensures F.Legal(l.maxLba, ops + [F.DoGet])
    ensures F.Exec(l.maxLba, ops + [F.DoGet]).held == F.Exec(l.maxLba, ops).held + {lba}
  {
    F.NeverHandedOutTwice(l.maxLba, ops);
    var after := ops + [F.DoGet];
    assert forall i :: 0 <= i <= |ops| ==> after[..i] == ops[..i];
    assert after[..|ops|] == ops;
  }

  lemma GivenBack(l: Layout, ops: seq<F.Op>, lba: int)
    requires F.Legal(l.maxLba, ops) && lba in F.Exec(l.maxLba, ops).held
    ensures F.Legal(l.maxLba, ops + [F.DoPush(lba)])
    ensures F.Exec(l.maxLba, ops + [F.DoPush(lba)]).held == F.Exec(l.maxLba, ops).held - {lba}
  {
    var after := ops + [F.DoPush(lba)];
    assert forall i :: 0 <= i <= |ops| ==> after[..i] == ops[..i];
    assert after[..|ops|] == ops;
  }

  /** The free list meets the allocator's contract. */
  lemma WriteIsPossible(c: Config, l: Layout, size: nat, s: State, step: Step, ops: seq<F.Op>)
    requires LayoutOk(c, l, size) && Kept(c, l, size, s, ops) && Offered(c, s, step)
    requires Writes(s, step) && F.Get(F.Exec(l.maxLba, ops).queue, l.maxLba).0 == Some(step.lba)
    ensures Possible(c, s, step)
  {
    Handed(l, ops, step.lba);
    EngineDefined(c, s);
    TransfersInsideIff(l.blocks, l.maxLba, l.blkNum);
    UntakenIsFree(c, s, l.blk, l.blkNum, step.lba, s.rqsts[s.pipe.engineBatch[0]].size, F.Exec(l.maxLba, ops).held);
  }

  // ---- Such a run is a run ----

  lemma UniformKept(c: Config, l: Layout, s: State, step: Step)
    requires l.blk > 0 && Uniform(s.stored, l.blocks, l.blk) && Possible(c, s, step) && Defined(c, s, step)
    requires PutFits(s, step, l.blocks, l.blk)
    ensures Uniform(Next(c, s, step).stored, l.blocks, l.blk)
  {
    StoredFrame(c, s, step);
  }

  /** What is stored under k was stored before, or is what a client just put. */
  ghost predicate StoredOrPut(s: State, step: Step, t: State, k: Key) {
    || (k in s.stored && k in t.stored && t.stored[k] == s.stored[k])
    || (step.Client? && step.call.PutReserved? && step.call.w in s.clients && s.clients[step.call.w].Reserving?
        && k in t.stored && t.stored[k] == s.clients[step.call.w].bytes)
  }

  lemma CallStored(c: Config, s: State, call: Call)
    requires CallPossible(c, s, call) && CallDefined(s, call)
    ensures forall k :: k in AfterCall(c, s, call).stored ==> StoredOrPut(s, Client(call), AfterCall(c, s, call), k)
    ensures AfterCall(c, s, call).disk == s.disk
  {
    if !Asks(call) { CallFrame(c, s, call); }
    if call.PutReserved? { HasPutStores(s, call.w, call.room); } else { CallStoresLess(c, s, call); }
  }

  lemma HasPutStores(s: State, w: nat, room: bool)
    requires w in s.clients && s.clients[w].Reserving?
    ensures var t := HasPut(s, w, room);
            forall k :: k in t.stored ==> StoredOrPut(s, Client(PutReserved(w, room)), t, k)
  {
  }

  lemma CallStoresLess(c: Config, s: State, call: Call)
    requires CallPossible(c, s, call) && CallDefined(s, call) && !call.PutReserved?
    ensures var t := AfterCall(c, s, call); forall k :: k in t.stored ==> k in s.stored && t.stored[k] == s.stored[k]
  {
  }

  lemma FinStored(c: Config, s: State, step: Step)
    requires (step.FinCancel? || step.FinPoint? || step.FinProcess?) && Possible(c, s, step) && Defined(c, s, step)
    ensures forall k :: k in Next(c, s, step).stored ==> k in s.stored && Next(c, s, step).stored[k] == s.stored[k]
    ensures Next(c, s, step).disk == s.disk
  {
  }

  /** Only puts add to what is stored. */
  lemma StoredFrame(c: Config, s: State, step: Step)
    requires Possible(c, s, step) && Defined(c, s, step)
    ensures forall k :: k in Next(c, s, step).stored ==> StoredOrPut(s, step, Next(c, s, step), k)
    ensures |Next(c, s, step).disk| == |s.disk|
  {
    if step.Client? {
      CallStored(c, s, step.call);
    } else if step.FinCancel? || step.FinPoint? || step.FinProcess? {
      FinStored(c, s, step);
    } else {
      QuietMemory(c, s, step);
    }
  }

  lemma FreeListKept(l: Layout, s: State, step: Step, t: State, ops: seq<F.Op>, ops': seq<F.Op>)
    requires l.blk > 0 && F.Legal(l.maxLba, ops)
    requires OnTaken(t, F.Exec(l.maxLba, ops).held + (if Writes(s, step) then {step.lba} else {}), l.blocks, l.blk)
    requires if Writes(s, step)
             then F.Get(F.Exec(l.maxLba, ops).queue, l.maxLba).0 == Some(step.lba) && ops' == ops + [F.DoGet]
             else ops' == ops || GivesBack(l, t, ops, ops')
    ensures F.Legal(l.maxLba, ops') && OnTaken(t, F.Exec(l.maxLba, ops').held, l.blocks, l.blk)
  {
    if Writes(s, step) {
      Handed(l, ops, step.lba);
    } else if ops' != ops {
      var lba :| ops' == ops + [F.DoPush(lba)] && lba in F.Exec(l.maxLba, ops).held
                 && forall o: Owner :: Live(t.index, t.stored, t.rqsts, t.pipe, o) ==> LbaOf(t, o) != lba;
      GivenBack(l, ops, lba);
    }
  }

  lemma AllocStep(c: Config, l: Layout, size: nat, s: State, step: Step, t: State, ops: seq<F.Op>, ops': seq<F.Op>)
    requires LayoutOk(c, l, size) && Kept(c, l, size, s, ops) && Allocates(c, l, s, step, t, ops, ops')
    ensures Enabled(c, s, step) && Defined(c, s, step) && t == Next(c, s, step) && Kept(c, l, size, t, ops')
  {
    if Writes(s, step) { WriteIsPossible(c, l, size, s, step, ops); }
    assert Possible(c, s, step);
    InvKept(c, s, step);
    TakenKept(c, s, step, F.Exec(l.maxLba, ops).held, l.blocks, l.blk);
    FreeListKept(l, s, step, t, ops, ops');
    UniformKept(c, l, s, step);
    StoredFrame(c, s, step);
  }

  lemma KeptNext(c: Config, l: Layout, disk: Bytes, states: seq<State>, steps: seq<Step>, ops: seq<seq<F.Op>>, i: nat)
    requires LayoutOk(c, l, |disk|) && AllocRun(c, l, disk, states, steps, ops) && i < |steps|
    requires Kept(c, l, |disk|, states[i], ops[i])
    ensures Kept(c, l, |disk|, states[i + 1], ops[i + 1])
  {
    AllocStep(c, l, |disk|, states[i], steps[i], states[i + 1], ops[i], ops[i + 1]);
  }

  lemma KeptInitially(c: Config, l: Layout, disk: Bytes)
    requires LayoutOk(c, l, |disk|)
    ensures Kept(c, l, |disk|, Initial(disk), [])
  {
    InvInitially(c, disk);
  }

  lemma {:induction false} KeptAlong(c: Config, l: Layout, disk: Bytes, states: seq<State>, steps: seq<Step>,
                                     ops: seq<seq<F.Op>>, i: nat)
    requires LayoutOk(c, l, |disk|) && AllocRun(c, l, disk, states, steps, ops) && i <= |steps|
    ensures Kept(c, l, |disk|, states[i], ops[i])
  {
    if i == 0 {
      KeptInitially(c, l, disk);
    } else {
      KeptAlong(c, l, disk, states, steps, ops, i - 1);
      KeptNext(c, l, disk, states, steps, ops, i - 1);
    }
  }

  /** A run whose writes go where the free list says, on a device where values all have one
      block count, meets the allocator's contract at every write: it is a run, and all that
      is proved of runs holds of it. */
  lemma FreeListMeetsContract(c: Config, l: Layout, disk: Bytes, states: seq<State>, steps: seq<Step>,
                              ops: seq<seq<F.Op>>)
    requires LayoutOk(c, l, |disk|) && AllocRun(c, l, disk, states, steps, ops)
    ensures O.Run(c, disk, states, steps)
  {
    forall i | 0 <= i < |steps|
      ensures Enabled(c, states[i], steps[i])
      ensures Defined(c, states[i], steps[i]) ==> states[i + 1] == Next(c, states[i], steps[i])
    {
      KeptAlong(c, l, disk, states, steps, ops, i);
      AllocStep(c, l, |disk|, states[i], steps[i], states[i + 1], ops[i], ops[i + 1]);
    }
  }
}
