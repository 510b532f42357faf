/** The bytes: whatever the pipeline is doing, a stored key is readable with the bytes
    that were put, from memory or from the device. */
module OffloadData {
  import opened Basics
  import opened ValueIndex
  import opened Extents
  import opened OffloadState

  type Stored = map<Key, Bytes>
  type Rqsts = map<Id, Rqst>

  ghost predicate OnDisk(c: Config, disk: Bytes, lba: nat, v: Bytes) {
    var e := c.extent(lba, |v|);
    Inside(e, |disk|) && |v| <= e.length && disk[e.start..e.start + |v|] == v
  }

  /** The wrapper points at the bytes v. */
  ghost predicate WrapperData(c: Config, heap: Heap, disk: Bytes, w: Wrapper, v: Bytes) {
    && w.size == |v|
    && match w.location
       case EMPTY => false
       case PMEM => w.locationVolatile == PMEM && w.ptr.Memory? && w.ptr.addr in heap && heap[w.ptr.addr] == v
       case DISK => w.ptr.Device? && OnDisk(c, disk, w.ptr.dev.lba, v)
  }

  /** The stored keys are exactly the visible ones, and point at their bytes, no two of them in
      the same memory; all except the one that is just being published. */
  ghost predicate KeysOk(c: Config, index: Index, heap: Heap, disk: Bytes, stored: Stored, moving: Option<Key>) {
    && (forall k :: k in stored && moving != Some(k) ==> k in index && WrapperData(c, heap, disk, index[k], stored[k]))
    && (forall k :: k in index && k !in stored ==> index[k].location == EMPTY)
    && (forall k1, k2 ::
          k1 in stored && k2 in stored && k1 != k2 && moving != Some(k1) && moving != Some(k2) ==>
            index[k1].location != PMEM || index[k2].location != PMEM || index[k1].ptr != index[k2].ptr)
  }

  /** No two owners of device space overlap. */
  ghost predicate ClaimsOk(c: Config, index: Index, stored: Stored, rqsts: Rqsts, p: Pipe) {
    forall o1: Owner, o2: Owner ::
      Live(index, stored, rqsts, p, o1) && Live(index, stored, rqsts, p, o2) && o1 != o2 ==>
        Disjoint(ExtentOf(c, index, rqsts, o1), ExtentOf(c, index, rqsts, o2))
  }

  /** An unanswered request's key is stored, and is where this kind of request needs it. */
  ghost predicate RqstData(index: Index, stored: Stored, moving: Option<Key>, wanted: map<Id, Bytes>, id: Id, r: Rqst) {
    && r.key in stored && r.key in index && id in wanted && wanted[id] == stored[r.key]
    && (r.op != UPDATE ==> index[r.key].location == DISK)
    && (r.op == UPDATE ==>
          && index[r.key].location == PMEM && r.size == |stored[r.key]|
          && (moving != Some(r.key) ==> index[r.key].ptr == Memory(r.value)))
  }

  ghost predicate RqstsOk(index: Index, stored: Stored, moving: Option<Key>, rqsts: Rqsts,
                          calls: map<Id, nat>, wanted: map<Id, Bytes>)
  {
    && (forall id :: id in rqsts && Unanswered(calls, id) ==> RqstData(index, stored, moving, wanted, id, rqsts[id]))
    && (forall id1, id2 ::
          && id1 in rqsts && id2 in rqsts && Unanswered(calls, id1) && Unanswered(calls, id2) && id1 != id2
          && rqsts[id1].key == rqsts[id2].key
          ==> rqsts[id1].op == GET)
  }

  ghost predicate EngineData(stored: Stored, r: Rqst) {
    r.key in stored && (r.op == GET ==> r.size == |stored[r.key]|)
  }

  ghost predicate DeviceData(c: Config, index: Index, disk: Bytes, stored: Stored, r: Rqst) {
    && r.key in stored && r.key in index && r.op != REMOVE
    && r.size == |stored[r.key]| && Inside(c.extent(r.lba, r.size), |disk|)
    && (r.op == GET ==> index[r.key].ptr.Device? && r.lba == index[r.key].ptr.dev.lba)
    && (r.op == UPDATE ==>
          |r.buff| == c.extent(r.lba, r.size).length && r.size <= |r.buff| && r.buff[..r.size] == stored[r.key])
  }

  ghost predicate FinData(c: Config, disk: Bytes, stored: Stored, r: Rqst) {
    && r.key in stored
    && (r.result && r.op != REMOVE ==> r.size == |stored[r.key]|)
    && (r.result && r.op == GET ==> r.size <= |r.buff| && r.buff[..r.size] == stored[r.key])
    && (r.result && r.op == UPDATE ==> OnDisk(c, disk, r.lba, stored[r.key]))
  }

  ghost predicate StagesData(c: Config, index: Index, disk: Bytes, stored: Stored, rqsts: Rqsts, p: Pipe) {
    && (forall id :: id in p.engineRing || id in p.engineBatch ==> id in rqsts && EngineData(stored, rqsts[id]))
    && (forall id :: id in p.device ==> id in rqsts && DeviceData(c, index, disk, stored, rqsts[id]))
    && (forall id :: id in p.finRing || id in p.finBatch ==> id in rqsts && FinData(c, disk, stored, rqsts[id]))
  }

  /** A read that was answered OK was given the bytes stored when it was made, and no read
      is ever told that the key does not exist. */
  ghost predicate AnswersOk(rqsts: Rqsts, answers: map<Id, (Code, Bytes)>, wanted: map<Id, Bytes>) {
    forall id :: id in answers ==>
      && id in rqsts && id in wanted
      && (rqsts[id].op == GET ==> answers[id].0 != KEY_NOT_FOUND)
      && (rqsts[id].op == GET && answers[id].0 == OK ==> answers[id].1 == wanted[id])
  }

  ghost predicate Data(c: Config, s: State) {
    && KeysOk(c, s.index, s.heap, s.disk, s.stored, Moving(s.phase))
    && ClaimsOk(c, s.index, s.stored, s.rqsts, s.pipe)
    && RqstsOk(s.index, s.stored, Moving(s.phase), s.rqsts, s.calls, s.wanted)
    && StagesData(c, s.index, s.disk, s.stored, s.rqsts, s.pipe)
    && AnswersOk(s.rqsts, s.answers, s.wanted)
  }

  /** The value being published was written, and is still the head of the finalizer's batch. */
  ghost predicate MovingOk(s: State) {
    s.phase.Idle? ||
    var k := s.phase.k;
    && ToPublish(s) && s.rqsts[s.pipe.finBatch[0]].key == k
    && k in s.stored && ReservedNotPublished(s.index[k]) && s.index[k].size == |s.stored[k]|
    && (s.phase.Pointed? ==> s.index[k].ptr.Device?)
  }

  // ---- The elementary changes steps are made of ----

  ghost predicate Absent(p: Pipe, id: Id) {
    && id !in p.pollRing && id !in p.pollBatch && id !in p.engineRing && id !in p.engineBatch
    && id !in p.device && id !in p.finRing && id !in p.finBatch && id !in p.lost
  }

  /** Leaving a queue, or moving from a ring to the batch taken from it, adds nothing. */
  ghost predicate Shrinks(p: Pipe, p': Pipe) {
    && (forall id :: id in p'.engineRing || id in p'.engineBatch ==> id in p.engineRing || id in p.engineBatch)
    && (forall id :: id in p'.device ==> id in p.device)
    && (forall id :: id in p'.finRing || id in p'.finBatch ==> id in p.finRing || id in p.finBatch)
  }

  lemma PopDeviceShrinks(p: Pipe, i: nat)
    requires i < |p.device|
    ensures Shrinks(p, PopDevice(p, i))
  {
  }

  lemma ShrinkKeeps(c: Config, s: State, p': Pipe)
    requires Data(c, s) && Shrinks(s.pipe, p')
    ensures Data(c, s.(pipe := p'))
  {
  }

  /** Rewriting the device task of a request that is in nobody's queue. */
  lemma RewriteKeeps(c: Config, s: State, id: Id, r': Rqst)
    requires Data(c, s) && id in s.rqsts && Absent(s.pipe, id)
    requires r'.op == s.rqsts[id].op && r'.key == s.rqsts[id].key && r'.value == s.rqsts[id].value
    requires r'.op == UPDATE ==> r'.size == s.rqsts[id].size
    ensures Data(c, s.(rqsts := s.rqsts[id := r']))
  {
    RewriteClaims(c, s, id, r');
    RewriteRqsts(s, id, r');
    RewriteStages(c, s, id, r');
  }

  lemma RewriteRqsts(s: State, id: Id, r': Rqst)
    requires RqstsOk(s.index, s.stored, Moving(s.phase), s.rqsts, s.calls, s.wanted) && id in s.rqsts
    requires r'.op == s.rqsts[id].op && r'.key == s.rqsts[id].key && r'.value == s.rqsts[id].value
    requires r'.op == UPDATE ==> r'.size == s.rqsts[id].size
    ensures RqstsOk(s.index, s.stored, Moving(s.phase), s.rqsts[id := r'], s.calls, s.wanted)
  {
  }

  lemma RewriteStages(c: Config, s: State, id: Id, r': Rqst)
    requires StagesData(c, s.index, s.disk, s.stored, s.rqsts, s.pipe) && id in s.rqsts && Absent(s.pipe, id)
    ensures StagesData(c, s.index, s.disk, s.stored, s.rqsts[id := r'], s.pipe)
  {
  }

  lemma RewriteClaims(c: Config, s: State, id: Id, r': Rqst)
    requires ClaimsOk(c, s.index, s.stored, s.rqsts, s.pipe) && id in s.rqsts && Absent(s.pipe, id)
    ensures ClaimsOk(c, s.index, s.stored, s.rqsts[id := r'], s.pipe)
  {
    var rq := s.rqsts[id := r'];
    forall o: Owner | Live(s.index, s.stored, rq, s.pipe, o)
      ensures Live(s.index, s.stored, s.rqsts, s.pipe, o)
      ensures ExtentOf(c, s.index, rq, o) == ExtentOf(c, s.index, s.rqsts, o)
    {
    }
  }

  lemma PushEngineKeeps(c: Config, s: State, id: Id)
    requires Data(c, s) && id in s.rqsts && EngineData(s.stored, s.rqsts[id])
    ensures Data(c, s.(pipe := PushEngine(s.pipe, id)))
  {
  }

  /** A request with fresh or already exclusive device space joins a queue. */
  lemma PushDeviceKeeps(c: Config, s: State, id: Id)
    requires Data(c, s) && id in s.rqsts && Absent(s.pipe, id)
    requires DeviceData(c, s.index, s.disk, s.stored, s.rqsts[id])
    requires s.rqsts[id].op == UPDATE ==> FreeExtent(c, s, c.extent(s.rqsts[id].lba, s.rqsts[id].size))
    ensures Data(c, s.(pipe := PushDevice(s.pipe, id)))
  {
    PushClaims(c, s, id, PushDevice(s.pipe, id));
  }

  lemma PushClaims(c: Config, s: State, id: Id, p': Pipe)
    requires ClaimsOk(c, s.index, s.stored, s.rqsts, s.pipe) && id in s.rqsts && Absent(s.pipe, id)
    requires p' in {PushDevice(s.pipe, id), PushFin(s.pipe, id)}
    requires Live(s.index, s.stored, s.rqsts, p', OfRqst(id)) ==>
               FreeExtent(c, s, c.extent(s.rqsts[id].lba, s.rqsts[id].size))
    ensures ClaimsOk(c, s.index, s.stored, s.rqsts, p')
  {
    forall o: Owner | Live(s.index, s.stored, s.rqsts, p', o) && o != OfRqst(id)
      ensures Live(s.index, s.stored, s.rqsts, s.pipe, o)
    {
    }
  }

  lemma PushFinKeeps(c: Config, s: State, id: Id)
    requires Data(c, s) && id in s.rqsts && Absent(s.pipe, id)
    requires FinData(c, s.disk, s.stored, s.rqsts[id])
    requires s.rqsts[id].op == UPDATE && s.rqsts[id].result ==>
               FreeExtent(c, s, c.extent(s.rqsts[id].lba, s.rqsts[id].size))
    ensures Data(c, s.(pipe := PushFin(s.pipe, id)))
  {
    PushClaims(c, s, id, PushFin(s.pipe, id));
  }

  lemma FinishKeeps(c: Config, s: State, id: Id, code: Code, bytes: Bytes)
    requires Data(c, s) && Known(s, id) && id in s.wanted && s.calls[id] == 0
    requires s.rqsts[id].op == GET ==> code != KEY_NOT_FOUND && (code == OK ==> bytes == s.wanted[id])
    ensures Data(c, Finish(s, id, code, bytes))
  {
    FinishRqsts(s, id);
    FinishAnswers(s.rqsts, s.answers, s.wanted, id, code, bytes);
  }

  lemma FinishAnswers(rqsts: Rqsts, answers: map<Id, (Code, Bytes)>, wanted: map<Id, Bytes>, id: Id,
                      code: Code, bytes: Bytes)
    requires AnswersOk(rqsts, answers, wanted) && id in rqsts && id in wanted
    requires rqsts[id].op == GET ==> code != KEY_NOT_FOUND && (code == OK ==> bytes == wanted[id])
    ensures AnswersOk(rqsts, answers[id := (code, bytes)], wanted)
  {
  }

  /** Fewer requests are under way. */
  lemma FinishRqsts(s: State, id: Id)
    requires RqstsOk(s.index, s.stored, Moving(s.phase), s.rqsts, s.calls, s.wanted) && id in s.calls
    ensures RqstsOk(s.index, s.stored, Moving(s.phase), s.rqsts, s.calls[id := s.calls[id] + 1], s.wanted)
  {
  }

  // ---- Device writes ----

  lemma WriteElsewhere(c: Config, disk: Bytes, e: Extent, data: Bytes, lba: nat, v: Bytes)
    requires Inside(e, |disk|) && |data| == e.length && OnDisk(c, disk, lba, v) && Disjoint(e, c.extent(lba, |v|))
    ensures OnDisk(c, WriteDisk(disk, e, data), lba, v)
  {
    var x, d := c.extent(lba, |v|), WriteDisk(disk, e, data);
    assert forall i :: x.start <= i < x.start + |v| ==> d[i] == disk[i];
    assert d[x.start..x.start + |v|] == disk[x.start..x.start + |v|];
  }

  lemma WriteHere(c: Config, disk: Bytes, data: Bytes, lba: nat, v: Bytes)
    requires var e := c.extent(lba, |v|); Inside(e, |disk|) && |data| == e.length
    requires |v| <= |data| && data[..|v|] == v
    ensures OnDisk(c, WriteDisk(disk, c.extent(lba, |v|), data), lba, v)
  {
    var e := c.extent(lba, |v|);
    var d := WriteDisk(disk, e, data);
    assert d[e.start..e.start + e.length] == data;
    assert d[e.start..e.start + |v|] == data[..|v|];
  }

  /** Writing where nothing live is changes nothing that counts. */
  lemma WriteKeeps(c: Config, s: State, e: Extent, data: Bytes)
    requires Data(c, s) && FreeExtent(c, s, e) && |data| == e.length
    ensures Data(c, s.(disk := WriteDisk(s.disk, e, data)))
  {
    var d := WriteDisk(s.disk, e, data);
    forall k | k in s.stored && Moving(s.phase) != Some(k) ensures WrapperData(c, s.heap, d, s.index[k], s.stored[k]) {
      if s.index[k].location == DISK {
        assert Live(s.index, s.stored, s.rqsts, s.pipe, OfKey(k));
        WriteElsewhere(c, s.disk, e, data, s.index[k].ptr.dev.lba, s.stored[k]);
      }
    }
    forall id | id in s.pipe.finRing || id in s.pipe.finBatch
      ensures id in s.rqsts && FinData(c, d, s.stored, s.rqsts[id])
    {
      var r := s.rqsts[id];
      if r.result && r.op == UPDATE {
        assert Live(s.index, s.stored, s.rqsts, s.pipe, OfRqst(id));
        WriteElsewhere(c, s.disk, e, data, r.lba, s.stored[r.key]);
      }
    }
  }

  // ---- Changes of the tree ----

  ghost predicate NoneUnanswered(s: State, k: Key) {
    forall id :: id in s.rqsts && Unanswered(s.calls, id) ==> s.rqsts[id].key != k
  }

  /** Requests in the pipeline are unanswered. */
  ghost predicate PipeUnanswered(s: State) {
    forall id :: !Absent(s.pipe, id) ==> id in s.rqsts && Unanswered(s.calls, id)
  }

  /** Keys other than k stay as they are. */
  ghost predicate Elsewhere(index: Index, index': Index, stored: Stored, stored': Stored, k: Key) {
    && (forall x :: x != k ==> (x in stored <==> x in stored') && (x in index <==> x in index'))
    && (forall x :: x != k && x in stored ==> stored'[x] == stored[x])
    && (forall x :: x != k && x in index ==> index'[x] == index[x])
  }

  /** Each operation on the tree works on one key. */
  lemma TreeElsewhere(index: Index, stored: Stored, k: Key, v: Bytes, dev: DeviceAddr)
    ensures Elsewhere(index, Put(index, k).0, stored, stored[k := v], k)
    ensures Elsewhere(index, Remove(index, k).0, stored, stored - {k}, k)
    ensures Elsewhere(index, Publish(index, k, dev).0, stored, stored, k)
  {
  }

  lemma PointElsewhere(index: Index, stored: Stored, k: Key, p: Pointer)
    requires k in index
    ensures Elsewhere(index, Point(index, k, p), stored, stored, k)
  {
  }

  lemma OtherClaims(c: Config, s: State, k: Key, index: Index, stored: Stored)
    requires ClaimsOk(c, s.index, s.stored, s.rqsts, s.pipe) && Elsewhere(s.index, index, s.stored, stored, k)
    requires !Live(index, stored, s.rqsts, s.pipe, OfKey(k))
    ensures ClaimsOk(c, index, stored, s.rqsts, s.pipe)
  {
    forall o: Owner | Live(index, stored, s.rqsts, s.pipe, o)
      ensures Live(s.index, s.stored, s.rqsts, s.pipe, o)
      ensures ExtentOf(c, index, s.rqsts, o) == ExtentOf(c, s.index, s.rqsts, o)
    {
    }
  }

  lemma OtherRqsts(s: State, k: Key, index: Index, stored: Stored, phase: Phase)
    requires RqstsOk(s.index, s.stored, Moving(s.phase), s.rqsts, s.calls, s.wanted) && NoneUnanswered(s, k)
    requires Elsewhere(s.index, index, s.stored, stored, k) && Moving(phase) in {None, Some(k), Moving(s.phase)}
    requires Moving(s.phase) in {None, Some(k), Moving(phase)}
    ensures RqstsOk(index, stored, Moving(phase), s.rqsts, s.calls, s.wanted)
  {
  }

  lemma OtherStages(c: Config, s: State, k: Key, index: Index, stored: Stored)
    requires StagesData(c, s.index, s.disk, s.stored, s.rqsts, s.pipe) && NoneUnanswered(s, k) && PipeUnanswered(s)
    requires Elsewhere(s.index, index, s.stored, stored, k)
    ensures StagesData(c, index, s.disk, stored, s.rqsts, s.pipe)
  {
  }

  /** No request is under way for a key that is not stored. */
  lemma NoneForAbsent(s: State, k: Key)
    requires RqstsOk(s.index, s.stored, Moving(s.phase), s.rqsts, s.calls, s.wanted) && k !in s.stored
    ensures NoneUnanswered(s, k)
  {
    forall id | id in s.rqsts && Unanswered(s.calls, id) ensures s.rqsts[id].key != k {
      assert RqstData(s.index, s.stored, Moving(s.phase), s.wanted, id, s.rqsts[id]);
    }
  }

  /** Memory of the stored keys is as it was. */
  ghost predicate MemoryKept(s: State, heap: Heap) {
    forall k :: k in s.stored && k in s.index && s.index[k].location == PMEM && Moving(s.phase) != Some(k)
                && s.index[k].ptr.Memory? && s.index[k].ptr.addr in s.heap ==>
                  s.index[k].ptr.addr in heap && heap[s.index[k].ptr.addr] == s.heap[s.index[k].ptr.addr]
  }

  lemma MemoryKeeps(c: Config, s: State, heap: Heap)
    requires Data(c, s) && MemoryKept(s, heap)
    ensures Data(c, s.(heap := heap))
  {
    forall k | k in s.stored && Moving(s.phase) != Some(k)
      ensures WrapperData(c, heap, s.disk, s.index[k], s.stored[k])
    {
      assert WrapperData(c, s.heap, s.disk, s.index[k], s.stored[k]);
    }
  }

  /** What an invisible wrapper holds does not matter. */
  lemma HiddenKeeps(c: Config, s: State, k: Key, index: Index)
    requires Data(c, s) && PipeUnanswered(s) && k !in s.stored && Elsewhere(s.index, index, s.stored, s.stored, k)
    requires k in index ==> index[k].location == EMPTY
    ensures Data(c, s.(index := index))
  {
    NoneForAbsent(s, k);
    HiddenKeys(c, s, k, index);
    OtherClaims(c, s, k, index, s.stored);
    OtherRqsts(s, k, index, s.stored, s.phase);
    OtherStages(c, s, k, index, s.stored);
  }

  lemma HiddenKeys(c: Config, s: State, k: Key, index: Index)
    requires KeysOk(c, s.index, s.heap, s.disk, s.stored, Moving(s.phase)) && k !in s.stored
    requires Elsewhere(s.index, index, s.stored, s.stored, k) && (k in index ==> index[k].location == EMPTY)
    ensures KeysOk(c, index, s.heap, s.disk, s.stored, Moving(s.phase))
  {
  }

  /** The memory at a is no stored key's. */
  ghost predicate Unshared(s: State, a: nat) {
    forall k :: k in s.stored && k in s.index && s.index[k].location == PMEM && Moving(s.phase) != Some(k) ==>
                  s.index[k].ptr != Memory(a)
  }

  lemma PutKeys(c: Config, s: State, k: Key, v: Bytes)
    requires KeysOk(c, s.index, s.heap, s.disk, s.stored, Moving(s.phase)) && k !in s.stored && k in s.index
    requires s.index[k].ptr.Memory? && s.index[k].size == |v| && Unshared(s, s.index[k].ptr.addr)
    requires s.index[k].ptr.addr in s.heap && s.heap[s.index[k].ptr.addr] == v
    ensures KeysOk(c, Put(s.index, k).0, s.heap, s.disk, s.stored[k := v], Moving(s.phase))
  {
  }

  /** A Put makes the reserved memory of an absent key readable, with what is in it. */
  lemma PutKeeps(c: Config, s: State, k: Key, v: Bytes)
    requires Data(c, s) && PipeUnanswered(s) && k !in s.stored && k in s.index
    requires s.index[k].ptr.Memory? && s.index[k].size == |v| && Unshared(s, s.index[k].ptr.addr)
    requires s.index[k].ptr.addr in s.heap && s.heap[s.index[k].ptr.addr] == v
    ensures Data(c, s.(index := Put(s.index, k).0, stored := s.stored[k := v]))
  {
    var index, stored := Put(s.index, k).0, s.stored[k := v];
    TreeElsewhere(s.index, s.stored, k, v, DeviceAddr(0, 0));
    NoneForAbsent(s, k);
    PutKeys(c, s, k, v);
    OtherClaims(c, s, k, index, stored);
    OtherRqsts(s, k, index, stored, s.phase);
    OtherStages(c, s, k, index, stored);
  }

  lemma RemoveKeys(c: Config, s: State, k: Key)
    requires KeysOk(c, s.index, s.heap, s.disk, s.stored, Moving(s.phase)) && k in s.stored && k in s.index
    ensures KeysOk(c, Remove(s.index, k).0, s.heap, s.disk, s.stored - {k}, Moving(s.phase))
  {
  }

  /** Taking a key out that no request is under way for. */
  lemma RemoveKeeps(c: Config, s: State, k: Key)
    requires Data(c, s) && k in s.stored && k in s.index && NoneUnanswered(s, k) && PipeUnanswered(s)
    ensures Data(c, s.(index := Remove(s.index, k).0, stored := s.stored - {k}))
  {
    var index, stored := Remove(s.index, k).0, s.stored - {k};
    TreeElsewhere(s.index, s.stored, k, [], DeviceAddr(0, 0));
    RemoveKeys(c, s, k);
    OtherClaims(c, s, k, index, stored);
    OtherRqsts(s, k, index, stored, s.phase);
    OtherStages(c, s, k, index, stored);
  }

  // ---- Publishing ----

  /** k is written at lba, and is on its way there. */
  ghost predicate Written(c: Config, s: State, k: Key, lba: nat) {
    && k in s.stored && k in s.index && s.index[k].location == PMEM && s.index[k].size == |s.stored[k]|
    && OnDisk(c, s.disk, lba, s.stored[k])
  }

  lemma CancelKeys(c: Config, s: State, k: Key, a: nat)
    requires KeysOk(c, s.index, s.heap, s.disk, s.stored, None) && k in s.stored
    requires s.index[k].location == PMEM && s.index[k].ptr == Memory(a)
    ensures KeysOk(c, s.index, s.heap - {a}, s.disk, s.stored, Some(k))
  {
    forall x | x in s.stored && x != k ensures WrapperData(c, s.heap - {a}, s.disk, s.index[x], s.stored[x]) {
      assert WrapperData(c, s.heap, s.disk, s.index[x], s.stored[x]);
    }
  }

  /** The memory of the key goes first. */
  lemma CancelKeeps(c: Config, s: State, k: Key, a: nat)
    requires Data(c, s) && s.phase.Idle? && k in s.stored && s.index[k].location == PMEM && s.index[k].ptr == Memory(a)
    ensures Data(c, s.(heap := s.heap - {a}, phase := Cancelled(k)))
  {
    CancelKeys(c, s, k, a);
  }

  lemma PointStages(c: Config, s: State, k: Key, index: Index)
    requires StagesData(c, s.index, s.disk, s.stored, s.rqsts, s.pipe)
    requires Elsewhere(s.index, index, s.stored, s.stored, k) && (k in s.index <==> k in index)
    requires forall id :: id in s.pipe.device && id in s.rqsts && s.rqsts[id].op == GET ==> s.rqsts[id].key != k
    ensures StagesData(c, index, s.disk, s.stored, s.rqsts, s.pipe)
  {
  }

  lemma PointRqsts(s: State, k: Key, p: Pointer)
    requires RqstsOk(s.index, s.stored, Some(k), s.rqsts, s.calls, s.wanted) && k in s.index
    ensures RqstsOk(Point(s.index, k, p), s.stored, Some(k), s.rqsts, s.calls, s.wanted)
  {
  }

  /** Then its pointer; nobody is led by it while the location says memory. */
  lemma PointKeeps(c: Config, s: State, k: Key, p: Pointer)
    requires Data(c, s) && s.phase == Cancelled(k) && k in s.stored && k in s.index && s.index[k].location == PMEM
    requires PipeUnanswered(s)
    ensures Data(c, s.(index := Point(s.index, k, p), phase := Pointed(k)))
  {
    var index := Point(s.index, k, p);
    PointKeys(c, s, k, p);
    PointElsewhere(s.index, s.stored, k, p);
    OtherClaims(c, s, k, index, s.stored);
    PointRqsts(s, k, p);
    ReadsElsewhere(s, k);
    PointStages(c, s, k, index);
  }

  lemma PointKeys(c: Config, s: State, k: Key, p: Pointer)
    requires KeysOk(c, s.index, s.heap, s.disk, s.stored, Some(k)) && k in s.stored && k in s.index
    ensures KeysOk(c, Point(s.index, k, p), s.heap, s.disk, s.stored, Some(k))
  {
  }

  /** What is in memory is not read from the device. */
  lemma ReadsElsewhere(s: State, k: Key)
    requires RqstsOk(s.index, s.stored, Moving(s.phase), s.rqsts, s.calls, s.wanted) && PipeUnanswered(s)
    requires k in s.index && s.index[k].location == PMEM
    ensures forall id :: id in s.pipe.device && id in s.rqsts && s.rqsts[id].op == GET ==> s.rqsts[id].key != k
  {
    forall id | id in s.pipe.device && id in s.rqsts && s.rqsts[id].op == GET ensures s.rqsts[id].key != k {
      assert RqstData(s.index, s.stored, Moving(s.phase), s.wanted, id, s.rqsts[id]);
    }
  }

  lemma PublishKeys(c: Config, s: State, k: Key, lba: nat)
    requires KeysOk(c, s.index, s.heap, s.disk, s.stored, Some(k)) && Written(c, s, k, lba)
    ensures KeysOk(c, Publish(s.index, k, DeviceAddr(lba, c.busAddr)).0, s.heap, s.disk, s.stored, None)
  {
  }

  lemma PublishClaims(c: Config, s: State, k: Key, lba: nat, index: Index)
    requires ClaimsOk(c, s.index, s.stored, s.rqsts, s.pipe) && Elsewhere(s.index, index, s.stored, s.stored, k)
    requires k in s.stored && FreeExtent(c, s, c.extent(lba, |s.stored[k]|))
    requires k in index && index[k].ptr == Device(DeviceAddr(lba, c.busAddr)) && index[k].size == |s.stored[k]|
    ensures ClaimsOk(c, index, s.stored, s.rqsts, s.pipe)
  {
    forall o: Owner | Live(index, s.stored, s.rqsts, s.pipe, o) && o != OfKey(k)
      ensures Live(s.index, s.stored, s.rqsts, s.pipe, o)
      ensures ExtentOf(c, index, s.rqsts, o) == ExtentOf(c, s.index, s.rqsts, o)
    {
    }
  }

  /** At last its location: from here on it is read from the extent written for it. */
  lemma PublishKeeps(c: Config, s: State, k: Key, lba: nat)
    requires Data(c, s) && s.phase == Pointed(k) && NoneUnanswered(s, k) && PipeUnanswered(s)
    requires Written(c, s, k, lba) && FreeExtent(c, s, c.extent(lba, |s.stored[k]|))
    ensures Data(c, s.(index := Publish(s.index, k, DeviceAddr(lba, c.busAddr)).0, phase := Idle))
  {
    var index := Publish(s.index, k, DeviceAddr(lba, c.busAddr)).0;
    TreeElsewhere(s.index, s.stored, k, [], DeviceAddr(lba, c.busAddr));
    PublishKeys(c, s, k, lba);
    PublishClaims(c, s, k, lba, index);
    OtherRqsts(s, k, index, s.stored, Idle);
    OtherStages(c, s, k, index, s.stored);
  }

  // ---- New requests ----

  /** A request may be made: the key is where it needs it, and it does not meet another
      request for the key, unless both read. */
  ghost predicate MayRequest(s: State, op: Kind, k: Key, value: nat, size: nat) {
    && k in s.stored && s.next !in s.rqsts && s.next !in s.answers && s.next !in s.calls
    && RqstData(s.index, s.stored, Moving(s.phase), s.wanted[s.next := s.stored[k]], s.next,
                Rqst(op, k, value, size, 0, [], false))
    && (forall id :: id in s.rqsts && Unanswered(s.calls, id) && s.rqsts[id].key == k
          ==> op == GET && s.rqsts[id].op == GET)
  }

  lemma SubmitRqsts(s: State, op: Kind, k: Key, value: nat, size: nat)
    requires RqstsOk(s.index, s.stored, Moving(s.phase), s.rqsts, s.calls, s.wanted)
    requires MayRequest(s, op, k, value, size)
    ensures var s' := Submit(s, op, k, value, size);
            RqstsOk(s'.index, s'.stored, Moving(s'.phase), s'.rqsts, s'.calls, s'.wanted)
  {
  }

  lemma SubmitClaims(c: Config, s: State, op: Kind, k: Key, value: nat, size: nat)
    requires ClaimsOk(c, s.index, s.stored, s.rqsts, s.pipe) && PipeUnanswered(s) && MayRequest(s, op, k, value, size)
    ensures var s' := Submit(s, op, k, value, size); ClaimsOk(c, s'.index, s'.stored, s'.rqsts, s'.pipe)
  {
    var s' := Submit(s, op, k, value, size);
    forall o: Owner | Live(s'.index, s'.stored, s'.rqsts, s'.pipe, o)
      ensures Live(s.index, s.stored, s.rqsts, s.pipe, o)
      ensures ExtentOf(c, s'.index, s'.rqsts, o) == ExtentOf(c, s.index, s.rqsts, o)
    {
    }
  }

  lemma SubmitKeeps(c: Config, s: State, op: Kind, k: Key, value: nat, size: nat)
    requires Data(c, s) && PipeUnanswered(s) && MayRequest(s, op, k, value, size)
    ensures Data(c, Submit(s, op, k, value, size))
  {
    SubmitRqsts(s, op, k, value, size);
    SubmitClaims(c, s, op, k, value, size);
  }
}
