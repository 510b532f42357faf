/** The offload pipeline as a step system: client calls, OffloadPoller, SpdkIoEngine,
    SpdkBdev with its device, and FinalizePoller (lib/offload/OffloadPoller.cpp,
    lib/spdk/SpdkIoEngine.cpp, lib/spdk/SpdkBdev.cpp, lib/offload/FinalizePoller.cpp).

    Every loop iteration of a `process` function is a step of its own, so that any other
    thread may run in between. */
module OffloadState {
  import opened Basics
  import opened ValueIndex
  import opened Extents

  type Id = nat

  datatype Kind = GET | UPDATE | REMOVE

  datatype Code = OK | KEY_NOT_FOUND | UNKNOWN_ERROR

  /** A request with the device task built inside it. */
  datatype Rqst = Rqst(op: Kind, key: Key, value: nat, size: nat, lba: nat, buff: Bytes, result: bool)

  /** `extent(lba, size)` is the range of device bytes that a transfer of a value of
      `size` bytes at `lba` covers; `ring` is what a request ring holds. */
  datatype Config = Config(maxIoBufs: nat, ring: nat, busAddr: nat, extent: (nat, nat) -> Extent)

  /** Where requests are. */
  datatype Pipe = Pipe(
    pollRing: seq<Id>, pollBatch: seq<Id>,      // OffloadPoller: its ring, what it dequeued
    engineRing: seq<Id>, engineBatch: seq<Id>,  // SpdkIoEngine
    device: seq<Id>,                            // submitted, not completed
    finRing: seq<Id>, finBatch: seq<Id>,        // FinalizePoller
    lost: seq<Id>                               // completed into a full finalizer ring
  )

  function PushPoll(p: Pipe, id: Id): Pipe { p.(pollRing := p.pollRing + [id]) }
  function PushEngine(p: Pipe, id: Id): Pipe { p.(engineRing := p.engineRing + [id]) }
  function PushDevice(p: Pipe, id: Id): Pipe { p.(device := p.device + [id]) }
  function PushFin(p: Pipe, id: Id): Pipe { p.(finRing := p.finRing + [id]) }
  function PushLost(p: Pipe, id: Id): Pipe { p.(lost := p.lost + [id]) }
  function PopPoll(p: Pipe): Pipe requires p.pollBatch != [] { p.(pollBatch := p.pollBatch[1..]) }
  function PopEngine(p: Pipe): Pipe requires p.engineBatch != [] { p.(engineBatch := p.engineBatch[1..]) }
  function PopFin(p: Pipe): Pipe requires p.finBatch != [] { p.(finBatch := p.finBatch[1..]) }
  function PopDevice(p: Pipe, i: nat): Pipe requires i < |p.device| { p.(device := p.device[..i] + p.device[i + 1..]) }

  /** What a client is in the middle of: it reserved memory for k and wrote these bytes to it;
      it is about to take k out of the tree; it has, and is about to give the memory back. */
  datatype Holding =
    | Reserving(k: Key, addr: nat, bytes: Bytes)
    | Removing(k: Key)
    | Cancelling(k: Key)

  /** How far the finalizer is with publishing the offload at the head of its batch: the
      memory was given back; the tree's pointer was overwritten too. */
  datatype Phase = Idle | Cancelled(k: Key) | Pointed(k: Key)

  function Moving(p: Phase): (k: Option<Key>) {
    if p.Idle? then None else Some(p.k)
  }

  type Heap = map<nat, Bytes>

  datatype State = State(
    index: Index,              // the tree
    heap: Heap,                // reserved persistent memory, by address
    disk: Bytes,
    next: Id,                  // the next unused request
    rqsts: map<Id, Rqst>,      // every request so far
    pipe: Pipe,
    phase: Phase,
    ioBufsInUse: int,
    calls: map<Id, nat>,       // how often a request's callback ran
    returned: map<Id, nat>,    // how often it went back to its pool
    answers: map<Id, (Code, Bytes)>,  // what its callback was given
    clients: map<nat, Holding>,
    stored: map<Key, Bytes>,   // what clients put and did not remove
    wanted: map<Id, Bytes>     // what was stored under the key when the request was made
  )

  /** Client calls, in the pieces other threads can see. */
  datatype Call =
    | Reserve(w: nat, k: Key, size: nat, g: Grant, junk: Bytes)  // `Alloc`
    | Fill(w: nat, v: Bytes)                                     // the client writes its value
    | PutReserved(w: nat, room: bool)                            // `Put`, up to the ready queue
    | PutAgain(w: nat, k: Key, room: bool)                       // `Put` of a key that is there
    | RemoveFromMemory(w: nat, k: Key)                           // `Remove`, which found k in memory
    | Unlink(w: nat)                                             // the tree's `Remove` hides the key
    | Cancel(w: nat)                                             // and gives its memory back
    | AskGet(k: Key)                                             // requests to the pipeline
    | AskUpdate(k: Key)
    | AskRemove(k: Key)

  datatype Step =
    | Client(call: Call)
    | PollDequeue(n: nat)
    | PollProcess
    | EngineDequeue(n: nat)
    | EngineProcess(lba: nat, pad: Bytes)
    | Complete(i: nat, ok: bool, junk: Bytes)
    | FinDequeue(n: nat)
    | FinCancel
    | FinPoint(granted: bool)
    | FinProcess

  function Initial(disk: Bytes): (s: State) {
    State(map[], map[], disk, 0, map[], Pipe([], [], [], [], [], [], [], []), Idle, 0,
          map[], map[], map[], map[], map[], map[])
  }

  // ---- Client calls ----

  predicate Known(s: State, id: Id) {
    id in s.rqsts && id in s.calls && id in s.returned
  }

  /** The callback of this request has not run. */
  predicate Unanswered(calls: map<Id, nat>, id: Id) {
    id in calls && calls[id] == 0
  }

  predicate NoneOfKind(s: State, k: Key, op: Kind) {
    forall id :: id in s.rqsts && Unanswered(s.calls, id) && s.rqsts[id].key == k ==> s.rqsts[id].op != op
  }

  function Submit(s: State, op: Kind, k: Key, value: nat, size: nat): (s': State)
    requires k in s.stored
    ensures SameMemory(s, s') && s'.disk == s.disk && s'.ioBufsInUse == s.ioBufsInUse && s'.answers == s.answers
  {
    var id := s.next;
    s.(next := id + 1,
       rqsts := s.rqsts[id := Rqst(op, k, value, size, 0, [], false)],
       pipe := PushPoll(s.pipe, id),
       calls := s.calls[id := 0], returned := s.returned[id := 0],
       wanted := s.wanted[id := s.stored[k]])
  }

  /** Tree, memory and clients aside, nothing changed. */
  predicate SameRequests(s: State, s': State) {
    && s'.disk == s.disk && s'.next == s.next && s'.rqsts == s.rqsts && s'.pipe == s.pipe
    && s'.ioBufsInUse == s.ioBufsInUse && s'.calls == s.calls && s'.returned == s.returned
    && s'.answers == s.answers && s'.wanted == s.wanted
  }

  /** The other half: the tree, memory, the clients and what they stored. */
  predicate SameMemory(s: State, s': State) {
    && s'.index == s.index && s'.heap == s.heap && s'.phase == s.phase
    && s'.clients == s.clients && s'.stored == s.stored
  }

  /** Nobody is putting or removing k. */
  predicate NoneHolds(clients: map<nat, Holding>, k: Key) {
    forall w :: w in clients ==> clients[w].k != k
  }

  /** A reservation, refused, failed or granted; the memory granted holds anything. */
  function HasReserved(s: State, w: nat, k: Key, size: nat, g: Grant, junk: Bytes): (s': State)
    ensures SameRequests(s, s') && s'.phase == s.phase
  {
    var r := Alloc(s.index, k, size, g);
    if r.1.Reserved? then
      s.(index := r.0, heap := s.heap[r.1.addr := junk], clients := s.clients[w := Reserving(k, r.1.addr, junk)])
    else s.(index := r.0)
  }

  function HasFilled(s: State, w: nat, v: Bytes): (s': State)
    requires w in s.clients && s.clients[w].Reserving?
    ensures SameRequests(s, s') && s'.phase == s.phase
  {
    var h := s.clients[w];
    s.(heap := s.heap[h.addr := v], clients := s.clients[w := h.(bytes := v)])
  }

  /** With no room in the ready queue the client goes on to take the key out again. */
  function AfterPut(clients: map<nat, Holding>, w: nat, k: Key, room: bool): (m: map<nat, Holding>) {
    if room then clients - {w} else clients[w := Removing(k)]
  }

  function HasPut(s: State, w: nat, room: bool): (s': State)
    requires w in s.clients && s.clients[w].Reserving?
    ensures SameRequests(s, s') && s'.phase == s.phase
  {
    var h := s.clients[w];
    s.(index := Put(s.index, h.k).0, stored := s.stored[h.k := h.bytes], clients := AfterPut(s.clients, w, h.k, room))
  }

  function AfterUnlink(clients: map<nat, Holding>, w: nat, k: Key, inMemory: bool): (m: map<nat, Holding>) {
    if inMemory then clients[w := Cancelling(k)] else clients - {w}
  }

  /** Memory that was reserved is given back in a later step. */
  function HasUnlinked(s: State, w: nat): (s': State)
    requires w in s.clients && s.clients[w].Removing?
    ensures SameRequests(s, s') && s'.phase == s.phase
  {
    var k := s.clients[w].k;
    var inMemory := k in s.index && ReservedNotPublished(s.index[k]);
    s.(index := Remove(s.index, k).0, stored := s.stored - {k},
       clients := AfterUnlink(s.clients, w, k, inMemory))
  }

  function HasCancelled(s: State, w: nat): (s': State)
    requires w in s.clients && s.clients[w].k in s.index && s.index[s.clients[w].k].ptr.Memory?
    ensures SameRequests(s, s') && s'.phase == s.phase
  {
    s.(heap := s.heap - {s.index[s.clients[w].k].ptr.addr}, clients := s.clients - {w})
  }

  /** The callback of this request, if of any, ran once more. */
  predicate OnlyAnswers(s: State, s': State, id: Id)
    requires id in s.calls
  {
    s'.calls == s.calls || s'.calls == s.calls[id := s.calls[id] + 1]
  }

  /** The callback runs and the request goes back to its pool. */
  function Finish(s: State, id: Id, code: Code, bytes: Bytes): (s': State)
    requires id in s.calls && id in s.returned
    ensures SameMemory(s, s') && s'.disk == s.disk && s'.ioBufsInUse == s.ioBufsInUse
    ensures s'.next == s.next && s'.rqsts == s.rqsts && s'.pipe == s.pipe && s'.wanted == s.wanted
    ensures OnlyAnswers(s, s', id)
  {
    s.(calls := s.calls[id := s.calls[id] + 1], returned := s.returned[id := s.returned[id] + 1],
       answers := s.answers[id := (code, bytes)])
  }

  // ---- OffloadPoller ----

  /** `spdkDev->read/write/remove` of a routed task: into the engine's ring, or back to the
      client when the ring is full. */
  function ToEngine(c: Config, s: State, id: Id): (s': State)
    requires id in s.calls && id in s.returned
    ensures SameMemory(s, s') && s'.disk == s.disk && s'.ioBufsInUse == s.ioBufsInUse
    ensures s'.next == s.next && s'.rqsts == s.rqsts && s'.wanted == s.wanted
    ensures s'.pipe == s.pipe || s'.pipe == PushEngine(s.pipe, id)
    ensures OnlyAnswers(s, s', id)
  {
    if |s.pipe.engineRing| < c.ring then s.(pipe := PushEngine(s.pipe, id))
    else Finish(s, id, UNKNOWN_ERROR, [])
  }

  /** Reads and removes look the key up again: not there is an error, in memory is not
      found. Some code ends the request. */
  function PollVerdict(s: State): (v: Option<Code>)
    requires s.pipe.pollBatch != [] && s.pipe.pollBatch[0] in s.rqsts
  {
    var r := s.rqsts[s.pipe.pollBatch[0]];
    var found := Get(s.index, r.key);
    if r.op == UPDATE then None
    else if !found.Found? then Some(UNKNOWN_ERROR)
    else if found.location == PMEM then Some(KEY_NOT_FOUND)
    else None
  }

  /** The request as the poller hands it on: a read learns its size. */
  function RoutedRqst(index: Index, r: Rqst): (r': Rqst)
    ensures r'.op == r.op && r'.key == r.key && r'.value == r.value
  {
    if r.op == GET && Get(index, r.key).Found? then r.(size := Get(index, r.key).size) else r
  }

  /** The device task of the head of the batch is built. */
  function PollEffect(s: State): (s': State)
    requires s.pipe.pollBatch != [] && s.pipe.pollBatch[0] in s.rqsts
    ensures SameMemory(s, s') && s'.disk == s.disk && s'.ioBufsInUse == s.ioBufsInUse
    ensures s'.pipe == PopPoll(s.pipe) && s'.next == s.next && s'.wanted == s.wanted
    ensures s'.calls == s.calls && s'.returned == s.returned && s'.answers == s.answers
  {
    var id := s.pipe.pollBatch[0];
    s.(pipe := PopPoll(s.pipe), rqsts := s.rqsts[id := RoutedRqst(s.index, s.rqsts[id])])
  }

  function PollOne(c: Config, s: State): (s': State)
    requires s.pipe.pollBatch != [] && Known(s, s.pipe.pollBatch[0])
    ensures SameMemory(s, s') && s'.disk == s.disk && s'.ioBufsInUse == s.ioBufsInUse
    ensures s'.rqsts == PollEffect(s).rqsts && s'.next == s.next && s'.wanted == s.wanted
    ensures s'.pipe == PopPoll(s.pipe) || s'.pipe == PushEngine(PopPoll(s.pipe), s.pipe.pollBatch[0])
    ensures OnlyAnswers(s, s', s.pipe.pollBatch[0])
  {
    Route(c, PollEffect(s), s.pipe.pollBatch[0], PollVerdict(s))
  }

  /** Back to the client, or on to the engine. */
  function Route(c: Config, s: State, id: Id, v: Option<Code>): (s': State)
    requires id in s.calls && id in s.returned
    ensures SameMemory(s, s') && s'.disk == s.disk && s'.ioBufsInUse == s.ioBufsInUse
    ensures s'.next == s.next && s'.rqsts == s.rqsts && s'.wanted == s.wanted
    ensures s'.pipe == s.pipe || s'.pipe == PushEngine(s.pipe, id)
    ensures OnlyAnswers(s, s', id)
  {
    if v.Some? then Finish(s, id, v.value, []) else ToEngine(c, s, id)
  }

  // ---- SpdkIoEngine and SpdkBdev ----

  /** One buffer, or none. */
  function Weight(b: bool): (n: nat) {
    if b then 1 else 0
  }

  function CanQueue(c: Config, s: State): (n: int) {
    if c.maxIoBufs > s.ioBufsInUse then c.maxIoBufs - s.ioBufsInUse else 0
  }

  /** What submitting r dereferences is there. */
  predicate Submittable(s: State, r: Rqst) {
    && (r.op == GET ==> r.key in s.index && s.index[r.key].ptr.Device?)
    && (r.op == UPDATE ==> r.value in s.heap)
  }

  /** The device task of r. `freeLba` comes from the allocator; the rest of a write buffer is
      whatever was in it. */
  function BuiltRqst(s: State, r: Rqst, freeLba: nat, pad: Bytes): (r': Rqst)
    requires Submittable(s, r)
    ensures r'.op == r.op && r'.key == r.key && r'.value == r.value && r'.size == r.size
  {
    match r.op
    case GET => r.(lba := s.index[r.key].ptr.dev.lba)
    case UPDATE => r.(lba := freeLba, buff := s.heap[r.value] + pad)
    case REMOVE => r.(result := true)
  }

  /** What the engine does to the request at the head of its batch before handing it on. */
  function EngineEffect(s: State, freeLba: nat, pad: Bytes): (s': State)
    requires s.pipe.engineBatch != [] && s.pipe.engineBatch[0] in s.rqsts
    requires Submittable(s, s.rqsts[s.pipe.engineBatch[0]])
    ensures SameMemory(s, s') && s'.disk == s.disk
    ensures s'.pipe == PopEngine(s.pipe) && s'.next == s.next && s'.wanted == s.wanted
    ensures s'.calls == s.calls && s'.returned == s.returned && s'.answers == s.answers
  {
    var id := s.pipe.engineBatch[0];
    s.(pipe := PopEngine(s.pipe), rqsts := s.rqsts[id := BuiltRqst(s, s.rqsts[id], freeLba, pad)],
       ioBufsInUse := s.ioBufsInUse + Weight(s.rqsts[id].op != REMOVE))
  }

  /** A removal needs no transfer: into the finalizer's ring, or back to the client. */
  function ToFinalizer(c: Config, s: State, id: Id): (s': State)
    requires id in s.calls && id in s.returned
    ensures SameMemory(s, s') && s'.disk == s.disk && s'.ioBufsInUse == s.ioBufsInUse
    ensures s'.next == s.next && s'.rqsts == s.rqsts && s'.wanted == s.wanted
    ensures s'.pipe == s.pipe || s'.pipe == PushFin(s.pipe, id)
    ensures OnlyAnswers(s, s', id)
  {
    if |s.pipe.finRing| < c.ring then s.(pipe := PushFin(s.pipe, id)) else Finish(s, id, UNKNOWN_ERROR, [])
  }

  function EngineOne(c: Config, s: State, freeLba: nat, pad: Bytes): (s': State)
    requires s.pipe.engineBatch != [] && Known(s, s.pipe.engineBatch[0])
    requires Submittable(s, s.rqsts[s.pipe.engineBatch[0]])
    ensures SameMemory(s, s') && s'.disk == s.disk && s'.ioBufsInUse == EngineEffect(s, freeLba, pad).ioBufsInUse
    ensures s'.rqsts == EngineEffect(s, freeLba, pad).rqsts && s'.next == s.next && s'.wanted == s.wanted
    ensures || s'.pipe == PopEngine(s.pipe) || s'.pipe == PushDevice(PopEngine(s.pipe), s.pipe.engineBatch[0])
            || s'.pipe == PushFin(PopEngine(s.pipe), s.pipe.engineBatch[0])
    ensures OnlyAnswers(s, s', s.pipe.engineBatch[0])
  {
    var id := s.pipe.engineBatch[0];
    var s1 := EngineEffect(s, freeLba, pad);
    if s.rqsts[id].op == REMOVE then ToFinalizer(c, s1, id) else s1.(pipe := PushDevice(s1.pipe, id))
  }

  function ReadDisk(disk: Bytes, e: Extent): (b: Bytes)
    requires Inside(e, |disk|)
    ensures |b| == e.length
  {
    disk[e.start..e.start + e.length]
  }

  function WriteDisk(disk: Bytes, e: Extent, data: Bytes): (d: Bytes)
    requires Inside(e, |disk|) && |data| == e.length
    ensures |d| == |disk|
  {
    disk[..e.start] + data + disk[e.start + e.length..]
  }

  /** The transfer of r, or the junk it leaves when it fails, fits the device and its buffer. */
  predicate TransferFits(c: Config, disk: Bytes, r: Rqst, junk: Bytes) {
    var e := c.extent(r.lba, r.size);
    Inside(e, |disk|) && |junk| == e.length && (r.op == UPDATE ==> |r.buff| == e.length)
  }

  function CompletedDisk(c: Config, disk: Bytes, r: Rqst, ok: bool, junk: Bytes): (d: Bytes)
    requires TransferFits(c, disk, r, junk)
    ensures |d| == |disk|
  {
    if r.op == UPDATE then WriteDisk(disk, c.extent(r.lba, r.size), if ok then r.buff else junk) else disk
  }

  function CompletedRqst(c: Config, disk: Bytes, r: Rqst, ok: bool, junk: Bytes): (r': Rqst)
    requires TransferFits(c, disk, r, junk)
    ensures r'.op == r.op && r'.key == r.key && r'.value == r.value && r'.size == r.size
  {
    if r.op == UPDATE then r.(result := ok)
    else r.(result := ok, buff := if ok then ReadDisk(disk, c.extent(r.lba, r.size)) else junk)
  }

  /** The device did its work on request i of those submitted; `writeComplete` gives its
      buffer back. A failed transfer leaves anything behind. */
  function CompleteEffect(c: Config, s: State, i: nat, ok: bool, junk: Bytes): (s': State)
    requires i < |s.pipe.device| && s.pipe.device[i] in s.rqsts
    requires TransferFits(c, s.disk, s.rqsts[s.pipe.device[i]], junk)
    ensures SameMemory(s, s') && |s'.disk| == |s.disk|
    ensures s'.pipe == PopDevice(s.pipe, i) && s'.next == s.next && s'.wanted == s.wanted
    ensures s'.calls == s.calls && s'.returned == s.returned && s'.answers == s.answers
  {
    var id := s.pipe.device[i];
    var r := s.rqsts[id];
    s.(pipe := PopDevice(s.pipe, i),
       ioBufsInUse := s.ioBufsInUse - Weight(r.op == UPDATE),
       disk := CompletedDisk(c, s.disk, r, ok, junk),
       rqsts := s.rqsts[id := CompletedRqst(c, s.disk, r, ok, junk)])
  }

  /** Completions do not look at whether the finalizer's ring took the request. */
  function HandOn(c: Config, p: Pipe, id: Id): (p': Pipe)
    ensures p' == PushFin(p, id) || p' == PushLost(p, id)
  {
    if |p.finRing| < c.ring then PushFin(p, id) else PushLost(p, id)
  }

  function CompleteOne(c: Config, s: State, i: nat, ok: bool, junk: Bytes): (s': State)
    requires i < |s.pipe.device| && s.pipe.device[i] in s.rqsts
    requires TransferFits(c, s.disk, s.rqsts[s.pipe.device[i]], junk)
    ensures SameMemory(s, s') && |s'.disk| == |s.disk|
    ensures s' == CompleteEffect(c, s, i, ok, junk).(pipe := s'.pipe)
    ensures s'.pipe == HandOn(c, PopDevice(s.pipe, i), s.pipe.device[i])
  {
    var s1 := CompleteEffect(c, s, i, ok, junk);
    s1.(pipe := HandOn(c, s1.pipe, s.pipe.device[i]))
  }

  // ---- FinalizePoller ----

  /** The tree afterwards: a written value is published, a removed key taken out. */
  function FinIndex(c: Config, index: Index, r: Rqst): (m: Index) {
    if r.op == UPDATE && r.result then Publish(index, r.key, DeviceAddr(r.lba, c.busAddr)).0
    else if r.op == REMOVE && r.result then Remove(index, r.key).0
    else index
  }

  /** The head of the batch is a value that was written and whose key is in the tree. */
  predicate ToPublish(s: State) {
    s.pipe.finBatch != [] && s.pipe.finBatch[0] in s.rqsts &&
    var r := s.rqsts[s.pipe.finBatch[0]]; r.op == UPDATE && r.result && r.key in s.index
  }

  /** Publishing, first half: the memory of the value is given back. */
  function FinCancelled(s: State): (s': State)
    requires ToPublish(s)
    ensures SameRequests(s, s') && s'.index == s.index && s'.stored == s.stored && s'.clients == s.clients
  {
    var r := s.rqsts[s.pipe.finBatch[0]];
    s.(heap := s.heap - {r.value}, phase := Cancelled(r.key))
  }

  /** Publishing, second half: the union points at the device address; Null if there was no
      memory for one. */
  function FinPointed(c: Config, s: State, granted: bool): (s': State)
    requires ToPublish(s)
    ensures SameRequests(s, s') && s'.heap == s.heap && s'.stored == s.stored && s'.clients == s.clients
  {
    var r := s.rqsts[s.pipe.finBatch[0]];
    s.(index := Point(s.index, r.key, if granted then Device(DeviceAddr(r.lba, c.busAddr)) else Null),
       phase := Pointed(r.key))
  }

  /** What finalizing the head of the batch does, short of its callback. The location of a
      published value is the last thing to change. */
  function FinEffect(c: Config, s: State): (s': State)
    requires s.pipe.finBatch != [] && s.pipe.finBatch[0] in s.rqsts
    ensures s'.pipe == PopFin(s.pipe) && s'.rqsts == s.rqsts && s'.next == s.next && s'.wanted == s.wanted
    ensures s'.calls == s.calls && s'.returned == s.returned && s'.answers == s.answers
    ensures s'.heap == s.heap && s'.disk == s.disk && s'.clients == s.clients && s'.phase == Idle
  {
    var r := s.rqsts[s.pipe.finBatch[0]];
    s.(pipe := PopFin(s.pipe), phase := Idle,
       ioBufsInUse := s.ioBufsInUse - Weight(r.op == GET),
       index := FinIndex(c, s.index, r),
       stored := if r.op == REMOVE && r.result then s.stored - {r.key} else s.stored)
  }

  /** What the callback is told. */
  function FinAnswer(c: Config, s: State): (a: (Code, Bytes))
    requires s.pipe.finBatch != [] && s.pipe.finBatch[0] in s.rqsts
    requires var r := s.rqsts[s.pipe.finBatch[0]]; r.op == GET && r.result ==> r.size <= |r.buff|
  {
    var r := s.rqsts[s.pipe.finBatch[0]];
    if !r.result then (UNKNOWN_ERROR, [])
    else if r.op == GET then (OK, r.buff[..r.size])
    else if r.op == UPDATE && Publish(s.index, r.key, DeviceAddr(r.lba, c.busAddr)).1 != Ok then (UNKNOWN_ERROR, [])
    else (OK, [])
  }

  function FinOne(c: Config, s: State): (s': State)
    requires s.pipe.finBatch != [] && Known(s, s.pipe.finBatch[0])
    requires var r := s.rqsts[s.pipe.finBatch[0]]; r.op == GET && r.result ==> r.size <= |r.buff|
    ensures s'.pipe == PopFin(s.pipe) && s'.rqsts == s.rqsts && s'.next == s.next && s'.wanted == s.wanted
    ensures s'.heap == s.heap && s'.disk == s.disk && s'.clients == s.clients && s'.phase == Idle
    ensures s'.index == FinEffect(c, s).index && s'.stored == FinEffect(c, s).stored
    ensures s'.ioBufsInUse == FinEffect(c, s).ioBufsInUse
  {
    Finish(FinEffect(c, s), s.pipe.finBatch[0], FinAnswer(c, s).0, FinAnswer(c, s).1)
  }

  // ---- The step relation ----

  /** Who owns a part of the device: a key on disk, or a write that is under way or
      written and waiting to be published. */
  datatype Owner = OfKey(k: Key) | OfRqst(id: Id)

  predicate Live(index: Index, stored: map<Key, Bytes>, rqsts: map<Id, Rqst>, p: Pipe, o: Owner) {
    match o
    case OfKey(k) => k in stored && k in index && index[k].location == DISK && index[k].ptr.Device?
    case OfRqst(id) =>
      && id in rqsts && rqsts[id].op == UPDATE
      && (id in p.device || ((id in p.finRing || id in p.finBatch) && rqsts[id].result))
  }

  function ExtentOf(c: Config, index: Index, rqsts: map<Id, Rqst>, o: Owner): (e: Extent)
    requires o.OfKey? ==> o.k in index && index[o.k].ptr.Device?
    requires o.OfRqst? ==> o.id in rqsts
  {
    match o
    case OfKey(k) => c.extent(index[k].ptr.dev.lba, index[k].size)
    case OfRqst(id) => c.extent(rqsts[id].lba, rqsts[id].size)
  }

  /** The allocator's contract: a free LBA's extent is on the device and overlaps nothing
      that is live. */
  ghost predicate FreeExtent(c: Config, s: State, e: Extent) {
    && Inside(e, |s.disk|)
    && forall o: Owner :: Live(s.index, s.stored, s.rqsts, s.pipe, o) ==>
                            Disjoint(e, ExtentOf(c, s.index, s.rqsts, o))
  }

  /** What the code tests before a client's step; an allocator grants memory nobody has. */
  predicate CallPossible(c: Config, s: State, call: Call) {
    match call
    case Reserve(w, k, size, g, junk) => w !in s.clients && (g.Granted? ==> g.addr !in s.heap && |junk| == size)
    case Fill(w, v) => w in s.clients && s.clients[w].Reserving? && |v| == |s.clients[w].bytes|
    case PutReserved(w, room) => w in s.clients && s.clients[w].Reserving?
    case PutAgain(w, k, room) => w !in s.clients && k in s.index
    case RemoveFromMemory(w, k) => w !in s.clients && Get(s.index, k).Found? && Get(s.index, k).location == PMEM
    case Unlink(w) => w in s.clients && s.clients[w].Removing?
    case Cancel(w) => w in s.clients && s.clients[w].Cancelling?
    case AskGet(k) =>
      && |s.pipe.pollRing| < c.ring && k in s.stored
      && Get(s.index, k).Found? && Get(s.index, k).location == DISK
    case AskUpdate(k) =>
      && |s.pipe.pollRing| < c.ring && k in s.stored
      && Get(s.index, k).Found? && Get(s.index, k).location == PMEM && s.index[k].ptr.Memory?
    case AskRemove(k) =>
      && |s.pipe.pollRing| < c.ring && k in s.stored
      && Get(s.index, k).Found? && Get(s.index, k).location == DISK
  }

  /** What the code tests before a step, with the allocator's contract for a write. */
  ghost predicate Possible(c: Config, s: State, step: Step) {
    match step
    case Client(call) => CallPossible(c, s, call)
    case PollDequeue(n) => s.pipe.pollBatch == [] && n <= |s.pipe.pollRing| && n <= 1024
    case PollProcess => s.pipe.pollBatch != []
    case EngineDequeue(n) =>
      s.pipe.engineBatch == [] && n <= |s.pipe.engineRing| && n <= 1024 && n <= CanQueue(c, s)
    case EngineProcess(lba, pad) =>
      && s.pipe.engineBatch != [] && s.pipe.engineBatch[0] in s.rqsts
      && (s.rqsts[s.pipe.engineBatch[0]].op == UPDATE ==>
            var e := c.extent(lba, s.rqsts[s.pipe.engineBatch[0]].size);
            FreeExtent(c, s, e) && s.rqsts[s.pipe.engineBatch[0]].size + |pad| == e.length)
    case Complete(i, ok, junk) =>
      && i < |s.pipe.device| && s.pipe.device[i] in s.rqsts
      && |junk| == c.extent(s.rqsts[s.pipe.device[i]].lba, s.rqsts[s.pipe.device[i]].size).length
    case FinDequeue(n) => s.pipe.finBatch == [] && n <= |s.pipe.finRing| && n <= 1024
    case FinCancel => s.phase.Idle? && ToPublish(s)
    case FinPoint(_) => s.phase.Cancelled? && ToPublish(s)
    case FinProcess => s.pipe.finBatch != [] && (ToPublish(s) ==> s.phase.Pointed?)
  }

  predicate NothingFor(s: State, k: Key) {
    NoneHolds(s.clients, k) && NoneOfKind(s, k, GET) && NoneOfKind(s, k, UPDATE) && NoneOfKind(s, k, REMOVE)
  }

  /** What the clients must see to: a key that is being put or removed gets no other call, is
      offloaded once at a time, and is not removed or put again while requests for it are
      under way. */
  predicate CallCareful(s: State, call: Call) {
    match call
    case Reserve(_, k, _, _, _) => NoneHolds(s.clients, k)
    case PutAgain(_, k, _) => k in s.stored && k in s.index && s.index[k].location == PMEM && NothingFor(s, k)
    case RemoveFromMemory(_, k) => NothingFor(s, k)
    case AskGet(k) => NoneHolds(s.clients, k) && NoneOfKind(s, k, REMOVE)
    case AskUpdate(k) => NoneHolds(s.clients, k) && NoneOfKind(s, k, UPDATE) && NoneOfKind(s, k, REMOVE)
    case AskRemove(k) => NothingFor(s, k)
    case _ => true
  }

  /** The clients are careful, and there is memory for a device address. */
  predicate Careful(s: State, step: Step) {
    match step
    case Client(call) => CallCareful(s, call)
    case FinPoint(granted) => granted
    case _ => true
  }

  ghost predicate Enabled(c: Config, s: State, step: Step) {
    Possible(c, s, step) && Careful(s, step)
  }

  /** Nothing a step dereferences is missing. */
  ghost predicate Defined(c: Config, s: State, step: Step)
    requires Possible(c, s, step)
  {
    match step
    case Client(call) => CallDefined(s, call)
    case PollProcess => Known(s, s.pipe.pollBatch[0])
    case EngineProcess(_, _) =>
      var id := s.pipe.engineBatch[0];
      Known(s, id) && Submittable(s, s.rqsts[id])
    case Complete(i, _, _) =>
      var r := s.rqsts[s.pipe.device[i]];
      Inside(c.extent(r.lba, r.size), |s.disk|) && (r.op == UPDATE ==> |r.buff| == c.extent(r.lba, r.size).length)
    case FinProcess =>
      var id := s.pipe.finBatch[0];
      && Known(s, id)
      && (s.rqsts[id].op == GET && s.rqsts[id].result ==> s.rqsts[id].size <= |s.rqsts[id].buff|)
      && (ToPublish(s) ==> s.index[s.rqsts[id].key].ptr.Device?)
    case _ => true
  }

  predicate CallDefined(s: State, call: Call) {
    match call
    case Fill(w, _) => w in s.clients && s.clients[w].Reserving? && s.clients[w].addr in s.heap
    case Cancel(w) => w in s.clients && s.clients[w].k in s.index && s.index[s.clients[w].k].ptr.Memory?
    case _ => true
  }

  function AfterCall(c: Config, s: State, call: Call): (s': State)
    requires CallPossible(c, s, call) && CallDefined(s, call)
  {
    match call
    case Reserve(w, k, size, g, junk) => HasReserved(s, w, k, size, g, junk)
    case Fill(w, v) => HasFilled(s, w, v)
    case PutReserved(w, room) => HasPut(s, w, room)
    case PutAgain(w, k, room) => s.(index := Put(s.index, k).0, clients := AfterPut(s.clients, w, k, room))
    case RemoveFromMemory(w, k) => s.(clients := s.clients[w := Removing(k)])
    case Unlink(w) => HasUnlinked(s, w)
    case Cancel(w) => HasCancelled(s, w)
    case AskGet(k) => Submit(s, GET, k, 0, 0)
    case AskUpdate(k) => Submit(s, UPDATE, k, s.index[k].ptr.addr, s.index[k].size)
    case AskRemove(k) => Submit(s, REMOVE, k, 0, 0)
  }

  predicate Asks(call: Call) {
    call.AskGet? || call.AskUpdate? || call.AskRemove?
  }

  /** Calls that ask nothing of the pipeline leave it alone. */
  lemma CallFrame(c: Config, s: State, call: Call)
    requires CallPossible(c, s, call) && CallDefined(s, call) && !Asks(call)
    ensures SameRequests(s, AfterCall(c, s, call)) && AfterCall(c, s, call).phase == s.phase
  {
  }

  ghost function Next(c: Config, s: State, step: Step): (s': State)
    requires Possible(c, s, step) && Defined(c, s, step)
  {
    match step
    case Client(call) => AfterCall(c, s, call)
    case PollDequeue(n) => s.(pipe := s.pipe.(pollBatch := s.pipe.pollRing[..n], pollRing := s.pipe.pollRing[n..]))
    case PollProcess => PollOne(c, s)
    case EngineDequeue(n) => s.(pipe := s.pipe.(engineBatch := s.pipe.engineRing[..n],
                                                engineRing := s.pipe.engineRing[n..]))
    case EngineProcess(lba, pad) => EngineOne(c, s, lba, pad)
    case Complete(i, ok, junk) => CompleteOne(c, s, i, ok, junk)
    case FinDequeue(n) => s.(pipe := s.pipe.(finBatch := s.pipe.finRing[..n], finRing := s.pipe.finRing[n..]))
    case FinCancel => FinCancelled(s)
    case FinPoint(granted) => FinPointed(c, s, granted)
    case FinProcess => FinOne(c, s)
  }

  /** Poller, engine and device leave tree and memory alone. */
  lemma QuietMemory(c: Config, s: State, step: Step)
    requires Possible(c, s, step) && Defined(c, s, step)
    requires !step.Client? && !step.FinCancel? && !step.FinPoint? && !step.FinProcess?
    ensures SameMemory(s, Next(c, s, step))
  {
  }

  /** A run: each enabled step leads to the next state. A step that would dereference
      something missing could lead anywhere. */
  ghost predicate Run(c: Config, disk: Bytes, states: seq<State>, steps: seq<Step>) {
    && |states| == |steps| + 1 && states[0] == Initial(disk)
    && forall i :: 0 <= i < |steps| ==>
         && Enabled(c, states[i], steps[i])
         && (Defined(c, states[i], steps[i]) ==> states[i + 1] == Next(c, states[i], steps[i]))
  }
}
