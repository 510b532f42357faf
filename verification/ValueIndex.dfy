/** What the tree stores per key, as a map (lib/pmem/ARTree.cpp, lib/pmem/ARTree.h):
    the value wrapper with its persistent location, its volatile location and the union
    of a memory pointer and a device address. */
module ValueIndex {
  import opened Basics

  type Byte = b: int | 0 <= b < 256
  type Bytes = seq<Byte>
  type Key = k: seq<Byte> | |k| == 8 witness [0, 0, 0, 0, 0, 0, 0, 0]

  datatype Location = EMPTY | PMEM | DISK

  datatype DeviceAddr = DeviceAddr(lba: nat, busAddr: nat)

  /** The union `locationPtr`. */
  datatype Pointer = Null | Memory(addr: nat) | Device(dev: DeviceAddr)

  datatype Wrapper = Wrapper(location: Location, ptr: Pointer, size: nat, locationVolatile: Location)

  /** A wrapper as a first reservation leaves it. */
  const NEW_WRAPPER: Wrapper := Wrapper(EMPTY, Null, 0, EMPTY)

  type Index = map<Key, Wrapper>

  /** What the allocator grants one `AllocValueForKey`: it may run out while making
      nodes or the wrapper, or when reserving the value itself. */
  datatype Grant = NoWrapper | NoValue | Granted(addr: nat)

  datatype Answer =
    | Found(location: Location, ptr: Pointer, size: nat)
    | Reserved(addr: nat)
    | Ok
    | KeyNotFound
    | AllocationError
    | NullDereference  // the process ends

  /** `_isLocationReservedNotPublished`. */
  predicate ReservedNotPublished(w: Wrapper) {
    w.location == PMEM && w.locationVolatile != EMPTY
  }

  function Get(m: Index, k: Key): (a: Answer) {
    if k !in m then KeyNotFound
    else if ReservedNotPublished(m[k]) || m[k].location == DISK then Found(m[k].location, m[k].ptr, m[k].size)
    else KeyNotFound
  }

  function Alloc(m: Index, k: Key, size: nat, g: Grant): (r: (Index, Answer)) {
    if k !in m && g.NoWrapper? then (m, AllocationError)
    else
      var w := if k in m then m[k] else NEW_WRAPPER;
      if w.location != EMPTY then (m, AllocationError)
      else if g.Granted? then (m[k := w.(ptr := Memory(g.addr), size := size)], Reserved(g.addr))
      else (m[k := w.(ptr := Null)], AllocationError)
  }

  function Put(m: Index, k: Key): (r: (Index, Answer)) {
    if k !in m then (m, KeyNotFound)
    else (m[k := m[k].(location := PMEM, locationVolatile := PMEM)], Ok)
  }

  function Remove(m: Index, k: Key): (r: (Index, Answer)) {
    if k !in m || m[k].location == EMPTY then (m, KeyNotFound)
    else (m[k := m[k].(location := EMPTY)], Ok)
  }

  /** The union is overwritten, while the location stays. */
  function Point(m: Index, k: Key, p: Pointer): (r: Index)
    requires k in m
  {
    m[k := m[k].(ptr := p)]
  }

  /** `AllocateAndUpdateValueWrapper`: the value moved to the device. */
  function Publish(m: Index, k: Key, dev: DeviceAddr): (r: (Index, Answer)) {
    if k !in m then (m, AllocationError)
    else (m[k := m[k].(ptr := Device(dev), location := DISK)], Ok)
  }

  /** Closing and reopening the pool resets every volatile location. */
  function Restart(m: Index): (r: Index) {
    map k | k in m :: m[k].(locationVolatile := EMPTY)
  }

  // ---- Runs ----

  datatype Op =
    | DoAlloc(k: Key, size: nat, g: Grant)
    | DoPut(k: Key)
    | DoRemove(k: Key)
    | DoPublish(k: Key, dev: DeviceAddr)
    | DoRestart

  function Step(m: Index, op: Op): (r: (Index, Answer)) {
    match op
    case DoAlloc(k, size, g) => Alloc(m, k, size, g)
    case DoPut(k) => Put(m, k)
    case DoRemove(k) => Remove(m, k)
    case DoPublish(k, dev) => Publish(m, k, dev)
    case DoRestart => (Restart(m), Ok)
  }

  function Run(ops: seq<Op>): (m: Index) {
    if ops == [] then map[] else Step(Run(ops[..|ops| - 1]), ops[|ops| - 1]).0
  }

  function AnswerAt(ops: seq<Op>, i: nat): (a: Answer)
    requires i < |ops|
  {
    Step(Run(ops[..i]), ops[i]).1
  }

  // ---- Visibility, read off the history backwards ----

  /** Some reservation for k got as far as a wrapper. */
  predicate EverReserved(ops: seq<Op>, k: Key) {
    ops != [] &&
    var last := ops[|ops| - 1];
    (last.DoAlloc? && last.k == k && !last.g.NoWrapper?) || EverReserved(ops[..|ops| - 1], k)
  }

  datatype Status = Invisible | InMemory | OnDisk(dev: DeviceAddr)

  /** Whether k can be read after `ops`, and from where: its last publish, put or
      remove decides, except that puts before a restart are forgotten. */
  ghost function StatusOf(ops: seq<Op>, k: Key, restarted: bool): Status {
    if ops == [] then Invisible
    else
      var before, last := ops[..|ops| - 1], ops[|ops| - 1];
      match last
      case DoPublish(k', dev) =>
        if k' != k then StatusOf(before, k, restarted)
        else if EverReserved(before, k) then OnDisk(dev) else Invisible
      case DoPut(k') =>
        if k' != k then StatusOf(before, k, restarted)
        else if EverReserved(before, k) && !restarted then InMemory else Invisible
      case DoRemove(k') => if k' != k then StatusOf(before, k, restarted) else Invisible
      case DoAlloc(_, _, _) => StatusOf(before, k, restarted)
      case DoRestart => StatusOf(before, k, true)
  }

  lemma {:induction false} WrapperIffReserved(ops: seq<Op>, k: Key)
    ensures k in Run(ops) <==> EverReserved(ops, k)
  {
    if ops != [] {
      WrapperIffReserved(ops[..|ops| - 1], k);
    }
  }

  /** The visible status of a wrapper, now or (restarted) with the volatile half gone. */
  ghost predicate Shows(m: Index, k: Key, restarted: bool, s: Status) {
    match s
    case Invisible => k in m ==> m[k].location != DISK && (restarted || !ReservedNotPublished(m[k]))
    case InMemory => k in m && ReservedNotPublished(m[k]) && !restarted
    case OnDisk(dev) => k in m && m[k].location == DISK && m[k].ptr == Device(dev)
  }

  lemma {:induction false} HistoryDecides(ops: seq<Op>, k: Key, restarted: bool)
    ensures Shows(Run(ops), k, restarted, StatusOf(ops, k, restarted))
  {
    if ops != [] {
      var before, last := ops[..|ops| - 1], ops[|ops| - 1];
      HistoryDecides(before, k, restarted || last.DoRestart?);
      WrapperIffReserved(before, k);
    }
  }

  /** Over every run, restarts included: a Get answers what the key's last publish, put
      or remove left, with puts before the last restart forgotten. */
  lemma GetMatchesHistory(ops: seq<Op>, k: Key)
    ensures match StatusOf(ops, k, false)
            case Invisible => Get(Run(ops), k) == KeyNotFound
            case InMemory => Get(Run(ops), k).Found? && Get(Run(ops), k).location == PMEM
            case OnDisk(dev) => Get(Run(ops), k).Found? && Get(Run(ops), k).location == DISK
                                && Get(Run(ops), k).ptr == Device(dev)
  {
    HistoryDecides(ops, k, false);
  }

  /** After a restart a Get succeeds exactly for the keys last published to disk, with
      the address published and the size it had before. */
  lemma GetAfterRestart(ops: seq<Op>, k: Key)
    ensures var s := StatusOf(ops, k, true);
            var now := Get(Restart(Run(ops)), k);
            && (now.Found? <==> s.OnDisk?)
            && (s.OnDisk? ==> now == Get(Run(ops), k) && now.location == DISK && now.ptr == Device(s.dev))
            && (!s.OnDisk? ==> now == KeyNotFound)
  {
    HistoryDecides(ops, k, true);
  }

  // ---- Whose memory a put exposes ----

  /** The reservation a put of k would expose: the last one granted to k in this
      session and neither published nor removed since. */
  ghost function LiveReservation(ops: seq<Op>, k: Key): Option<nat> {
    if ops == [] then None
    else
      var n := |ops| - 1;
      var before := ops[..n];
      match ops[n]
      case DoRestart => None
      case DoAlloc(k', _, _) =>
        if k' != k then LiveReservation(before, k)
        else if AnswerAt(ops, n).Reserved? then Some(AnswerAt(ops, n).addr)
        else if k in Run(before) && Run(before)[k].location != EMPTY then LiveReservation(before, k)
        else None
      case DoPublish(k', _) => if k' == k then None else LiveReservation(before, k)
      case DoRemove(k') => if k' == k && AnswerAt(ops, n).Ok? then None else LiveReservation(before, k)
      case DoPut(_) => LiveReservation(before, k)
  }

  lemma {:induction false} LiveReservationIsPointer(ops: seq<Op>, k: Key)
    ensures LiveReservation(ops, k).Some? ==>
              k in Run(ops) && Run(ops)[k].ptr == Memory(LiveReservation(ops, k).value)
  {
    if ops != [] {
      LiveReservationIsPointer(ops[..|ops| - 1], k);
    }
  }

  /** Puts that follow the protocol: the key holds a live reservation. */
  ghost predicate Disciplined(ops: seq<Op>) {
    forall i :: 0 <= i < |ops| && ops[i].DoPut? ==> LiveReservation(ops[..i], ops[i].k).Some?
  }

  lemma {:induction false} VisibleMemoryIsLive(ops: seq<Op>, k: Key)
    requires Disciplined(ops)
    ensures k in Run(ops) && ReservedNotPublished(Run(ops)[k]) ==> LiveReservation(ops, k).Some?
  {
    if ops != [] {
      var n := |ops| - 1;
      var before := ops[..n];
      assert forall i :: 0 <= i <= n ==> before[..i] == ops[..i];
      VisibleMemoryIsLive(before, k);
    }
  }

  /** In a disciplined run every address a Get returns for memory is a reservation of
      the current session that nobody cancelled. */
  lemma GetExposesLiveMemoryOnly(ops: seq<Op>, k: Key)
    requires Disciplined(ops)
    ensures var a := Get(Run(ops), k);
            a.Found? && a.location == PMEM ==>
              LiveReservation(ops, k).Some? && a.ptr == Memory(LiveReservation(ops, k).value)
  {
    VisibleMemoryIsLive(ops, k);
    LiveReservationIsPointer(ops, k);
  }

  /** The call at index i granted a to k in this session, and nothing since took it back:
      no restart, no publish or effective remove of k, no later reservation for k that got
      as far as its pointer. */
  ghost predicate Stands(ops: seq<Op>, k: Key, i: nat, a: nat) {
    && i < |ops| && ops[i].DoAlloc? && ops[i].k == k && AnswerAt(ops, i) == Reserved(a)
    && forall j :: i < j < |ops| ==> LeavesGrant(ops, k, j)
  }

  /** The call at index j leaves the reservation of k alone. */
  ghost predicate LeavesGrant(ops: seq<Op>, k: Key, j: nat)
    requires j < |ops|
  {
    match ops[j]
    case DoRestart => false
    case DoPublish(k', _) => k' != k
    case DoRemove(k') => k' != k || AnswerAt(ops, j) != Ok
    case DoAlloc(k', _, _) => k' != k || (k in Run(ops[..j]) && Run(ops[..j])[k].location != EMPTY)
    case DoPut(_) => true
  }

  /** A reservation stands exactly when reading the history backwards finds it. */
  lemma {:induction false} StandsIffLive(ops: seq<Op>, k: Key, a: nat)
    ensures (exists i: nat :: Stands(ops, k, i, a)) <==> LiveReservation(ops, k) == Some(a)
  {
    if ops != [] {
      var n: nat := |ops| - 1;
      var before := ops[..n];
      StandsIffLive(before, k, a);
      assert forall j :: 0 <= j <= n ==> before[..j] == ops[..j];
      forall i: nat | i < n ensures Stands(ops, k, i, a) <==> Stands(before, k, i, a) && LeavesGrant(ops, k, n) {
        assert AnswerAt(before, i) == AnswerAt(ops, i);
        assert forall j :: i < j < n ==> LeavesGrant(before, k, j) == LeavesGrant(ops, k, j);
      }
      assert Stands(ops, k, n, a) <==> ops[n].DoAlloc? && ops[n].k == k && AnswerAt(ops, n) == Reserved(a);
    }
  }

  /** The condition is exact: whatever went before, a put leaves k readable from memory
      granted in this session and not taken back if and only if such a grant stands. */
  lemma PutIsSafeIff(ops: seq<Op>, k: Key)
    requires k in Run(ops)
    ensures var after := ops + [DoPut(k)];
            (exists i: nat, a: nat :: Stands(after, k, i, a)
                                      && Get(Run(after), k).Found? && Get(Run(after), k).ptr == Memory(a))
            <==> exists i: nat, a: nat :: Stands(ops, k, i, a)
  {
    var after := ops + [DoPut(k)];
    assert after[..|ops|] == ops;
    forall a: nat
      ensures (exists i: nat :: Stands(after, k, i, a)) <==> LiveReservation(ops, k) == Some(a)
      ensures (exists i: nat :: Stands(ops, k, i, a)) <==> LiveReservation(ops, k) == Some(a)
    {
      StandsIffLive(after, k, a);
      StandsIffLive(ops, k, a);
    }
    LiveReservationIsPointer(ops, k);
    if i: nat, a: nat :| Stands(ops, k, i, a) {
      assert LiveReservation(ops, k) == Some(a);
      var j: nat :| Stands(after, k, j, a);
      assert Get(Run(after), k).Found? && Get(Run(after), k).ptr == Memory(a);
    }
    if i: nat, a: nat :| Stands(after, k, i, a) {
      assert LiveReservation(ops, k) == Some(a);
    }
  }

  /** Discipline is what the code relies on: a put without a new reservation after a
      restart makes the reservation from before the restart readable. */
  lemma UndisciplinedPutExposesOldMemory(k: Key, size: nat, addr: nat)
    ensures var ops := [DoAlloc(k, size, Granted(addr)), DoPut(k), DoRestart, DoPut(k)];
            Get(Run(ops), k) == Found(PMEM, Memory(addr), size) && LiveReservation(ops, k).None?
  {
    var ops := [DoAlloc(k, size, Granted(addr)), DoPut(k), DoRestart, DoPut(k)];
    assert ops[..3] == [DoAlloc(k, size, Granted(addr)), DoPut(k), DoRestart];
    assert ops[..3][..2] == [DoAlloc(k, size, Granted(addr)), DoPut(k)];
    assert ops[..3][..2][..1] == [DoAlloc(k, size, Granted(addr))];
    assert ops[..3][..2][..1][..0] == [];
    assert Run([]) == map[];
    assert Run(ops[..3][..2][..1]) == map[k := Wrapper(EMPTY, Memory(addr), size, EMPTY)];
    assert Run(ops[..3][..2])[k] == Wrapper(PMEM, Memory(addr), size, PMEM);
    assert Run(ops[..3])[k] == Wrapper(PMEM, Memory(addr), size, EMPTY);
  }

  // ---- Keys a restart strands ----

  /** What the store offers on a key: reserve, put, remove and update, the last two of
      which look the key up first. An update is the whole offload, which may fail. */
  datatype StoreCall =
    | CallAlloc(size: nat, g: Grant)
    | CallPut
    | CallRemove
    | CallUpdate(dev: DeviceAddr, written: bool)

  function StoreStep(m: Index, k: Key, c: StoreCall): (r: (Index, Answer)) {
    match c
    case CallAlloc(size, g) => Alloc(m, k, size, g)
    case CallPut => Put(m, k)
    case CallRemove => if Get(m, k).KeyNotFound? then (m, KeyNotFound) else Remove(m, k)
    case CallUpdate(dev, written) =>
      if Get(m, k).KeyNotFound? then (m, KeyNotFound)
      else if Get(m, k).location == PMEM && written then Publish(m, k, dev)
      else (m, Ok)
  }

  function StoreRun(m: Index, k: Key, calls: seq<StoreCall>): (r: Index) {
    if calls == [] then m else StoreStep(StoreRun(m, k, calls[..|calls| - 1]), k, calls[|calls| - 1]).0
  }

  /** A key left in memory when the store restarts is unreadable, and every call but a put
      is refused without effect. */
  lemma {:induction false} StrandedWithoutPut(m: Index, k: Key, calls: seq<StoreCall>)
    requires k in m && m[k].location == PMEM && CallPut !in calls
    ensures StoreRun(Restart(m), k, calls) == Restart(m) && Get(Restart(m), k) == KeyNotFound
    ensures forall c: StoreCall :: c != CallPut ==>
              StoreStep(Restart(m), k, c) == (Restart(m), if c.CallAlloc? then AllocationError else KeyNotFound)
  {
    if calls != [] {
      assert CallPut !in calls[..|calls| - 1];
      StrandedWithoutPut(m, k, calls[..|calls| - 1]);
    }
  }

  /** Once put in a session, a wrapper carries the mark of it until the next restart. */
  lemma {:induction false} PutLeavesMark(m: Index, k: Key, calls: seq<StoreCall>)
    requires k in m && (m[k].locationVolatile == PMEM || CallPut in calls)
    ensures var r := StoreRun(m, k, calls); k in r && r[k].locationVolatile == PMEM
  {
    if calls != [] {
      var n := |calls| - 1;
      if calls[n] == CallPut {
        WrapperStays(m, k, calls[..n]);
      } else {
        assert calls == calls[..n] + [calls[n]];
        PutLeavesMark(m, k, calls[..n]);
      }
    }
  }

  lemma {:induction false} WrapperStays(m: Index, k: Key, calls: seq<StoreCall>)
    requires k in m
    ensures k in StoreRun(m, k, calls)
  {
    if calls != [] { WrapperStays(m, k, calls[..|calls| - 1]); }
  }

  /** A key left in memory when the store restarts stays stranded, whatever the calls, if
      and only if none of them is a put. */
  lemma StrandedIffNoPut(m: Index, k: Key, calls: seq<StoreCall>)
    requires k in m && m[k].location == PMEM
    ensures StoreRun(Restart(m), k, calls) == Restart(m) <==> CallPut !in calls
  {
    if CallPut in calls {
      PutLeavesMark(Restart(m), k, calls);
      assert Restart(m)[k].locationVolatile == EMPTY;
    } else {
      StrandedWithoutPut(m, k, calls);
    }
  }

  /** What the put brings back: the memory from before the restart, after which the key can
      be removed and reserved again. */
  lemma PutBringsBackOldMemory(m: Index, k: Key)
    requires k in m && m[k].location == PMEM
    ensures var r := StoreStep(Restart(m), k, CallPut).0;
            && Get(r, k) == Found(PMEM, m[k].ptr, m[k].size)
            && StoreStep(r, k, CallRemove).1 == Ok
            && forall size: nat, addr: nat ::
                 StoreStep(StoreStep(r, k, CallRemove).0, k, CallAlloc(size, Granted(addr))).1 == Reserved(addr)
  {
  }
}
