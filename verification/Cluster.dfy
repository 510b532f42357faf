/** All nodes together (lib/dht/DhtCore.cpp, lib/dht/DhtServer.cpp, lib/core/KVStore.cpp):
    nodes that share one configuration route every key to the same owner, and operations
    issued anywhere act like operations on one map.

    Requests are served one at a time: a step is a whole request. Two workers of one node that
    serve Puts of one absent key at once may both succeed; OffloadRaces has that run. */
module Cluster {
  import opened Basics
  import opened ValueIndex
  import opened Routing

  /** The shared configuration: node i serves the range bounds[i]. */
  datatype Config = Config(bounds: seq<(Bound, Bound)>, offset: nat, length: nat)

  ghost predicate ConfigOk(c: Config) {
    MaskOk(c.offset, c.length) && 0 < c.length <= 3 && c.bounds != []
  }

  /** The configuration as node j reads it: every node is listed, its own marked local. */
  function PeersAt(c: Config, j: nat): (ps: seq<Peer>)
    ensures |ps| == |c.bounds|
  {
    seq(|c.bounds|, i requires 0 <= i < |c.bounds| => Peer(i, c.bounds[i].0, c.bounds[i].1, i == j))
  }

  function NodeAt(c: Config, i: nat): (n: Node)
    requires i < |c.bounds|
  {
    NodeOf(Peer(i, c.bounds[i].0, c.bounds[i].1, true))
  }

  predicate Covers(c: Config, i: nat, h: nat) {
    i < |c.bounds| && NodeAt(c, i).start <= h <= NodeAt(c, i).end
  }

  predicate LocalAt(c: Config, j: nat, k: Key)
    requires MaskOk(c.offset, c.length)
  {
    IsLocal(Local(PeersAt(c, j), 0), k, c.offset, c.length)
  }

  function RouteAt(c: Config, j: nat, k: Key): (t: Target)
    requires MaskOk(c.offset, c.length)
  {
    HostForKey(RangeMap(Remotes(PeersAt(c, j))), k, c.offset, c.length)
  }

  // ---- What a node makes of the configuration ----

  lemma {:induction false} LocalNode(c: Config, j: nat, n: nat)
    requires j < n <= |c.bounds|
    ensures Local(PeersAt(c, j)[..n], 0) == NodeAt(c, j)
  {
    var ps := PeersAt(c, j)[..n];
    assert ps[..n - 1] == PeersAt(c, j)[..n - 1];
    if j < n - 1 { LocalNode(c, j, n - 1); }
  }

  lemma LocalIffCovers(c: Config, j: nat, k: Key)
    requires MaskOk(c.offset, c.length) && c.length > 0 && j < |c.bounds|
    ensures LocalAt(c, j, k) <==> Covers(c, j, Hash(k, c.offset, c.length))
  {
    LocalNode(c, j, |c.bounds|);
    assert PeersAt(c, j)[..|c.bounds|] == PeersAt(c, j);
  }

  /** The neighbours of j are exactly the other nodes. */
  lemma {:induction false} NeighborsAre(c: Config, j: nat, n: nat)
    requires n <= |c.bounds|
    ensures forall i :: 0 <= i < n && i != j ==> NodeAt(c, i) in Remotes(PeersAt(c, j)[..n])
    ensures forall x :: x in Remotes(PeersAt(c, j)[..n]) ==> x.host < n && x.host != j && x == NodeAt(c, x.host)
  {
    if n > 0 {
      NeighborsAre(c, j, n - 1);
      assert PeersAt(c, j)[..n][..n - 1] == PeersAt(c, j)[..n - 1];
    }
  }

  /** A neighbour's `int` range and its own unsigned one hold the same hashes. */
  lemma RangesAgree(n: Node, h: nat)
    requires n.start < 0x1_0000_0000 && n.end < 0x1_0000_0000 && h < 0x8000_0000
    ensures InRange(h, RangeOf(n)) <==> n.start <= h <= n.end
  {
  }

  /** Routing finds a node that covers the hash, if one other than j does. */
  lemma RouteFindsCoverer(c: Config, j: nat, k: Key)
    requires MaskOk(c.offset, c.length) && c.length > 0 && Hash(k, c.offset, c.length) < 0x8000_0000
    ensures var h := Hash(k, c.offset, c.length);
            match RouteAt(c, j, k)
            case HostFound(o) => o != j && Covers(c, o, h)
            case NotFound => forall o :: Covers(c, o, h) ==> o == j
            case Undefined => false
  {
    var h, ps := Hash(k, c.offset, c.length), PeersAt(c, j);
    assert ps[..|c.bounds|] == ps;
    NeighborsAre(c, j, |c.bounds|);
    var ns := Remotes(ps);
    EntriesComeFrom(ns);
    FirstMatchFinds(RangeMap(ns), h);
    match RouteAt(c, j, k)
    case HostFound(o) =>
      var e :| e in RangeMap(ns) && InRange(h, e.range) && e.host == o;
      assert ComesFrom(ns, e);
      var i :| 0 <= i < |ns| && RangeOf(ns[i]) == e.range && ns[i].host == e.host;
      assert ns[i] in ns;
      RangesAgree(ns[i], h);
    case NotFound =>
      forall o | Covers(c, o, h) ensures o == j {
        if o != j { Unmatched(c, ns, o, h); }
      }
    case Undefined =>
  }

  lemma Unmatched(c: Config, ns: seq<Node>, o: nat, h: nat)
    requires NodesOk(ns) && o < |c.bounds| && NodeAt(c, o) in ns && h < 0x8000_0000
    requires forall e :: e in RangeMap(ns) ==> !InRange(h, e.range)
    ensures !Covers(c, o, h)
  {
    var i :| 0 <= i < |ns| && ns[i] == NodeAt(c, o);
    RangesAreThere(ns, i);
    var m := RangeMap(ns);
    var x :| 0 <= x < |m| && m[x].range == RangeOf(ns[i]);
    assert m[x] in m;
    RangesAgree(ns[i], h);
  }

  /** The hashes a node covers, in terms of the bounds configured for it: a start below 0 lies
      beyond every hash, an end below 0 behind them all, a bound that is no number is 0 and
      takes the other with it if it is the start. */
  lemma CoversIff(c: Config, i: nat, h: nat)
    requires i < |c.bounds| && h < 0x8000_0000
    ensures Covers(c, i, h) <==>
            match c.bounds[i]
            case (Number(a), Number(b)) => 0 <= a <= h && (b < 0 || h <= b)
            case (Number(a), NotANumber) => a == 0 && h == 0
            case (NotANumber, _) => h == 0
  {
  }

  // ---- One owner for every key ----

  /** Every hash is in exactly one node's range. */
  ghost predicate Partition(c: Config)
    requires MaskOk(c.offset, c.length) && c.length <= 3
  {
    && (forall h: nat {:trigger CoveredBySome(c, h)} :: h < Space(c.length) ==> CoveredBySome(c, h))
    && (forall h: nat, i: nat, j: nat :: h < Space(c.length) && Covers(c, i, h) && Covers(c, j, h) ==> i == j)
  }

  ghost predicate CoveredBySome(c: Config, h: nat) {
    exists i: nat :: Covers(c, i, h)
  }

  /** o alone treats the key as its own, and every other node routes it to o. */
  ghost predicate OwnedBy(c: Config, k: Key, o: nat)
    requires MaskOk(c.offset, c.length)
  {
    && o < |c.bounds| && LocalAt(c, o, k)
    && (forall j: nat :: j < |c.bounds| && j != o ==> !LocalAt(c, j, k) && RouteAt(c, j, k) == HostFound(o))
  }

  ghost predicate Owned(c: Config, k: Key)
    requires MaskOk(c.offset, c.length)
  {
    exists o: nat :: OwnedBy(c, k, o)
  }

  lemma CoveredIsOwned(c: Config, k: Key, o: nat)
    requires ConfigOk(c) && Partition(c) && Covers(c, o, Hash(k, c.offset, c.length))
    ensures OwnedBy(c, k, o)
  {
    LocalIffCovers(c, o, k);
    forall j: nat | j < |c.bounds| && j != o ensures !LocalAt(c, j, k) && RouteAt(c, j, k) == HostFound(o) {
      LocalIffCovers(c, j, k);
      RouteFindsCoverer(c, j, k);
    }
  }

  /** Every key has one owner on which all nodes agree if and only if the configured ranges
      partition the hash space. */
  lemma OneOwnerIffPartition(c: Config)
    requires ConfigOk(c)
    ensures (forall k: Key :: Owned(c, k)) <==> Partition(c)
  {
    if Partition(c) {
      forall k: Key ensures Owned(c, k) {
        var h := Hash(k, c.offset, c.length);
        assert CoveredBySome(c, h);
        var o: nat :| Covers(c, o, h);
        CoveredIsOwned(c, k, o);
      }
    }
    if forall k: Key :: Owned(c, k) {
      forall h: nat | h < Space(c.length) ensures CoveredBySome(c, h) {
        var k := EveryHashOccurs(h, c.offset, c.length);
        assert Owned(c, k);
        var o: nat :| OwnedBy(c, k, o);
        LocalIffCovers(c, o, k);
      }
      forall h: nat, i: nat, j: nat | h < Space(c.length) && Covers(c, i, h) && Covers(c, j, h) ensures i == j {
        var k := EveryHashOccurs(h, c.offset, c.length);
        assert Owned(c, k);
        var o: nat :| OwnedBy(c, k, o);
        LocalIffCovers(c, i, k);
        LocalIffCovers(c, j, k);
      }
    }
  }

  /** With plain bounds that partition the hashes, the one owner of a key is the node between
      whose configured bounds its masked bytes lie, read as a number. */
  lemma OwnerIsConfigured(c: Config, k: Key, o: nat)
    requires ConfigOk(c) && Partition(c) && o < |c.bounds|
    requires c.bounds[o].0.Number? && c.bounds[o].1.Number? && c.bounds[o].1.n >= 0
    ensures OwnedBy(c, k, o) <==>
            0 <= c.bounds[o].0.n <= LittleEndian(k[c.offset..c.offset + c.length]) <= c.bounds[o].1.n
  {
    var h := Hash(k, c.offset, c.length);
    HashIsLittleEndian(k, c.offset, c.length);
    CoversIff(c, o, h);
    LocalIffCovers(c, o, k);
    if Covers(c, o, h) { CoveredIsOwned(c, k, o); }
  }

  /** With a mask of four bytes the sign of the last one spoils the hash: keys that have it
      at 128 or more are local to no node, whatever the ranges. */
  lemma FourByteMaskDisowns(c: Config, k: Key, j: nat)
    requires c.length == 4 && c.offset <= 4 && j < |c.bounds| && k[c.offset + 3] >= 128
    ensures !LocalAt(c, j, k)
  {
    LocalNode(c, j, |c.bounds|);
    assert PeersAt(c, j)[..|c.bounds|] == PeersAt(c, j);
    assert Hash(k, c.offset, 4) == Hash(k, c.offset, 3) + Shifted(k[c.offset + 3], 3);
  }

  /** The other keys are still looked for between the configured bounds. */
  lemma FourByteMaskOwns(c: Config, k: Key, o: nat)
    requires c.length == 4 && c.offset <= 4 && k[c.offset + 3] < 128
    requires var h := LittleEndian(k[c.offset..c.offset + 4]);
             Covers(c, o, h) && forall i :: Covers(c, i, h) ==> i == o
    ensures OwnedBy(c, k, o)
  {
    HashIsLittleEndian(k, c.offset, 4);
    LittleEndianOfFour(k[c.offset..c.offset + 4]);
    LocalIffCovers(c, o, k);
    forall j: nat | j < |c.bounds| && j != o ensures !LocalAt(c, j, k) && RouteAt(c, j, k) == HostFound(o) {
      LocalIffCovers(c, j, k);
      RouteFindsCoverer(c, j, k);
    }
  }

  // ---- Operations ----

  /** Issued at node `at`; a remote request is served by one of the owner's worker threads.
      Whether the owner's memory grants a reservation, whether its ready queue has room and
      whether it holds the value on a device is up to the owner. */
  datatype Op =
    | IssuePut(at: nat, worker: nat, k: Key, v: Bytes, granted: bool, room: bool)
    | IssueGet(at: nat, worker: nat, k: Key, onDisk: bool)
    | IssueRemove(at: nat, worker: nat, k: Key)

  datatype Result =
    | Done
    | Fetched(v: Bytes)
    | KeyMissing          // KEY_NOT_FOUND
    | NotReserved         // PMEM_ALLOCATION_ERROR from the reservation
    | QueueFull           // QUEUE_FULL_ERROR, the key taken out again
    | TooBig              // EINVAL: the value does not fit the answer
    | Overrun             // bytes are copied past the end of a message buffer
    | NoAnswer            // the caller waits for ever

  /** What the nodes store, the worker threads that ended and the nodes whose process did. */
  datatype State = State(stores: seq<map<Key, Bytes>>, ended: set<(nat, nat)>, down: set<nat>)

  /** Reservation and Put, Get, Remove on a plain map, inserting only if absent. */
  function OnMap(m: map<Key, Bytes>, op: Op): (r: (map<Key, Bytes>, Result)) {
    match op
    case IssuePut(_, _, k, v, _, _) => if k in m then (m, NotReserved) else (m[k := v], Done)
    case IssueGet(_, _, k, _) => if k in m then (m, Fetched(m[k])) else (m, KeyMissing)
    case IssueRemove(_, _, k) => if k in m then (m - {k}, Done) else (m, KeyMissing)
  }

  /** The same at the node that owns the key: memory and the ready queue may run out. */
  function OnStore(m: map<Key, Bytes>, op: Op): (r: (map<Key, Bytes>, Result)) {
    if op.IssuePut? && op.k !in m && !op.granted then (m, NotReserved)
    else if op.IssuePut? && op.k !in m && !op.room then (m, QueueFull)
    else OnMap(m, op)
  }

  /** `ERPC_MAX_RESPONSE_SIZE` less the header, and `ERPC_MAX_REQUEST_SIZE` less the header
      and a key. */
  const MAX_ANSWER: nat := 65584
  const MAX_REQUEST: nat := 65576

  /** The thread that threw ends; for worker 0, which throws on, the whole process does. */
  function WorkerEnds(s: State, o: nat, worker: nat): (s': State) {
    if worker == 0 then s.(down := s.down + {o}) else s.(ended := s.ended + {(o, worker)})
  }

  /** The owner's handler. A reservation that throws is caught by nobody but the worker. */
  function Handle(s: State, o: nat, op: Op): (r: (State, Result))
    requires o < |s.stores|
  {
    var m := s.stores[o];
    if o in s.down || (o, op.worker) in s.ended then (s, NoAnswer)
    else if op.IssuePut? && (op.k in m || !op.granted) then (WorkerEnds(s, o, op.worker), NoAnswer)
    else if op.IssueGet? && op.k in m && |m[op.k]| > MAX_ANSWER then (s, if op.onDisk then Overrun else TooBig)
    else (s.(stores := s.stores[o := OnStore(m, op).0]), OnStore(m, op).1)
  }

  /** A remote request: the client's buffer is filled first. */
  function Send(s: State, o: nat, op: Op): (r: (State, Result)) {
    if op.IssuePut? && |op.v| > MAX_REQUEST then (s, Overrun)
    else if o < |s.stores| then Handle(s, o, op)
    else (s, NoAnswer)
  }

  function Step(c: Config, s: State, op: Op): (r: (State, Result))
    requires MaskOk(c.offset, c.length) && |s.stores| == |c.bounds| && op.at < |c.bounds|
  {
    if op.at in s.down then (s, NoAnswer)
    else if LocalAt(c, op.at, op.k) then
      (s.(stores := s.stores[op.at := OnStore(s.stores[op.at], op).0]), OnStore(s.stores[op.at], op).1)
    else
      match RouteAt(c, op.at, op.k)
      case HostFound(o) => Send(s, o, op)
      case _ => (s, KeyMissing)
  }

  // ---- Runs ----

  /** The cluster serves these requests, one after the other, from empty stores. */
  ghost predicate Serves(c: Config, states: seq<State>, ops: seq<Op>, results: seq<Result>)
    requires MaskOk(c.offset, c.length)
  {
    && |states| == |ops| + 1 && |results| == |ops|
    && states[0] == State(seq(|c.bounds|, _ => map[]), {}, {})
    && (forall i :: 0 <= i < |states| ==> |states[i].stores| == |c.bounds|)
    && (forall i :: 0 <= i < |ops| ==>
          ops[i].at < |c.bounds| && (states[i + 1], results[i]) == Step(c, states[i], ops[i]))
  }

  /** And this is what they do to one map. */
  ghost predicate Run(c: Config, states: seq<State>, maps: seq<map<Key, Bytes>>, ops: seq<Op>, results: seq<Result>)
    requires ConfigOk(c)
  {
    && Serves(c, states, ops, results) && |maps| == |ops| + 1 && maps[0] == map[]
    && (forall i :: 0 <= i < |ops| ==> maps[i + 1] == OnMap(maps[i], ops[i]).0)
  }

  /** The cluster's stores, put together, are the map, and everybody is alive. */
  ghost predicate Refines(c: Config, s: State, m: map<Key, Bytes>)
    requires ConfigOk(c)
  {
    && |s.stores| == |c.bounds| && s.ended == {} && s.down == {}
    && forall k: Key, o: nat {:trigger OwnedBy(c, k, o)} :: OwnedBy(c, k, o) ==>
         (k in s.stores[o] <==> k in m) && (k in m ==> s.stores[o][k] == m[k])
  }

  /** The requests the cluster serves differently from a map. Anywhere: a Put of an absent key
      for which the owner has no memory or no room in its ready queue. From another node also:
      a Put of a key that is there, a Put larger than the request buffer, and a Get of a value
      that does not fit the answer. */
  ghost predicate Unserved(c: Config, m: map<Key, Bytes>, op: Op)
    requires MaskOk(c.offset, c.length)
  {
    var remote := !LocalAt(c, op.at, op.k);
    match op
    case IssuePut(_, _, k, v, granted, room) =>
      if k in m then remote else !granted || !room || (remote && |v| > MAX_REQUEST)
    case IssueGet(_, _, k, _) => remote && k in m && |m[k]| > MAX_ANSWER
    case IssueRemove(_, _, _) => false
  }

  /** The owner of the key does what the map does. */
  lemma StepAtOwner(c: Config, s: State, m: map<Key, Bytes>, op: Op, o: nat)
    requires ConfigOk(c) && Refines(c, s, m) && op.at < |c.bounds| && OwnedBy(c, op.k, o)
    ensures if Unserved(c, m, op) then Step(c, s, op).1 != OnMap(m, op).1
            else Step(c, s, op) == (s.(stores := s.stores[o := OnMap(s.stores[o], op).0]), OnMap(m, op).1)
  {
    assert op.k in s.stores[o] <==> op.k in m;
  }

  lemma OwnerIsOne(c: Config, k: Key, o1: nat, o2: nat)
    requires ConfigOk(c) && OwnedBy(c, k, o1) && OwnedBy(c, k, o2)
    ensures o1 == o2
  {
  }

  lemma OthersKept(m: map<Key, Bytes>, op: Op, k: Key)
    requires k != op.k
    ensures k in OnMap(m, op).0 <==> k in m
    ensures k in m ==> OnMap(m, op).0[k] == m[k]
  {
  }

  lemma StepRefines(c: Config, s: State, m: map<Key, Bytes>, op: Op, o: nat)
    requires ConfigOk(c) && Refines(c, s, m) && op.at < |c.bounds| && OwnedBy(c, op.k, o) && !Unserved(c, m, op)
    ensures Refines(c, Step(c, s, op).0, OnMap(m, op).0)
  {
    StepAtOwner(c, s, m, op, o);
    var s', m' := Step(c, s, op).0, OnMap(m, op).0;
    forall k: Key, x: nat | OwnedBy(c, k, x)
      ensures (k in s'.stores[x] <==> k in m') && (k in m' ==> s'.stores[x][k] == m'[k])
    {
      if k == op.k {
        OwnerIsOne(c, k, o, x);
      } else {
        OthersKept(m, op, k);
        OthersKept(s.stores[o], op, k);
      }
    }
  }

  lemma OneStep(c: Config, s: State, m: map<Key, Bytes>, op: Op)
    requires ConfigOk(c) && Partition(c) && Refines(c, s, m) && op.at < |c.bounds|
    ensures Step(c, s, op).1 == OnMap(m, op).1 <==> !Unserved(c, m, op)
    ensures !Unserved(c, m, op) ==> Refines(c, Step(c, s, op).0, OnMap(m, op).0)
  {
    OneOwnerIffPartition(c);
    assert Owned(c, op.k);
    var o: nat :| OwnedBy(c, op.k, o);
    StepAtOwner(c, s, m, op, o);
    if !Unserved(c, m, op) { StepRefines(c, s, m, op, o); }
  }

  /** As long as nothing unserved was asked for, or every answer was the map's, the cluster
      is the map. */
  lemma {:induction false} RefinesUntil(c: Config, states: seq<State>, maps: seq<map<Key, Bytes>>,
                                        ops: seq<Op>, results: seq<Result>, n: nat)
    requires ConfigOk(c) && Partition(c) && Run(c, states, maps, ops, results) && n <= |ops|
    requires || (forall i :: 0 <= i < n ==> !Unserved(c, maps[i], ops[i]))
             || (forall i :: 0 <= i < n ==> results[i] == OnMap(maps[i], ops[i]).1)
    ensures Refines(c, states[n], maps[n])
    ensures forall i :: 0 <= i < n ==> !Unserved(c, maps[i], ops[i]) && results[i] == OnMap(maps[i], ops[i]).1
  {
    if n > 0 {
      RefinesUntil(c, states, maps, ops, results, n - 1);
      assert (states[n], results[n - 1]) == Step(c, states[n - 1], ops[n - 1]);
      OneStep(c, states[n - 1], maps[n - 1], ops[n - 1]);
    }
  }

  /** Over every run, at whatever nodes the operations are issued, the cluster answers like
      one insert-if-absent map if and only if none of them is an unserved one. */
  lemma ClusterIsOneMapIff(c: Config, states: seq<State>, maps: seq<map<Key, Bytes>>, ops: seq<Op>,
                           results: seq<Result>)
    requires ConfigOk(c) && Partition(c) && Run(c, states, maps, ops, results)
    ensures (forall i :: 0 <= i < |ops| ==> results[i] == OnMap(maps[i], ops[i]).1) <==>
            (forall i :: 0 <= i < |ops| ==> !Unserved(c, maps[i], ops[i]))
  {
    if (forall i :: 0 <= i < |ops| ==> results[i] == OnMap(maps[i], ops[i]).1)
       || (forall i :: 0 <= i < |ops| ==> !Unserved(c, maps[i], ops[i])) {
      RefinesUntil(c, states, maps, ops, results, |ops|);
    }
  }

  /** What a request that is not served like on a map is answered: nothing is stored or
      removed by it, and only a reservation that throws at another node has no answer. */
  lemma UnservedAnswer(c: Config, s: State, m: map<Key, Bytes>, op: Op)
    requires ConfigOk(c) && Partition(c) && Refines(c, s, m) && op.at < |c.bounds| && Unserved(c, m, op)
    ensures Step(c, s, op).0.stores == s.stores
    ensures LocalAt(c, op.at, op.k) ==> Step(c, s, op) == (s, if op.granted then QueueFull else NotReserved)
    ensures !LocalAt(c, op.at, op.k) && op.IssuePut? ==>
              Step(c, s, op).1 == if |op.v| > MAX_REQUEST then Overrun
                                  else if op.k in m || !op.granted then NoAnswer else QueueFull
    ensures op.IssueGet? ==> Step(c, s, op) == (s, if op.onDisk then Overrun else TooBig)
    ensures Step(c, s, op).1 != NoAnswer ==> Step(c, s, op).0 == s
  {
    OneOwnerIffPartition(c);
    assert Owned(c, op.k);
    var o: nat :| OwnedBy(c, op.k, o);
    assert op.k in s.stores[o] <==> op.k in m;
    assert s.stores[o := s.stores[o]] == s.stores;
  }

  /** A key whose hash no node covers is missing everywhere, whatever is asked of it. */
  lemma UncoveredIsMissing(c: Config, s: State, op: Op)
    requires ConfigOk(c) && |s.stores| == |c.bounds| && op.at < |c.bounds| && op.at !in s.down
    requires !CoveredBySome(c, Hash(op.k, c.offset, c.length))
    ensures Step(c, s, op) == (s, KeyMissing)
  {
    LocalIffCovers(c, op.at, op.k);
    RouteFindsCoverer(c, op.at, op.k);
  }

  // ---- Without a mask ----

  /** Without a mask every key is local everywhere: whoever is asked answers alone. */
  lemma NoMaskIsLocal(c: Config, s: State, op: Op)
    requires c.length == 0 && c.offset <= 8 && |s.stores| == |c.bounds| && op.at < |c.bounds| && op.at !in s.down
    ensures Step(c, s, op) == (s.(stores := s.stores[op.at := OnStore(s.stores[op.at], op).0]),
                               OnStore(s.stores[op.at], op).1)
    ensures RouteAt(c, op.at, op.k) == NotFound
  {
  }

  /** What the requests issued at node x do to a map of its own. */
  function OwnMap(ops: seq<Op>, x: nat, n: nat): (m: map<Key, Bytes>)
    requires n <= |ops|
  {
    if n == 0 then map[]
    else if ops[n - 1].at == x then OnMap(OwnMap(ops, x, n - 1), ops[n - 1]).0
    else OwnMap(ops, x, n - 1)
  }

  /** A Put of an absent key for which the node has no memory or no room in its ready queue. */
  predicate Lacks(m: map<Key, Bytes>, op: Op) {
    op.IssuePut? && op.k !in m && (!op.granted || !op.room)
  }

  predicate LacksAt(ops: seq<Op>, x: nat, i: nat)
    requires i < |ops|
  {
    ops[i].at == x && Lacks(OwnMap(ops, x, i), ops[i])
  }

  /** The request is another node's, or is answered like on this node's map. */
  predicate LikeMap(ops: seq<Op>, results: seq<Result>, x: nat, i: nat)
    requires i < |ops| == |results|
  {
    ops[i].at == x ==> results[i] == OnMap(OwnMap(ops, x, i), ops[i]).1
  }

  lemma {:induction false} AloneUntil(c: Config, states: seq<State>, ops: seq<Op>, results: seq<Result>, x: nat, n: nat)
    requires c.length == 0 && c.offset <= 8 && Serves(c, states, ops, results) && x < |c.bounds| && n <= |ops|
    requires || (forall i :: 0 <= i < n ==> !LacksAt(ops, x, i))
             || (forall i :: 0 <= i < n ==> LikeMap(ops, results, x, i))
    ensures states[n].stores[x] == OwnMap(ops, x, n) && states[n].down == {}
    ensures forall i :: 0 <= i < n ==> !LacksAt(ops, x, i) && LikeMap(ops, results, x, i)
  {
    if n > 0 {
      AloneUntil(c, states, ops, results, x, n - 1);
      assert (states[n], results[n - 1]) == Step(c, states[n - 1], ops[n - 1]);
      NoMaskIsLocal(c, states[n - 1], ops[n - 1]);
      assert LacksAt(ops, x, n - 1) <==> !LikeMap(ops, results, x, n - 1);
    }
  }

  /** Without a mask, over every run and whatever the other nodes are asked, each node alone
      answers like an insert-if-absent map if and only if it never lacks memory or room. */
  lemma NodeIsOneMapIff(c: Config, states: seq<State>, ops: seq<Op>, results: seq<Result>, x: nat)
    requires c.length == 0 && c.offset <= 8 && Serves(c, states, ops, results) && x < |c.bounds|
    ensures (forall i :: 0 <= i < |ops| ==> LikeMap(ops, results, x, i)) <==>
            (forall i :: 0 <= i < |ops| ==> !LacksAt(ops, x, i))
  {
    if (forall i :: 0 <= i < |ops| ==> LikeMap(ops, results, x, i))
       || (forall i :: 0 <= i < |ops| ==> !LacksAt(ops, x, i)) {
      AloneUntil(c, states, ops, results, x, |ops|);
    }
  }

  // ---- Runs that fail ----

  /** A request whose reservation throws: it and everything later sent to the same worker stay
      unanswered, and after worker 0 everything sent to or issued at that node. */
  lemma EndedWorkerAnswersNothing(c: Config, s: State, o: nat, op: Op, later: Op)
    requires o < |s.stores| && op.IssuePut? && (op.k in s.stores[o] || !op.granted)
    requires MaskOk(c.offset, c.length) && |s.stores| == |c.bounds| && later.at < |c.bounds|
    requires o !in s.down && (o, op.worker) !in s.ended
    ensures Handle(s, o, op).1 == NoAnswer
    ensures later.worker == op.worker ==> Handle(Handle(s, o, op).0, o, later).1 == NoAnswer
    ensures op.worker == 0 ==> Handle(Handle(s, o, op).0, o, later).1 == NoAnswer
    ensures op.worker == 0 && later.at == o ==> Step(c, Handle(s, o, op).0, later).1 == NoAnswer
  {
  }

  /** And nothing else does: other workers of that node, the other nodes, and unless it was
      worker 0 that node's own clients are served as before. */
  lemma OthersAreServed(s: State, o: nat, op: Op, x: nat, later: Op)
    requires o < |s.stores| && op.IssuePut? && (op.k in s.stores[o] || !op.granted) && x < |s.stores|
    requires x != o || (op.worker != 0 && later.worker != op.worker)
    ensures Handle(s, o, op).0.stores == s.stores
    ensures Handle(Handle(s, o, op).0, x, later).1 == Handle(s, x, later).1
    ensures x in Handle(s, o, op).0.down <==> x in s.down
  {
  }

  /** Two nodes that share the hash space of a one-byte mask. */
  const TWO_NODES: Config :=
    Config([(Number(0), Number(127)), (Number(128), Number(255))], 0, 1)

  lemma TwoNodesPartition()
    ensures ConfigOk(TWO_NODES) && Partition(TWO_NODES)
  {
    var c := TWO_NODES;
    assert NodeAt(c, 0) == Node(0, 0, 127) && NodeAt(c, 1) == Node(1, 128, 255);
    forall h: nat | h < Space(c.length) ensures CoveredBySome(c, h) {
      assert Covers(c, if h < 128 then 0 else 1, h);
    }
  }

  const KEY_200: Key := [200, 0, 0, 0, 0, 0, 0, 0]
  const KEY_201: Key := [201, 0, 0, 0, 0, 0, 0, 0]

  lemma RemoteKeys()
    ensures ConfigOk(TWO_NODES) && OwnedBy(TWO_NODES, KEY_200, 1) && OwnedBy(TWO_NODES, KEY_201, 1)
  {
    TwoNodesPartition();
    assert Hash(KEY_200, 0, 1) == Hash(KEY_200, 0, 0) + Shifted(KEY_200[0], 0);
    assert Hash(KEY_201, 0, 1) == Hash(KEY_201, 0, 0) + Shifted(KEY_201[0], 0);
    CoveredIsOwned(TWO_NODES, KEY_200, 1);
    CoveredIsOwned(TWO_NODES, KEY_201, 1);
  }

  const NO_KEY: map<Key, Bytes> := map[]
  const ONE_KEY: map<Key, Bytes> := map[KEY_200 := []]

  lemma FirstPut(worker: nat)
    ensures var put := IssuePut(0, worker, KEY_200, [], true, true);
            Step(TWO_NODES, State([NO_KEY, NO_KEY], {}, {}), put) == (State([NO_KEY, ONE_KEY], {}, {}), Done)
  {
    RemoteKeys();
    var put, s := IssuePut(0, worker, KEY_200, [], true, true), State([NO_KEY, NO_KEY], {}, {});
    assert OnStore(s.stores[1], put) == (ONE_KEY, Done);
    assert s.stores[1 := ONE_KEY] == [NO_KEY, ONE_KEY];
  }

  lemma SecondPut(worker: nat)
    ensures var put, s := IssuePut(0, worker, KEY_200, [], true, true), State([NO_KEY, ONE_KEY], {}, {});
            Step(TWO_NODES, s, put) == (WorkerEnds(s, 1, worker), NoAnswer)
  {
    RemoteKeys();
  }

  /** The same key put twice from the node that does not own it: the second Put is never
      answered, and neither is a Get of another key of that node after it. */
  lemma DuplicatePutRun(worker: nat)
    returns (states: seq<State>, maps: seq<map<Key, Bytes>>, ops: seq<Op>, results: seq<Result>)
    ensures ConfigOk(TWO_NODES) && Run(TWO_NODES, states, maps, ops, results)
    ensures var put := IssuePut(0, worker, KEY_200, [], true, true);
            ops == [put, put, IssueGet(0, worker, KEY_201, false)] && results == [Done, NoAnswer, NoAnswer]
  {
    var c, put, get := TWO_NODES, IssuePut(0, worker, KEY_200, [], true, true), IssueGet(0, worker, KEY_201, false);
    RemoteKeys();
    var s0, s1 := State([NO_KEY, NO_KEY], {}, {}), State([NO_KEY, ONE_KEY], {}, {});
    var s2 := WorkerEnds(s1, 1, worker);
    FirstPut(worker);
    SecondPut(worker);
    assert Step(c, s2, get) == (s2, NoAnswer);
    states, maps := [s0, s1, s2, s2], [NO_KEY, ONE_KEY, ONE_KEY, ONE_KEY];
    ops, results := [put, put, get], [Done, NoAnswer, NoAnswer];
    assert s0 == State(seq(|c.bounds|, _ => map[]), {}, {});
  }
}
