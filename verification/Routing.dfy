/** Which node serves a key (lib/dht/DhtCore.cpp). */
module Routing {
  import opened Basics
  import opened ValueIndex

  // ---- Configuration ----

  /** What `stoi` makes of a configured range bound: a 32-bit number or no number. */
  type Int32 = n: int | -0x8000_0000 <= n < 0x8000_0000
  datatype Bound = Number(n: Int32) | NotANumber

  type Host = nat

  /** One entry of the configured neighbours. */
  datatype Peer = Peer(host: Host, start: Bound, end: Bound, local: bool)

  /** A node with its range as the 32-bit unsigned numbers it keeps. */
  datatype Node = Node(host: Host, start: nat, end: nat)

  function AsUnsigned(n: Int32): (u: nat)
    ensures u < 0x1_0000_0000
  {
    if n < 0 then n + 0x1_0000_0000 else n
  }

  /** The unsigned bound of a node seen as the `int` of a range. */
  function AsInt(u: nat): (n: Int32)
    requires u < 0x1_0000_0000
  {
    if u < 0x8000_0000 then u else u - 0x1_0000_0000
  }

  /** A start that is no number leaves both bounds at 0, an end that is none only itself. */
  function NodeOf(p: Peer): (n: Node)
    ensures n.start < 0x1_0000_0000 && n.end < 0x1_0000_0000
  {
    if p.start.NotANumber? then Node(p.host, 0, 0)
    else Node(p.host, AsUnsigned(p.start.n), if p.end.NotANumber? then 0 else AsUnsigned(p.end.n))
  }

  /** The configured neighbours that are not local, in order. */
  function Remotes(peers: seq<Peer>): (ns: seq<Node>)
    ensures NodesOk(ns)
  {
    if peers == [] then []
    else
      var p := peers[|peers| - 1];
      Remotes(peers[..|peers| - 1]) + if p.local then [] else [NodeOf(p)]
  }

  /** The last local entry, or the default node with the empty configuration's range 0..0. */
  function Local(peers: seq<Peer>, defaultHost: Host): (n: Node) {
    if peers == [] then Node(defaultHost, 0, 0)
    else if peers[|peers| - 1].local then NodeOf(peers[|peers| - 1])
    else Local(peers[..|peers| - 1], defaultHost)
  }

  /** The last entry marked local is the local one. */
  lemma {:induction false} LocalIs(peers: seq<Peer>, defaultHost: Host, i: nat)
    requires i < |peers| && peers[i].local && forall j :: i < j < |peers| ==> !peers[j].local
    ensures Local(peers, defaultHost) == NodeOf(peers[i])
  {
    if i < |peers| - 1 { LocalIs(peers[..|peers| - 1], defaultHost, i); }
  }

  lemma {:induction false} LocalIsDefault(peers: seq<Peer>, defaultHost: Host)
    requires forall j :: 0 <= j < |peers| ==> !peers[j].local
    ensures Local(peers, defaultHost) == Node(defaultHost, 0, 0)
  {
    if peers != [] { LocalIsDefault(peers[..|peers| - 1], defaultHost); }
  }

  /** The neighbours: every other entry once, in the order of the configuration. */
  lemma {:induction false} RemotesAre(peers: seq<Peer>, n: nat)
    requires n < |peers| && !peers[n].local
    ensures |Remotes(peers[..n])| < |Remotes(peers)| && Remotes(peers)[|Remotes(peers[..n])|] == NodeOf(peers[n])
    ensures Remotes(peers[..n]) <= Remotes(peers)
  {
    var last := |peers| - 1;
    if n < last {
      assert peers[..last][..n] == peers[..n];
      RemotesAre(peers[..last], n);
    }
  }

  // ---- The sorted range map ----

  type Range = (Int32, Int32)

  datatype Entry = Entry(range: Range, host: Host)

  predicate Before(a: Range, b: Range) {
    a.0 < b.0 || (a.0 == b.0 && a.1 < b.1)
  }

  ghost predicate Sorted(m: seq<Entry>) {
    forall i, j :: 0 <= i < j < |m| ==> Before(m[i].range, m[j].range)
  }

  /** Assigning into a map ordered by range: an equal range is overwritten. */
  function Assign(m: seq<Entry>, range: Range, host: Host): (m': seq<Entry>) {
    if m == [] || Before(range, m[0].range) then [Entry(range, host)] + m
    else if m[0].range == range then [Entry(range, host)] + m[1..]
    else [m[0]] + Assign(m[1..], range, host)
  }

  lemma {:induction false} AssignIsMapUpdate(m: seq<Entry>, range: Range, host: Host)
    requires Sorted(m)
    ensures Sorted(Assign(m, range, host)) && Entry(range, host) in Assign(m, range, host)
    ensures forall e: Entry :: e.range != range ==> (e in Assign(m, range, host) <==> e in m)
    ensures forall e :: e in Assign(m, range, host) && e.range == range ==> e.host == host
  {
    if m == [] || Before(range, m[0].range) {
    } else if m[0].range == range {
      assert m == [m[0]] + m[1..];
    } else {
      AssignIsMapUpdate(m[1..], range, host);
      var rest := Assign(m[1..], range, host);
      assert m == [m[0]] + m[1..];
      forall i | 0 <= i < |rest| ensures Before(m[0].range, rest[i].range) {
        assert rest[i] in rest;
        if rest[i].range != range { assert rest[i] in m[1..]; }
      }
    }
  }

  function RangeOf(n: Node): (r: Range)
    requires n.start < 0x1_0000_0000 && n.end < 0x1_0000_0000
  {
    (AsInt(n.start), AsInt(n.end))
  }

  function RangeMap(ns: seq<Node>): (m: seq<Entry>)
    requires NodesOk(ns)
  {
    if ns == [] then []
    else Assign(RangeMap(ns[..|ns| - 1]), RangeOf(ns[|ns| - 1]), ns[|ns| - 1].host)
  }

  ghost predicate NodesOk(ns: seq<Node>) {
    forall n :: n in ns ==> n.start < 0x1_0000_0000 && n.end < 0x1_0000_0000
  }

  /** The entry is some neighbour's. */
  ghost predicate ComesFrom(ns: seq<Node>, e: Entry)
    requires NodesOk(ns)
  {
    exists i :: 0 <= i < |ns| && RangeOf(ns[i]) == e.range && ns[i].host == e.host
  }

  ghost predicate HasRange(m: seq<Entry>, r: Range) {
    exists i :: 0 <= i < |m| && m[i].range == r
  }

  /** Every entry comes from a neighbour. */
  lemma {:induction false} EntriesComeFrom(ns: seq<Node>)
    requires NodesOk(ns)
    ensures Sorted(RangeMap(ns))
    ensures forall e :: e in RangeMap(ns) ==> ComesFrom(ns, e)
  {
    if ns != [] {
      var init, last := ns[..|ns| - 1], ns[|ns| - 1];
      EntriesComeFrom(init);
      AssignIsMapUpdate(RangeMap(init), RangeOf(last), last.host);
      forall e | e in RangeMap(ns) ensures ComesFrom(ns, e) {
        if e.range != RangeOf(last) {
          assert ComesFrom(init, e);
          var i :| 0 <= i < |init| && RangeOf(init[i]) == e.range && init[i].host == e.host;
          assert ns[i] == init[i];
        } else {
          assert ns[|ns| - 1] == last;
        }
      }
    }
  }

  /** Every neighbour's range is in the map. */
  lemma {:induction false} RangesAreThere(ns: seq<Node>, i: nat)
    requires NodesOk(ns) && i < |ns|
    ensures HasRange(RangeMap(ns), RangeOf(ns[i]))
  {
    var init, last, m := ns[..|ns| - 1], ns[|ns| - 1], RangeMap(ns);
    EntriesComeFrom(init);
    AssignIsMapUpdate(RangeMap(init), RangeOf(last), last.host);
    if RangeOf(ns[i]) == RangeOf(last) {
      var j :| 0 <= j < |m| && m[j] == Entry(RangeOf(last), last.host);
    } else {
      RangesAreThere(init, i);
      var j :| 0 <= j < |RangeMap(init)| && RangeMap(init)[j].range == RangeOf(init[i]);
      assert RangeMap(init)[j] in m;
    }
  }

  // ---- The hash of a key ----

  /** Masks whose hash is defined: each byte is shifted as a 32-bit number. */
  predicate MaskOk(offset: nat, length: nat) {
    length <= 4 && offset + length <= 8
  }

  /** Byte b shifted left by i bytes as an `int` and then widened to 64 bits: the sign comes
      along. */
  function Shifted(b: Byte, i: nat): (n: nat)
    requires i <= 3
  {
    if i == 0 then b
    else if i == 1 then 0x100 * (b as int)
    else if i == 2 then 0x1_0000 * (b as int)
    else 0x100_0000 * (b as int) + if b < 128 then 0 else 0x1_0000_0000_0000_0000 - 0x1_0000_0000
  }

  /** The masked bytes as a little-endian number, as far as 64 bits go. */
  function Hash(k: Key, offset: nat, length: nat): (h: nat)
    requires MaskOk(offset, length)
    ensures length <= 3 ==> h < Space(length)
  {
    if length == 0 then 0 else Hash(k, offset, length - 1) + Shifted(k[offset + length - 1], length - 1)
  }

  /** How many hashes there are. */
  function Space(length: nat): (n: nat)
    requires length <= 3
  {
    if length == 0 then 1 else if length == 1 then 0x100 else if length == 2 then 0x1_0000 else 0x100_0000
  }

  /** The number that bytes stand for, the lowest first. */
  function LittleEndian(bytes: seq<Byte>): (n: nat) {
    if bytes == [] then 0 else bytes[0] + 0x100 * LittleEndian(bytes[1..])
  }

  lemma LittleEndianOfFour(b: seq<Byte>)
    requires |b| <= 4
    ensures |b| == 1 ==> LittleEndian(b) == b[0]
    ensures |b| == 2 ==> LittleEndian(b) == b[0] + 0x100 * (b[1] as int)
    ensures |b| == 3 ==> LittleEndian(b) == b[0] + 0x100 * (b[1] as int) + 0x1_0000 * (b[2] as int)
    ensures |b| == 4 ==> LittleEndian(b) == b[0] + 0x100 * (b[1] as int) + 0x1_0000 * (b[2] as int)
                                            + 0x100_0000 * (b[3] as int)
  {
    if |b| > 1 {
      assert b[1..][0] == b[1];
      LittleEndianOfFour(b[1..]);
    }
  }

  lemma HashOfFour(k: Key, offset: nat, length: nat)
    requires MaskOk(offset, length)
    ensures length == 0 ==> Hash(k, offset, length) == 0
    ensures length == 1 ==> Hash(k, offset, length) == Shifted(k[offset], 0)
    ensures length == 2 ==> Hash(k, offset, length) == Shifted(k[offset], 0) + Shifted(k[offset + 1], 1)
    ensures length == 3 ==> Hash(k, offset, length) ==
                            Shifted(k[offset], 0) + Shifted(k[offset + 1], 1) + Shifted(k[offset + 2], 2)
    ensures length == 4 ==> Hash(k, offset, length) ==
                            Shifted(k[offset], 0) + Shifted(k[offset + 1], 1) + Shifted(k[offset + 2], 2)
                            + Shifted(k[offset + 3], 3)
  {
    if length > 0 { HashOfFour(k, offset, length - 1); }
  }

  /** The hash is the number the masked bytes stand for; a fourth byte of 128 or more brings
      all the bits above it along. */
  lemma HashIsLittleEndian(k: Key, offset: nat, length: nat)
    requires MaskOk(offset, length)
    ensures Hash(k, offset, length) == LittleEndian(k[offset..offset + length]) +
              if length == 4 && k[offset + 3] >= 128 then 0xFFFF_FFFF_0000_0000 else 0
  {
    HashOfFour(k, offset, length);
    LittleEndianOfFour(k[offset..offset + length]);
  }

  lemma {:induction false} ByteOf(bytes: seq<Byte>, i: nat)
    requires i < |bytes| <= 4
    ensures i == 0 ==> LittleEndian(bytes) % 0x100 == bytes[i]
    ensures i == 1 ==> LittleEndian(bytes) / 0x100 % 0x100 == bytes[i]
    ensures i == 2 ==> LittleEndian(bytes) / 0x1_0000 % 0x100 == bytes[i]
    ensures i == 3 ==> LittleEndian(bytes) / 0x100_0000 % 0x100 == bytes[i]
  {
    if i > 0 {
      ByteOf(bytes[1..], i - 1);
      assert bytes[1..][i - 1] == bytes[i];
      DivideTwice(bytes[0], LittleEndian(bytes[1..]));
    }
  }

  lemma DivideTwice(b: Byte, n: nat)
    ensures (b + 0x100 * n) / 0x100 == n
    ensures (b + 0x100 * n) / 0x1_0000 == n / 0x100
    ensures (b + 0x100 * n) / 0x100_0000 == n / 0x1_0000
  {
  }

  /** Each masked byte can be read back from the hash. */
  lemma HashDigits(k: Key, offset: nat, length: nat, i: nat)
    requires MaskOk(offset, length) && i < length <= 3
    ensures i == 0 ==> Hash(k, offset, length) % 0x100 == k[offset + i]
    ensures i == 1 ==> Hash(k, offset, length) / 0x100 % 0x100 == k[offset + i]
    ensures i == 2 ==> Hash(k, offset, length) / 0x1_0000 % 0x100 == k[offset + i]
  {
    HashIsLittleEndian(k, offset, length);
    ByteOf(k[offset..offset + length], i);
  }

  /** Every number below the bound is the hash of some key. */
  lemma EveryHashOccurs(h: nat, offset: nat, length: nat) returns (k: Key)
    requires MaskOk(offset, length) && length <= 3 && h < Space(length)
    ensures Hash(k, offset, length) == h
  {
    k := seq(8, i => if i == offset then h % 256
                     else if i == offset + 1 then h / 256 % 256
                     else if i == offset + 2 then h / 65536 % 256
                     else 0);
    Digits(h);
    if length > 0 { assert Hash(k, offset, 1) == h % 256; }
    if length > 1 { assert Hash(k, offset, 2) == h % 256 + 0x100 * (h / 256 % 256); }
    if length > 2 { assert Hash(k, offset, 3) == h % 256 + 0x100 * (h / 256 % 256) + 0x1_0000 * (h / 65536 % 256); }
  }

  lemma Digits(h: nat)
    ensures h < 0x100 ==> h % 256 == h
    ensures h < 0x1_0000 ==> h % 256 + 0x100 * (h / 256 % 256) == h
    ensures h < 0x100_0000 ==> h % 256 + 0x100 * (h / 256 % 256) + 0x1_0000 * (h / 65536 % 256) == h
  {
  }

  // ---- Lookup ----

  datatype Target = HostFound(host: Host) | NotFound | Undefined

  /** An `int` bound compared with a 64-bit hash. */
  function AsWide(n: Int32): (u: nat) {
    if n < 0 then n + 0x1_0000_0000_0000_0000 else n
  }

  predicate InRange(h: nat, r: Range) {
    AsWide(r.0) <= h <= AsWide(r.1)
  }

  /** The first range in map order that holds the hash. */
  function FirstMatch(m: seq<Entry>, h: nat): (t: Target)
    ensures t != Undefined
  {
    if m == [] then NotFound
    else if InRange(h, m[0].range) then HostFound(m[0].host)
    else FirstMatch(m[1..], h)
  }

  lemma {:induction false} FirstMatchFinds(m: seq<Entry>, h: nat)
    ensures FirstMatch(m, h).NotFound? <==> forall e :: e in m ==> !InRange(h, e.range)
    ensures FirstMatch(m, h).HostFound? ==> exists e :: e in m && InRange(h, e.range) && e.host == FirstMatch(m, h).host
  {
    if m != [] {
      FirstMatchFinds(m[1..], h);
      assert m == [m[0]] + m[1..];
      assert m[0] in m;
      if FirstMatch(m, h).HostFound? && !InRange(h, m[0].range) {
        var e :| e in m[1..] && InRange(h, e.range) && e.host == FirstMatch(m[1..], h).host;
        assert e in m;
      }
    }
  }

  function HostForKey(m: seq<Entry>, k: Key, offset: nat, length: nat): (t: Target)
    requires MaskOk(offset, length)
  {
    if length == 0 then NotFound else FirstMatch(m, Hash(k, offset, length))
  }

  predicate IsLocal(n: Node, k: Key, offset: nat, length: nat)
    requires MaskOk(offset, length)
  {
    length == 0 || n.start <= Hash(k, offset, length) <= n.end
  }

  /** A node without an entry of its own keeps only the keys whose masked bytes are 0. */
  lemma DefaultKeepsZero(peers: seq<Peer>, defaultHost: Host, k: Key, offset: nat, length: nat)
    requires MaskOk(offset, length) && length <= 3 && forall j :: 0 <= j < |peers| ==> !peers[j].local
    ensures IsLocal(Local(peers, defaultHost), k, offset, length) <==>
            LittleEndian(k[offset..offset + length]) == 0
  {
    LocalIsDefault(peers, defaultHost);
    HashIsLittleEndian(k, offset, length);
  }

  // ---- The class ----

  class DhtCore {
    const maskOffset: nat
    const maskLength: nat
    const supported: bool
    var neighbors: seq<Node>
    var localNode: Node
    var rangeToHost: seq<Entry>

    /** Not enough key for the mask is not looked for; too long a mask is refused. */
    constructor (peers: seq<Peer>, defaultHost: Host, maskOffset: nat, maskLength: nat)
      ensures supported <==> maskLength <= 8
      ensures this.maskOffset == maskOffset && this.maskLength == maskLength
      ensures supported ==>
                && neighbors == Remotes(peers) && localNode == Local(peers, defaultHost)
                && rangeToHost == RangeMap(Remotes(peers))
    {
      this.maskOffset, this.maskLength := maskOffset, maskLength;
      supported := maskLength <= 8;
      new;
      if supported {
        InitNeighbors(peers, defaultHost);
        InitRangeToHost();
      }
    }

    method InitNeighbors(peers: seq<Peer>, defaultHost: Host)
      modifies this
      ensures neighbors == Remotes(peers) && localNode == Local(peers, defaultHost)
    {
      neighbors := [];
      localNode := Node(defaultHost, 0, 0);
      for i := 0 to |peers|
        invariant neighbors == Remotes(peers[..i])
        invariant localNode == Local(peers[..i], defaultHost)
      {
        assert peers[..i + 1][..i] == peers[..i];
        var start, end := 0, 0;
        if peers[i].start.Number? {
          start := AsUnsigned(peers[i].start.n);
          if peers[i].end.Number? { end := AsUnsigned(peers[i].end.n); }
        }
        if peers[i].local {
          localNode := Node(peers[i].host, start, end);
        } else {
          neighbors := neighbors + [Node(peers[i].host, start, end)];
        }
      }
      assert peers[..|peers|] == peers;
    }

    method InitRangeToHost()
      requires NodesOk(neighbors)
      modifies this`rangeToHost
      ensures rangeToHost == RangeMap(neighbors)
    {
      rangeToHost := [];
      for i := 0 to |neighbors|
        invariant rangeToHost == RangeMap(neighbors[..i])
      {
        assert neighbors[..i + 1][..i] == neighbors[..i];
        var n := neighbors[i];
        rangeToHost := Assign(rangeToHost, (AsInt(n.start), AsInt(n.end)), n.host);
      }
      assert neighbors[..|neighbors|] == neighbors;
    }

    /** None: some byte is shifted out of its 32 bits, which the language leaves undefined. */
    method GenHash(k: Key) returns (h: Option<nat>)
      requires maskOffset + maskLength <= 8
      ensures h.Some? <==> MaskOk(maskOffset, maskLength)
      ensures h.Some? ==> h.value == Hash(k, maskOffset, maskLength)
      ensures h.Some? && maskLength <= 3 ==> h.value == LittleEndian(k[maskOffset..maskOffset + maskLength])
    {
      if maskLength <= 3 { HashIsLittleEndian(k, maskOffset, maskLength); }
      var subKey := 0;
      for i := 0 to maskLength
        invariant i <= 4 && subKey == Hash(k, maskOffset, i)
      {
        if i >= 4 { return None; }
        subKey := subKey + Shifted(k[maskOffset + i], i);
      }
      return Some(subKey);
    }

    method GetHostForKey(k: Key) returns (t: Target)
      requires maskOffset + maskLength <= 8
      ensures t == if MaskOk(maskOffset, maskLength) then HostForKey(rangeToHost, k, maskOffset, maskLength)
              else Undefined
    {
      if maskLength == 0 { return NotFound; }
      var hash := GenHash(k);
      if hash == None { return Undefined; }
      var h := hash.value;
      for i := 0 to |rangeToHost|
        invariant FirstMatch(rangeToHost, h) == FirstMatch(rangeToHost[i..], h)
      {
        if InRange(h, rangeToHost[i].range) { return HostFound(rangeToHost[i].host); }
      }
      return NotFound;
    }

    method IsLocalKey(k: Key) returns (b: Option<bool>)
      requires maskOffset + maskLength <= 8
      ensures b == if MaskOk(maskOffset, maskLength) then Some(IsLocal(localNode, k, maskOffset, maskLength)) else None
    {
      if maskLength == 0 { return Some(true); }
      var h := GenHash(k);
      if h == None { return None; }
      return Some(localNode.start <= h.value <= localNode.end);
    }
  }
}
