/** The request message of the DHT client and its reading by the server
    (lib/dht/DhtClient.cpp, lib/dht/DhtServer.cpp). One buffer per client holds the
    message; keys and values may live in it already ("buffered") or elsewhere. */
module Framing {
  import opened Basics
  import opened ValueIndex

  /** `DaqdbDhtMsg`: two sizes and a body with the key followed by the value. */
  datatype Message = Message(keySize: nat, valSize: nat, body: Bytes)

  /** A Key or Value: its own bytes, or `size` bytes of the message body from `at`. */
  datatype Operand = Unbuffered(data: Bytes) | Buffered(at: nat, size: nat)

  function Size(x: Operand): (n: nat) {
    match x
    case Unbuffered(data) => |data|
    case Buffered(_, size) => size
  }

  predicate Within(m: Message, x: Operand) {
    x.Buffered? ==> x.at + x.size <= |m.body|
  }

  /** The bytes the operand stands for at this moment. */
  function Content(m: Message, x: Operand): (b: Bytes)
    requires Within(m, x)
    ensures |b| == Size(x)
  {
    match x
    case Unbuffered(data) => data
    case Buffered(at, size) => m.body[at..at + size]
  }

  function WriteAt(body: Bytes, at: nat, data: Bytes): (b: Bytes)
    requires at + |data| <= |body|
    ensures |b| == |body|
  {
    body[..at] + data + body[at + |data|..]
  }

  // ---- Client ----

  function AllocKey(m: Message, size: nat): (m': Message) { m.(keySize := size) }
  function AllocValue(m: Message, size: nat): (m': Message) { m.(valSize := size) }
  function Write(m: Message, at: nat, data: Bytes): (m': Message)
    requires at + |data| <= |m.body|
  {
    m.(body := WriteAt(m.body, at, data))
  }

  /** Key and value fit the body. */
  predicate Fits(m: Message, key: Operand, val: Option<Operand>) {
    && Within(m, key) && Size(key) + (if val.Some? then Size(val.value) else 0) <= |m.body|
    && (val.Some? ==> Within(m, val.value))
  }

  function FillKey(m: Message, key: Operand): (m': Message)
    requires Within(m, key) && Size(key) <= |m.body|
  {
    if key.Buffered? then m else Message(|key.data|, m.valSize, WriteAt(m.body, 0, key.data))
  }

  /** `fillReqMsg`: a buffered key is taken to be in place, a value is always copied. */
  function Fill(m: Message, key: Operand, val: Option<Operand>): (m': Message)
    requires Fits(m, key, val)
  {
    var m1 := FillKey(m, key);
    match val
    case None => m1
    case Some(v) => Message(m1.keySize, Size(v), WriteAt(m1.body, Size(key), Content(m1, v)))
  }

  // ---- Server ----

  function DecodeKey(m: Message): (k: Bytes)
    requires m.keySize <= |m.body|
  {
    m.body[..m.keySize]
  }

  function DecodeValue(m: Message): (v: Bytes)
    requires m.keySize + m.valSize <= |m.body|
  {
    m.body[m.keySize..m.keySize + m.valSize]
  }

  // ---- Round trips ----

  lemma Written(body: Bytes, at: nat, data: Bytes)
    requires at + |data| <= |body|
    ensures WriteAt(body, at, data)[at..at + |data|] == data
    ensures WriteAt(body, at, data)[..at] == body[..at]
    ensures WriteAt(body, at, data)[at + |data|..] == body[at + |data|..]
  {
  }

  /** The key is as `allocKey` and its owner left it. */
  predicate KeyInPlace(m: Message, key: Operand) {
    key.Buffered? ==> key.at == 0 && key.size == m.keySize
  }

  lemma KeyArrives(m: Message, key: Operand)
    requires Within(m, key) && Size(key) <= |m.body| && KeyInPlace(m, key)
    ensures FillKey(m, key).keySize == Size(key) && FillKey(m, key).body[..Size(key)] == Content(m, key)
    ensures FillKey(m, key).body[Size(key)..] == m.body[Size(key)..]
  {
    if key.Unbuffered? { Written(m.body, 0, key.data); }
  }

  /** The server reads the key that was put, and as the value what the value operand stands
      for once the key is in the buffer. */
  lemma PutArrives(m: Message, key: Operand, val: Operand)
    requires Fits(m, key, Some(val)) && KeyInPlace(m, key)
    ensures var sent := Fill(m, key, Some(val));
            && sent.keySize + sent.valSize <= |sent.body|
            && DecodeKey(sent) == Content(m, key) && DecodeValue(sent) == Content(FillKey(m, key), val)
  {
    KeyArrives(m, key);
    var m1 := FillKey(m, key);
    Written(m1.body, Size(key), Content(m1, val));
  }

  /** Copying the key in changes a byte of a value that lives in the buffer. */
  ghost predicate Clobbers(m: Message, key: Operand, val: Operand)
    requires Within(m, val)
  {
    key.Unbuffered? && val.Buffered? &&
    exists p :: val.at <= p < val.at + val.size && p < |key.data| && key.data[p] != m.body[p]
  }

  lemma KeptIffNotClobbered(m: Message, key: Operand, val: Operand)
    requires Within(m, key) && Size(key) <= |m.body| && Within(m, val)
    ensures Content(FillKey(m, key), val) == Content(m, val) <==> !Clobbers(m, key, val)
  {
    if val.Buffered? && key.Unbuffered? {
      var b, b' := m.body, WriteAt(m.body, 0, key.data);
      assert forall p :: 0 <= p < |b| ==> b'[p] == if p < |key.data| then key.data[p] else b[p];
      SlicesDiffer(b, b', val.at, val.size);
    }
  }

  lemma SlicesDiffer(b: Bytes, b': Bytes, at: nat, size: nat)
    requires |b| == |b'| && at + size <= |b|
    ensures b[at..at + size] != b'[at..at + size] <==> exists p :: at <= p < at + size && b[p] != b'[p]
  {
    if b[at..at + size] != b'[at..at + size] {
      var q :| 0 <= q < size && b[at..at + size][q] != b'[at..at + size][q];
      assert b[at + q] != b'[at + q];
    }
    if p :| at <= p < at + size && b[p] != b'[p] {
      assert b[at..at + size][p - at] != b'[at..at + size][p - at];
    }
  }

  /** Whatever mix of buffered and unbuffered operands: the server reads exactly the key, and
      exactly the value if and only if the key was not copied over it. */
  lemma PutRoundTripIff(m: Message, key: Operand, val: Operand)
    requires Fits(m, key, Some(val)) && KeyInPlace(m, key)
    ensures var sent := Fill(m, key, Some(val));
            && sent.keySize + sent.valSize <= |sent.body| && DecodeKey(sent) == Content(m, key)
            && (DecodeValue(sent) == Content(m, val) <==> !Clobbers(m, key, val))
  {
    PutArrives(m, key, val);
    KeptIffNotClobbered(m, key, val);
  }

  /** A value allocated for a key of this length is never copied over. */
  lemma InPlaceIsNotClobbered(m: Message, key: Operand, val: Operand)
    requires Within(m, val) && (val.Buffered? ==> val.at >= Size(key))
    ensures !Clobbers(m, key, val)
  {
  }

  /** Get and Remove send the key alone. */
  lemma KeyRoundTrip(m: Message, key: Operand)
    requires Fits(m, key, None) && KeyInPlace(m, key)
    ensures var sent := Fill(m, key, None); sent.keySize <= |sent.body| && DecodeKey(sent) == Content(m, key)
  {
    KeyArrives(m, key);
  }

  // ---- Sessions: what happens between allocating an operand in the buffer and the put ----

  /** What else a client may do with its buffer meanwhile; keys are 8 bytes. */
  datatype Call =
    | Lookup(key: Key)                     // Get or Remove, the key not in the buffer
    | LookupBuffered                       // Get or Remove with the buffered key
    | Put(key: Key, val: Bytes)            // neither operand in the buffer
    | PutBufferedKey(val: Bytes)           // under the buffered key
    | PutBufferedValue(key: Key, size: nat)  // with the buffered value
    | TakeKey                              // another allocKey: refused
    | TakeValue(size: nat)                 // alloc of a value
    | WriteValue(data: Bytes)              // the owner of the buffered value writes it

  predicate CallFits(capacity: nat, c: Call) {
    8 + (match c
         case Put(_, val) => |val|
         case PutBufferedKey(val) => |val|
         case PutBufferedValue(_, size) => size
         case WriteValue(data) => |data|
         case _ => 0) <= capacity
  }

  function Apply(m: Message, c: Call): (m': Message)
    requires CallFits(|m.body|, c)
    ensures |m'.body| == |m.body|
  {
    match c
    case Lookup(key) => Fill(m, Unbuffered(key), None)
    case LookupBuffered => Fill(m, Buffered(0, 8), None)
    case Put(key, val) => Fill(m, Unbuffered(key), Some(Unbuffered(val)))
    case PutBufferedKey(val) => Fill(m, Buffered(0, 8), Some(Unbuffered(val)))
    case PutBufferedValue(key, size) => Fill(m, Unbuffered(key), Some(Buffered(8, size)))
    case TakeKey => m
    case TakeValue(size) => AllocValue(m, size)
    case WriteValue(data) => Write(m, 8, data)
  }

  ghost predicate AllFit(capacity: nat, calls: seq<Call>) {
    forall i :: 0 <= i < |calls| ==> CallFits(capacity, calls[i])
  }

  function Session(m: Message, calls: seq<Call>): (m': Message)
    requires forall i :: 0 <= i < |calls| ==> CallFits(|m.body|, calls[i])
    ensures |m'.body| == |m.body|
  {
    if calls == [] then m else Apply(Session(m, calls[..|calls| - 1]), calls[|calls| - 1])
  }

  /** The last key that was copied into the buffer. */
  function LastKey(calls: seq<Call>): (k: Option<Key>) {
    if calls == [] then None
    else match calls[|calls| - 1]
      case Lookup(key) => Some(key)
      case Put(key, _) => Some(key)
      case PutBufferedValue(key, _) => Some(key)
      case _ => LastKey(calls[..|calls| - 1])
  }

  /** The last byte written at position p of the value's place. */
  function LastByte(calls: seq<Call>, p: nat): (b: Option<Byte>) {
    if calls == [] then None
    else
      var before := LastByte(calls[..|calls| - 1], p);
      match calls[|calls| - 1]
      case Put(_, val) => if p < |val| then Some(val[p]) else before
      case PutBufferedKey(val) => if p < |val| then Some(val[p]) else before
      case WriteValue(data) => if p < |data| then Some(data[p]) else before
      case _ => before
  }

  lemma ApplyKey(m: Message, c: Call)
    requires CallFits(|m.body|, c) && m.keySize == 8
    ensures Apply(m, c).keySize == 8
    ensures Apply(m, c).body[..8] == if LastKey([c]).Some? then LastKey([c]).value else m.body[..8]
  {
    assert [c][..0] == [];
    match c
    case Lookup(key) => Written(m.body, 0, key);
    case Put(key, val) =>
      Written(m.body, 0, key);
      Written(WriteAt(m.body, 0, key), 8, val);
    case PutBufferedKey(val) => Written(m.body, 8, val);
    case PutBufferedValue(key, size) =>
      Written(m.body, 0, key);
      var b := WriteAt(m.body, 0, key);
      Written(b, 8, b[8..8 + size]);
    case WriteValue(data) => Written(m.body, 8, data);
    case _ =>
  }

  lemma {:induction false} SessionKey(m: Message, calls: seq<Call>)
    requires AllFit(|m.body|, calls) && m.keySize == 8 && |m.body| >= 8
    ensures Session(m, calls).keySize == 8
    ensures Session(m, calls).body[..8] == if LastKey(calls).Some? then LastKey(calls).value else m.body[..8]
  {
    if calls != [] {
      var n := |calls| - 1;
      SessionKey(m, calls[..n]);
      ApplyKey(Session(m, calls[..n]), calls[n]);
      assert [calls[n]][..0] == [];
    }
  }

  /** After allocKey and writing k, whatever else the client did before the put: the server
      reads k if and only if no other key was copied into the buffer, or k itself last. */
  lemma BufferedKeyArrivesIff(m: Message, k: Key, calls: seq<Call>, val: Option<Operand>)
    requires AllFit(|m.body|, calls) && |m.body| >= 8 && Fits(m, Buffered(0, 8), val)
    ensures var sent := Fill(Session(Write(AllocKey(m, 8), 0, k), calls), Buffered(0, 8), val);
            sent.keySize <= |sent.body| && (DecodeKey(sent) == k <==> LastKey(calls) in {None, Some(k)})
  {
    var m0 := Write(AllocKey(m, 8), 0, k);
    Written(m.body, 0, k);
    SessionKey(m0, calls);
    var m1 := Session(m0, calls);
    if val.Some? {
      PutArrives(m1, Buffered(0, 8), val.value);
    } else {
      KeyRoundTrip(m1, Buffered(0, 8));
    }
  }

  lemma ApplyByte(m: Message, c: Call, p: nat)
    requires CallFits(|m.body|, c) && 8 + p < |m.body|
    ensures Apply(m, c).body[8 + p] == if LastByte([c], p).Some? then LastByte([c], p).value else m.body[8 + p]
  {
    assert [c][..0] == [];
    match c
    case PutBufferedValue(key, size) =>
      var b := WriteAt(m.body, 0, key);
      assert WriteAt(b, 8, b[8..8 + size]) == b;
    case _ =>
  }

  lemma {:induction false} SessionByte(m: Message, calls: seq<Call>, p: nat)
    requires AllFit(|m.body|, calls) && 8 + p < |m.body|
    ensures Session(m, calls).body[8 + p] == if LastByte(calls, p).Some? then LastByte(calls, p).value
            else m.body[8 + p]
  {
    if calls != [] {
      var n := |calls| - 1;
      SessionByte(m, calls[..n], p);
      ApplyByte(Session(m, calls[..n]), calls[n], p);
      assert [calls[n]][..0] == [];
    }
  }

  /** After allocating a value and writing v, whatever else the client did before the put:
      the server reads v if and only if every byte of it that was overwritten was last
      overwritten with what it was. */
  lemma BufferedValueArrivesIff(m: Message, v: Bytes, calls: seq<Call>, key: Operand)
    requires AllFit(|m.body|, calls) && 8 + |v| <= |m.body| && Size(key) == 8
    requires key.Buffered? ==> key.at == 0 && m.keySize == 8
    ensures var sent := Fill(Session(Write(AllocValue(m, |v|), 8, v), calls), key, Some(Buffered(8, |v|)));
            && sent.keySize + sent.valSize <= |sent.body|
            && (DecodeValue(sent) == v <==> forall p :: 0 <= p < |v| ==> LastByte(calls, p) in {None, Some(v[p])})
  {
    var m0 := Write(AllocValue(m, |v|), 8, v);
    var m1 := Session(m0, calls);
    var val := Buffered(8, |v|);
    if key.Buffered? { SessionKey(m0, calls); }
    InPlaceIsNotClobbered(m1, key, val);
    PutRoundTripIff(m1, key, val);
    forall p: nat | p < |v|
      ensures m1.body[8 + p] == if LastByte(calls, p).Some? then LastByte(calls, p).value else v[p]
    {
      SessionByte(m0, calls, p);
    }
    assert forall p :: 0 <= p < |v| ==> Content(m1, val)[p] == m1.body[8 + p];
    if forall p :: 0 <= p < |v| ==> LastByte(calls, p) in {None, Some(v[p])} {
      assert Content(m1, val) == v;
    }
  }

  /** A whole session with both operands in the buffer: whichever of the two is written
      first, what was written is what the server reads. */
  lemma BufferedSession(m: Message, k: Bytes, v: Bytes, valueFirst: bool)
    requires |k| + |v| <= |m.body|
    ensures var m1 := AllocValue(AllocKey(m, |k|), |v|);
            var m2 := if valueFirst then Write(Write(m1, |k|, v), 0, k) else Write(Write(m1, 0, k), |k|, v);
            var sent := Fill(m2, Buffered(0, |k|), Some(Buffered(|k|, |v|)));
            && sent.keySize + sent.valSize <= |sent.body|
            && DecodeKey(sent) == k && DecodeValue(sent) == v
  {
    var m1 := AllocValue(AllocKey(m, |k|), |v|);
    var m2 := if valueFirst then Write(Write(m1, |k|, v), 0, k) else Write(Write(m1, 0, k), |k|, v);
    assert m2.body == k + v + m.body[|k| + |v|..];
    PutArrives(m2, Buffered(0, |k|), Buffered(|k|, |v|));
  }

  /** A client that gets another key between filling its buffered key and putting it: the
      server stores the value under the other key. */
  lemma InterleavedGetRedirectsPut(m: Message, k: Key, other: Key, v: Bytes)
    requires 8 + |v| <= |m.body| && k != other
    ensures var sent := Fill(Session(Write(AllocKey(m, 8), 0, k), [Lookup(other)]), Buffered(0, 8),
                             Some(Unbuffered(v)));
            && sent.keySize + sent.valSize <= |sent.body| && DecodeKey(sent) == other && DecodeValue(sent) == v
  {
    var m0 := Write(AllocKey(m, 8), 0, k);
    assert [Lookup(other)][..0] == [];
    SessionKey(m0, [Lookup(other)]);
    PutArrives(Session(m0, [Lookup(other)]), Buffered(0, 8), Unbuffered(v));
  }

  // ---- The class ----

  class DhtClient {
    const body: array<Byte>
    var keySize: nat
    var valSize: nat
    var reqMsgBufInUse: bool
    var reqMsgBufValInUse: bool

    ghost function Abs(): Message
      reads this, body
    {
      Message(keySize, valSize, body[..])
    }

    /** `capacity` is what the allocated request buffer leaves for the body. */
    constructor (capacity: nat)
      ensures body.Length == capacity && fresh(body) && !reqMsgBufInUse && !reqMsgBufValInUse
    {
      body := new Byte[capacity](_ => 0);
      keySize, valSize, reqMsgBufInUse, reqMsgBufValInUse := 0, 0, false, false;
    }

    method AllocKeyInBuffer(size: nat) returns (key: Option<Operand>)
      modifies this
      ensures old(reqMsgBufInUse) ==> key == None && Abs() == old(Abs())
      ensures !old(reqMsgBufInUse) ==> key == Some(Buffered(0, size)) && Abs() == AllocKey(old(Abs()), size)
      ensures reqMsgBufInUse && reqMsgBufValInUse == old(reqMsgBufValInUse)
    {
      if reqMsgBufInUse { return None; }
      reqMsgBufInUse := true;
      keySize := size;
      return Some(Buffered(0, size));
    }

    method FreeKey()
      modifies this`reqMsgBufInUse
      ensures !reqMsgBufInUse
    {
      reqMsgBufInUse := false;
    }

    method AllocValueInBuffer(key: Operand, size: nat) returns (val: Option<Operand>)
      modifies this
      ensures old(reqMsgBufValInUse) ==> val == None && Abs() == old(Abs())
      ensures !old(reqMsgBufValInUse) ==> val == Some(Buffered(Size(key), size))
      ensures !old(reqMsgBufValInUse) ==> Abs() == AllocValue(old(Abs()), size)
      ensures reqMsgBufValInUse && reqMsgBufInUse == old(reqMsgBufInUse)
    {
      if reqMsgBufValInUse { return None; }
      reqMsgBufValInUse := true;
      valSize := size;
      return Some(Buffered(Size(key), size));
    }

    method FreeValue()
      modifies this`reqMsgBufValInUse
      ensures !reqMsgBufValInUse
    {
      reqMsgBufValInUse := false;
    }

    /** `memcpy` into the body. */
    method CopyIn(at: nat, data: Bytes)
      requires at + |data| <= body.Length
      modifies body
      ensures body[..] == WriteAt(old(body[..]), at, data)
    {
      for i := 0 to |data|
        invariant forall j :: 0 <= j < i ==> body[at + j] == data[j]
        invariant forall j :: 0 <= j < body.Length && !(at <= j < at + i) ==> body[j] == old(body[j])
      {
        body[at + i] := data[i];
      }
      assert body[..] == WriteAt(old(body[..]), at, data);
    }

    method FillReqMsg(key: Operand, val: Option<Operand>)
      requires Fits(Abs(), key, val)
      modifies this`keySize, this`valSize, body
      ensures Abs() == Fill(old(Abs()), key, val)
    {
      if key.Unbuffered? {
        keySize := |key.data|;
        CopyIn(0, key.data);
      }
      assert Abs() == FillKey(old(Abs()), key);
      if val.Some? {
        var data := match val.value
          case Unbuffered(d) => d
          case Buffered(at, size) => body[at..at + size];
        assert data == Content(Abs(), val.value);
        valSize := |data|;
        CopyIn(Size(key), data);
      }
    }
  }
}
