/** PORT_MESSAGE headers and frames, byte for byte. */
module PortMessage {
  import opened Words

  /** The two builds: sizes of the header and its pointer-sized parts, and the largest message. */
  datatype Layout = Layout32 | Layout64
  {
    function HeaderSize(): nat {
      if Layout32? then 24 else 40
    }

    function ClientIdSize(): nat {
      if Layout32? then 8 else 16
    }

    function MessageIdAt(): nat {
      8 + ClientIdSize()
    }

    /** ALPC_MAX_ALLOWED_MESSAGE_LENGTH. */
    function MaxLength(): nat {
      if Layout32? then 0xFFEF else 0xFFFF
    }
  }

  const LPC_REQUEST := 1
  const LPC_DATAGRAM := 3
  const LPC_PORT_CLOSED := 5
  const LPC_CLIENT_DIED := 6
  const LPC_CONNECTION_REQUEST := 10
  const LPC_CONTINUATION_REQUIRED := 0x2000

  // Header fields, read from a message or from a buffer that starts with one.

  function DataLength(b: Bytes): Word16
    requires |b| >= 24
  {
    Word16At(b, 0)
  }

  function TotalLength(b: Bytes): Word16
    requires |b| >= 24
  {
    Word16At(b, 2)
  }

  function MessageType(b: Bytes): Word16
    requires |b| >= 24
  {
    Word16At(b, 4)
  }

  /** LOBYTE of the type, which alone selects the branch of the dispatcher. */
  function Kind(b: Bytes): Byte
    requires |b| >= 24
  {
    MessageType(b) % TWO8
  }

  predicate ContinuationRequired(b: Bytes)
    requires |b| >= 24
  {
    MessageType(b) / LPC_CONTINUATION_REQUIRED % 2 == 1
  }

  function ClientId(l: Layout, b: Bytes): Bytes
    requires |b| >= l.HeaderSize()
  {
    b[8..8 + l.ClientIdSize()]
  }

  function MessageId(l: Layout, b: Bytes): Word32
    requires |b| >= l.HeaderSize()
  {
    Word32At(b, l.MessageIdAt())
  }

  /** A message as the kernel delivers it: complete, and its two lengths agree. */
  predicate IsMessage(l: Layout, m: Bytes) {
    && l.HeaderSize() <= |m| <= l.MaxLength()
    && TotalLength(m) == |m|
    && DataLength(m) + l.HeaderSize() == |m|
  }

  function Body(l: Layout, m: Bytes): Bytes
    requires IsMessage(l, m)
  {
    m[l.HeaderSize()..l.HeaderSize() + DataLength(m)]
  }

  /** A header put together from the bytes of its fields, in the order of PORT_MESSAGE, reads back as these
      fields, least significant byte first. */
  lemma FieldsReadBack(l: Layout, lengths: Bytes, kind: Bytes, info: Bytes, clientId: Bytes, id: Bytes, rest: Bytes)
    requires |lengths| == 4 && |kind| == 2 && |info| == 2 && |id| == 4
    requires if l.Layout32? then |clientId| == 8 && |rest| == 4 else |clientId| == 16 && |rest| == 12
    ensures var h := lengths + kind + info + clientId + id + rest;
      && |h| == l.HeaderSize()
      && DataLength(h) == lengths[0] + TWO8 * lengths[1] && TotalLength(h) == lengths[2] + TWO8 * lengths[3]
      && MessageType(h) == kind[0] + TWO8 * kind[1]
      && ClientId(l, h) == clientId
      && MessageId(l, h) == id[0] + TWO8 * id[1] + TWO16 * id[2] + TWO24 * id[3]
  {
    var h, at := lengths + kind + info + clientId + id + rest, 8 + |clientId|;
    assert h[..4] == lengths && h[4..6] == kind && h[8..at] == clientId && h[at..at + 4] == id;
    assert h[at] == id[0] && h[at + 1] == id[1] && h[at + 2] == id[2] && h[at + 3] == id[3];
  }

  /** Which branch a message takes, and whether a datagram is continued, on the bytes of its type. */
  lemma TypeBytes(b: Bytes)
    requires |b| >= 24
    ensures Kind(b) == b[4]
    ensures ContinuationRequired(b) <==> b[5] / 0x20 % 2 == 1
  {
    assert (b[4] + TWO8 * b[5]) / LPC_CONTINUATION_REQUIRED == b[5] / 0x20;
  }

  // Building a frame in a zeroed buffer.

  /** header + length as kept in a 16-bit TotalLength variable. */
  function StoredTotal(l: Layout, dataLength: Word16): Word16 {
    ToUShort(l.HeaderSize() + dataLength)
  }

  /** The length check of the senders. */
  predicate GuardRejects(l: Layout, dataLength: Word16) {
    StoredTotal(l, dataLength) > l.MaxLength()
  }

  /** The check rejects exactly the oversized messages if and only if the 16-bit sum does not wrap. */
  lemma GuardIsExactIffNoWrap(l: Layout, dataLength: Word16)
    ensures (GuardRejects(l, dataLength) <==> l.HeaderSize() + dataLength > l.MaxLength())
      <==> l.HeaderSize() + dataLength < TWO16
  {
  }

  /** The lengths that the check does reject: sixteen on a 32-bit build, none on a 64-bit one. */
  lemma GuardRejectsOnly(dataLength: Word16)
    ensures GuardRejects(Layout32, dataLength) <==> 0xFFD8 <= dataLength < 0xFFE8
    ensures !GuardRejects(Layout64, dataLength)
  {
  }

  /** A length that passes the check although the message is too long, and leaves no room for its header. */
  lemma GuardPassesWrappedLength()
    ensures !GuardRejects(Layout64, 0xFFFF) && StoredTotal(Layout64, 0xFFFF) == 39 < Layout64.HeaderSize()
  {
  }

  /** Header and data stay inside a block of the stored total, or the check rejects the length, if and
      only if the 16-bit sum does not wrap. */
  lemma WritesFitIffNoWrap(l: Layout, dataLength: Word16)
    ensures GuardRejects(l, dataLength) || l.HeaderSize() + dataLength <= StoredTotal(l, dataLength)
      <==> l.HeaderSize() + dataLength < TWO16
  {
  }

  function NewHeader(l: Layout, dataLength: Word16): (h: Bytes)
    requires l.HeaderSize() + dataLength < TWO16
    ensures |h| == l.HeaderSize()
    ensures DataLength(h) == dataLength && TotalLength(h) == l.HeaderSize() + dataLength
    ensures forall i :: 4 <= i < |h| ==> h[i] == 0
  {
    PutWord16(PutWord16(Zeros(l.HeaderSize()), 2, StoredTotal(l, dataLength)), 0, dataLength)
  }

  /** The frame of a zeroed block of exactly the total length, with its lengths and payload stored. */
  function NewFrame(l: Layout, payload: Bytes): (m: Bytes)
    requires l.HeaderSize() + |payload| < TWO16
    ensures |m| == l.HeaderSize() + |payload|
  {
    NewHeader(l, |payload|) + payload
  }

  /** Reading a new frame by its stored lengths gives back the payload; the rest of the header is zero. */
  lemma FrameRoundTrip(l: Layout, payload: Bytes)
    requires l.HeaderSize() + |payload| <= l.MaxLength()
    ensures var m := NewFrame(l, payload);
      && IsMessage(l, m) && Body(l, m) == payload
      && TotalLength(m) == DataLength(m) + l.HeaderSize()
      && (forall i :: 4 <= i < l.HeaderSize() ==> m[i] == 0)
      && (ToShort(DataLength(m)) == |payload| <==> |payload| < 0x8000)
  {
  }

  // What the kernel adds to a message it carries.

  function Stamp(l: Layout, m: Bytes, kind: Word16, id: Word32): (r: Bytes)
    requires |m| >= l.HeaderSize()
    ensures |r| == |m| && MessageType(r) == kind && MessageId(l, r) == id
    ensures TotalLength(r) == TotalLength(m) && DataLength(r) == DataLength(m)
    ensures r[l.HeaderSize()..] == m[l.HeaderSize()..]
    ensures forall i :: 0 <= i < |m| && i != 4 && i != 5 && !(l.MessageIdAt() <= i < l.MessageIdAt() + 4) ==>
      r[i] == m[i]
  {
    PutWord32(PutWord16(m, 4, kind), l.MessageIdAt(), id)
  }

  // The one message buffer of a server, which keeps stale bytes behind every message.

  /** The message a buffer starts with, as far as its stored total length says. */
  function MessageIn(b: Bytes): Bytes
    requires |b| >= 24 && TotalLength(b) <= |b|
  {
    b[..TotalLength(b)]
  }

  /** Whatever the buffer held, after a receive it starts with exactly the message received. */
  lemma ReceiveReplacesMessage(l: Layout, buffer: Bytes, m: Bytes)
    requires IsMessage(l, m) && |m| <= |buffer|
    ensures var b := Overwrite(buffer, m);
      && TotalLength(b) == |m| && MessageIn(b) == m
      && MessageType(b) == MessageType(m) && Kind(b) == Kind(m)
      && (ContinuationRequired(b) <==> ContinuationRequired(m))
      && ClientId(l, b) == ClientId(l, m) && MessageId(l, b) == MessageId(l, m)
  {
  }

  // What a request handler does to the message it is given.

  /** OnRequest changes the body of a message in place and leaves header and lengths alone. */
  function Answer(l: Layout, m: Bytes, handler: Bytes -> Bytes): Bytes
    requires IsMessage(l, m)
  {
    m[..l.HeaderSize()] + handler(Body(l, m))
  }

  ghost predicate KeepsLength(handler: Bytes -> Bytes) {
    forall b :: |handler(b)| == |b|
  }

  /** A reply and the request it belongs to: equal headers, so equal ids and lengths. */
  predicate IsReplyTo(l: Layout, reply: Bytes, request: Bytes) {
    && IsMessage(l, request) && IsMessage(l, reply)
    && |reply| == |request| && reply[..l.HeaderSize()] == request[..l.HeaderSize()]
  }

  /** The reply to a request has its id, its length and its transformed body. */
  lemma AnswerIsReply(l: Layout, m: Bytes, handler: Bytes -> Bytes)
    requires IsMessage(l, m) && KeepsLength(handler)
    ensures var a := Answer(l, m, handler);
      IsReplyTo(l, a, m) && MessageId(l, a) == MessageId(l, m) && Body(l, a) == handler(Body(l, m))
  {
  }

  /** The body of a whole message is everything behind its header. */
  lemma AnswerBytes(l: Layout, m: Bytes, handler: Bytes -> Bytes)
    requires IsMessage(l, m)
    ensures Answer(l, m, handler) == m[..l.HeaderSize()] + handler(m[l.HeaderSize()..])
  {
    assert Body(l, m) == m[l.HeaderSize()..];
  }

  // Moving bytes in place, as RtlZeroMemory and RtlCopyMemory do.

  method ZeroMemory(a: array<Byte>, count: nat)
    requires count <= a.Length
    modifies a
    ensures a[..] == Zeros(count) + old(a[count..])
  {
    for i := 0 to count
      invariant forall k :: 0 <= k < i ==> a[k] == 0
      invariant forall k :: i <= k < a.Length ==> a[k] == old(a[k])
    {
      a[i] := 0;
    }
  }

  method CopyMemory(a: array<Byte>, at: nat, src: Bytes)
    requires at + |src| <= a.Length
    modifies a
    ensures a[..] == old(a[..at]) + src + old(a[at + |src|..])
  {
    for i := 0 to |src|
      invariant forall k :: 0 <= k < i ==> a[at + k] == src[k]
      invariant forall k :: 0 <= k < a.Length && !(at <= k < at + i) ==> a[k] == old(a[k])
    {
      a[at + i] := src[i];
    }
  }

  method CopyToFront(a: array<Byte>, src: Bytes)
    requires |src| <= a.Length
    modifies a
    ensures a[..] == Overwrite(old(a[..]), src)
  {
    CopyMemory(a, 0, src);
    assert old(a[..0]) == [] && old(a[|src|..]) == old(a[..])[|src|..];
  }

  method StoreWord16(a: array<Byte>, at: nat, w: Word16)
    requires at + 2 <= a.Length
    modifies a
    ensures a[..] == PutWord16(old(a[..]), at, w)
  {
    a[at], a[at + 1] := w % TWO8, w / TWO8;
  }

  /** Store both lengths in a header of zeros. */
  method StoreLengths(l: Layout, a: array<Byte>, total: Word16, dataLength: Word16)
    requires l.HeaderSize() + dataLength < TWO16 && total == l.HeaderSize() + dataLength
    requires a.Length >= l.HeaderSize() && a[..l.HeaderSize()] == Zeros(l.HeaderSize())
    modifies a
    ensures a[..] == NewHeader(l, dataLength) + old(a[l.HeaderSize()..])
  {
    StoreWord16(a, 2, total);
    StoreWord16(a, 0, dataLength);
    assert a[..] == a[..l.HeaderSize()] + a[l.HeaderSize()..];
  }
}
