/** Byte-stream conduits: the `[type][length][data]` frames, the two decoders of them, and the loop that feeds a portal. */
module Framing {
  import opened Bytes

  datatype Kind = Ssh | Unix

  datatype ConduitMessage =
    | Handshake(text: seq<byte>)
    | Content(data: seq<byte>)
    | Close(reason: Option<seq<byte>>)

  /** What a source yields: nothing more, an error, or a message. */
  datatype Item = End | Broken | Message(message: ConduitMessage)

  const U32_LIMIT: nat := 0x1_0000_0000

  // ------------------------------------------------------------------------------------------------
  // The writer's and the reader's primitives

  function Be(n: nat, w: nat): (b: seq<byte>)
    ensures |b| == w
  {
    if w == 0 then [] else Be(n / 256, w - 1) + [n % 256]
  }

  function FromBe(b: seq<byte>): (n: nat)
    ensures n < Pow256(|b|)
  {
    if b == [] then 0 else 256 * FromBe(b[..|b| - 1]) + b[|b| - 1]
  }

  lemma {:induction false} BeTruncates(n: nat, w: nat)
    ensures FromBe(Be(n, w)) == n % Pow256(w)
  {
    if w > 0 {
      BeTruncates(n / 256, w - 1);
      assert Be(n, w)[..w - 1] == Be(n / 256, w - 1);
      ShiftMod(n, Pow256(w - 1));
    }
  }

  lemma ShiftMod(n: nat, m: nat)
    requires m > 0
    ensures n % (256 * m) == 256 * (n / 256 % m) + n % 256
  {
    var q := n / 256;
    var k, r := q / m, q % m;
    assert q == m * k + r;
    assert n == 256 * q + n % 256;
    Distribute(m, k, r);
    DivideUnique(n, 256 * m, k, 256 * r + n % 256);
  }

  /** The most significant byte comes first. */
  lemma {:induction false} BigEndian(n: nat, w: nat, i: nat)
    requires i < w
    ensures Be(n, w)[i] == n / Pow256(w - 1 - i) % 256
    decreases w
  {
    if i < w - 1 {
      BigEndian(n / 256, w - 1, i);
      DivTwice(n, Pow256(w - 2 - i));
    }
  }

  /** `write_u32`, big-endian, of `len as u32`. */
  function Be32(n: nat): (b: seq<byte>)
    ensures |b| == 4
  {
    Be(n, 4)
  }

  function FromBe32(b: seq<byte>): (n: nat)
    requires |b| == 4
  {
    FromBe(b)
  }

  lemma Be32Truncates(n: nat)
    ensures FromBe32(Be32(n)) == n % U32_LIMIT
  {
    PowersOf256();
    BeTruncates(n, 4);
  }

  /** A length and that many bytes; `None` when the stream ends first. */
  function ReadBlock(stream: seq<byte>): (r: Option<Split>)
    ensures r.Some? ==> |stream| == 4 + |r.value.inner| + |r.value.rest|
  {
    if |stream| < 4 then None
    else
      var len := FromBe32(stream[..4]);
      if |stream| < 4 + len then None else Some(Split(stream[4..4 + len], stream[4 + len..]))
  }

  // ------------------------------------------------------------------------------------------------
  // The two decoders

  /** ssh: type, length and data are read for every type, then the type is looked at. */
  function NextSsh(utf8: seq<byte> -> bool, stream: seq<byte>): (r: (Item, seq<byte>))
    ensures r.0.Message? ==> |r.1| < |stream|
  {
    if stream == [] then (End, [])
    else
      var block := ReadBlock(stream[1..]);
      if block.None? then (Broken, [])
      else
        var data, rest := block.value.inner, block.value.rest;
        match stream[0]
        case 0 => if utf8(data) then (Message(Handshake(data)), rest) else (Broken, rest)
        case 1 => (Message(Content(data)), rest)
        case 2 => (Message(Close(if utf8(data) then Some(data) else None)), rest)
        case _ => (Broken, rest)
  }

  /** Unix socket: the type decides what is read; an exhausted stream is an error, a close has no length. */
  function NextUnix(utf8: seq<byte> -> bool, stream: seq<byte>): (r: (Item, seq<byte>))
    ensures r.0.Message? ==> |r.1| < |stream|
  {
    if stream == [] then (Broken, [])
    else
      match stream[0]
      case 0 =>
        var block := ReadBlock(stream[1..]);
        if block.None? then (Broken, [])
        else if utf8(block.value.inner) then (Message(Handshake(block.value.inner)), block.value.rest)
        else (Broken, block.value.rest)
      case 1 =>
        var block := ReadBlock(stream[1..]);
        if block.None? then (Broken, []) else (Message(Content(block.value.inner)), block.value.rest)
      case 2 => (Message(Close(None)), stream[1..])
      case _ => (Broken, stream[1..])
  }

  /** One pull: the item and what is left of the stream. */
  type Decoder = seq<byte> -> (Item, seq<byte>)

  function Source(kind: Kind, utf8: seq<byte> -> bool): Decoder {
    if kind.Ssh? then stream => NextSsh(utf8, stream) else stream => NextUnix(utf8, stream)
  }

  // ------------------------------------------------------------------------------------------------
  // The receive loop

  /** What reaches the portal's mailbox. */
  datatype Cast = CastHandshake(text: seq<byte>) | CastContent(data: seq<byte>) | CastClose

  function ToCast(m: ConduitMessage): Cast {
    match m
    case Handshake(text) => CastHandshake(text)
    case Content(data) => CastContent(data)
    case Close(_) => CastClose
  }

  /** The loop goes on after this item. */
  predicate Goes(item: Item) {
    item.Message? && !item.message.Close?
  }

  /** The casts a portal gets from a stream when it takes `room` more messages before it stops. */
  function Emitted(next: Decoder, stream: seq<byte>, room: nat): seq<Cast>
    decreases room
  {
    if room == 0 then []
    else
      var (item, rest) := next(stream);
      if Goes(item) then [ToCast(item.message)] + Emitted(next, rest, room - 1)
      else [CastClose]
  }

  /** For every byte stream, well formed or not, a portal behind an ssh conduit and one behind a unix socket get the
      same messages. */
  lemma SourcesIndistinguishable(utf8: seq<byte> -> bool, stream: seq<byte>, room: nat)
    ensures Emitted(Source(Ssh, utf8), stream, room) == Emitted(Source(Unix, utf8), stream, room)
  {
    forall s ensures SamePull(Source(Ssh, utf8), Source(Unix, utf8), s) {
      PullsAgree(utf8, s);
    }
    SameCasts(Source(Ssh, utf8), Source(Unix, utf8), stream, room);
  }

  /** Both decoders go on after the same message, or neither goes on. */
  predicate SamePull(a: Decoder, b: Decoder, stream: seq<byte>) {
    (Goes(a(stream).0) <==> Goes(b(stream).0)) && (Goes(a(stream).0) ==> a(stream) == b(stream))
  }

  lemma PullsAgree(utf8: seq<byte> -> bool, stream: seq<byte>)
    ensures SamePull(Source(Ssh, utf8), Source(Unix, utf8), stream)
  {
  }

  lemma {:induction false} SameCasts(a: Decoder, b: Decoder, stream: seq<byte>, room: nat)
    requires forall s :: SamePull(a, b, s)
    ensures Emitted(a, stream, room) == Emitted(b, stream, room)
    decreases room
  {
    if room > 0 {
      assert SamePull(a, b, stream);
      if Goes(a(stream).0) {
        SameCasts(a, b, a(stream).1, room - 1);
      }
    }
  }

  /** Whatever arrives, a portal that keeps listening gets handshakes and contents and then exactly one close. */
  lemma {:induction false} OneClose(kind: Kind, utf8: seq<byte> -> bool, stream: seq<byte>, room: nat)
    requires |stream| < room
    ensures ClosesOnce(Emitted(Source(kind, utf8), stream, room))
    decreases |stream|
  {
    var (item, rest) := Source(kind, utf8)(stream);
    if Goes(item) {
      OneClose(kind, utf8, rest, room - 1);
      ClosesLater(ToCast(item.message), Emitted(Source(kind, utf8), rest, room - 1));
    }
  }

  /** A close at the end, and only there. */
  predicate ClosesOnce(casts: seq<Cast>) {
    && casts != [] && casts[|casts| - 1] == CastClose
    && forall i :: 0 <= i < |casts| - 1 ==> casts[i] != CastClose
  }

  lemma ClosesLater(first: Cast, casts: seq<Cast>)
    requires first != CastClose && ClosesOnce(casts)
    ensures ClosesOnce([first] + casts)
  {
  }

  // ------------------------------------------------------------------------------------------------
  // Writing

  function WireForm(m: ConduitMessage): seq<byte> {
    match m
    case Handshake(text) => [0] + Be32(|text|) + text
    case Content(data) => [1] + Be32(|data|) + data
    case Close(_) => [2]
  }

  function Wire(ms: seq<ConduitMessage>): seq<byte> {
    if ms == [] then [] else WireForm(ms[0]) + Wire(ms[1..])
  }

  function Payload(m: ConduitMessage): seq<byte>
    requires !m.Close?
  {
    if m.Handshake? then m.text else m.data
  }

  /** A message a portal sends: its handshake, which is text, or content. */
  predicate Sendable(utf8: seq<byte> -> bool, m: ConduitMessage) {
    !m.Close? && (m.Handshake? ==> utf8(m.text))
  }

  predicate AllSendable(utf8: seq<byte> -> bool, ms: seq<ConduitMessage>) {
    ms == [] || (Sendable(utf8, ms[0]) && |Payload(ms[0])| < U32_LIMIT && AllSendable(utf8, ms[1..]))
  }

  lemma BlockRead(data: seq<byte>, rest: seq<byte>)
    requires |data| < U32_LIMIT
    ensures ReadBlock(Be32(|data|) + data + rest) == Some(Split(data, rest))
  {
    Be32Truncates(|data|);
    var s := Be32(|data|) + data + rest;
    assert s[..4] == Be32(|data|) && s[4..4 + |data|] == data && s[4 + |data|..] == rest;
  }

  /** Either source reads back what either sink wrote if and only if the length fits the 4-byte header. */
  lemma MessageReadBack(kind: Kind, utf8: seq<byte> -> bool, m: ConduitMessage, rest: seq<byte>)
    requires Sendable(utf8, m)
    ensures Source(kind, utf8)(WireForm(m) + rest) == (Message(m), rest) <==> |Payload(m)| < U32_LIMIT
  {
    if |Payload(m)| < U32_LIMIT {
      ShortReadBack(kind, utf8, m, rest);
    } else {
      ShortMessages(kind, utf8, WireForm(m) + rest);
    }
  }

  lemma ShortReadBack(kind: Kind, utf8: seq<byte> -> bool, m: ConduitMessage, rest: seq<byte>)
    requires Sendable(utf8, m) && |Payload(m)| < U32_LIMIT
    ensures Source(kind, utf8)(WireForm(m) + rest) == (Message(m), rest)
  {
    var data, s := Payload(m), WireForm(m) + rest;
    BlockRead(data, rest);
    AfterFirst(s[0], Be32(|data|), data, rest);
    BlockDecoded(kind, utf8, m, s, rest);
  }

  lemma AfterFirst(first: byte, head: seq<byte>, data: seq<byte>, rest: seq<byte>)
    ensures ([first] + head + data + rest)[1..] == head + data + rest
  {
  }

  lemma BlockDecoded(kind: Kind, utf8: seq<byte> -> bool, m: ConduitMessage, stream: seq<byte>, rest: seq<byte>)
    requires Sendable(utf8, m) && stream != [] && stream[0] == (if m.Handshake? then 0 else 1)
    requires ReadBlock(stream[1..]) == Some(Split(Payload(m), rest))
    ensures Source(kind, utf8)(stream) == (Message(m), rest)
  {
  }

  /** No source yields a payload longer than the header can say. */
  lemma ShortMessages(kind: Kind, utf8: seq<byte> -> bool, stream: seq<byte>)
    ensures var item := Source(kind, utf8)(stream).0;
      Goes(item) ==> |Payload(item.message)| < U32_LIMIT
  {
    PowersOf256();
  }

  /** What was sent arrives, in order, followed by the close that ends the stream. */
  lemma StreamReadBack(kind: Kind, utf8: seq<byte> -> bool, ms: seq<ConduitMessage>, room: nat)
    requires AllSendable(utf8, ms) && |ms| < room
    ensures Emitted(Source(kind, utf8), Wire(ms), room) == CastsThenClose(ms)
    ensures HandsOverAll(ms, Emitted(Source(kind, utf8), Wire(ms), room))
  {
    CastsHandOver(ms);
    assert Wire(ms)[..|Wire(ms)|] == Wire(ms);
    CutStream(kind, utf8, ms, |Wire(ms)|, room);
    AllWhole(ms);
    assert ms[..|ms|] == ms;
  }

  lemma {:induction false} AllWhole(ms: seq<ConduitMessage>)
    ensures Whole(ms, |Wire(ms)|) == |ms|
    decreases |ms|
  {
    if ms != [] {
      AllWhole(ms[1..]);
    }
  }

  /** How many of the messages `ms` lie completely within the first `cut` bytes written. */
  function Whole(ms: seq<ConduitMessage>, cut: nat): (k: nat)
    ensures k <= |ms|
  {
    if ms == [] || cut < |WireForm(ms[0])| then 0 else 1 + Whole(ms[1..], cut - |WireForm(ms[0])|)
  }

  lemma {:induction false} WholeMessages(ms: seq<ConduitMessage>, cut: nat)
    ensures |Wire(ms[..Whole(ms, cut)])| <= cut
    ensures Whole(ms, cut) < |ms| ==> cut < |Wire(ms[..Whole(ms, cut) + 1])|
    decreases |ms|
  {
    if ms == [] {
    } else if cut < |WireForm(ms[0])| {
      WireCons(ms, 0);
    } else {
      var c := cut - |WireForm(ms[0])|;
      WholeMessages(ms[1..], c);
      WholeStep(ms, c, Whole(ms[1..], c));
    }
  }

  lemma WholeStep(ms: seq<ConduitMessage>, c: nat, k: nat)
    requires ms != [] && k <= |ms[1..]| && |Wire(ms[1..][..k])| <= c
    requires k < |ms[1..]| ==> c < |Wire(ms[1..][..k + 1])|
    ensures |Wire(ms[..k + 1])| <= |WireForm(ms[0])| + c
    ensures k + 1 < |ms| ==> |WireForm(ms[0])| + c < |Wire(ms[..k + 2])|
  {
    WireCons(ms, k);
    if k + 1 < |ms| {
      WireCons(ms, k + 1);
    }
  }

  /** The casts of `ms`, then the close. */
  function CastsThenClose(ms: seq<ConduitMessage>): seq<Cast> {
    if ms == [] then [CastClose] else [ToCast(ms[0])] + CastsThenClose(ms[1..])
  }

  /** The cast hands over this very message. */
  predicate HandsOver(m: ConduitMessage, c: Cast) {
    && (m.Handshake? <==> c.CastHandshake?) && (m.Handshake? && c.CastHandshake? ==> c.text == m.text)
    && (m.Content? <==> c.CastContent?) && (m.Content? && c.CastContent? ==> c.data == m.data)
  }

  /** One cast for each message, in order, then the close. */
  predicate HandsOverAll(ms: seq<ConduitMessage>, casts: seq<Cast>) {
    && |casts| == |ms| + 1 && casts[|ms|] == CastClose
    && forall i :: 0 <= i < |ms| ==> HandsOver(ms[i], casts[i])
  }

  lemma {:induction false} CastsHandOver(ms: seq<ConduitMessage>)
    ensures HandsOverAll(ms, CastsThenClose(ms))
    decreases |ms|
  {
    if ms != [] {
      CastsHandOver(ms[1..]);
      var casts := CastsThenClose(ms);
      forall i | 0 <= i < |ms| ensures HandsOver(ms[i], casts[i]) {
        if i > 0 {
          assert HandsOver(ms[1..][i - 1], casts[1..][i - 1]);
        }
      }
    }
  }

  /** A decoder that reads back written messages, and makes nothing of a part of one. */
  ghost predicate ReadsBack(next: Decoder, utf8: seq<byte> -> bool) {
    && !Goes(next([]).0)
    && (forall m, rest :: Sendable(utf8, m) && |Payload(m)| < U32_LIMIT ==> next(WireForm(m) + rest) == (Message(m), rest))
    && (forall m, cut :: 0 <= cut < |WireForm(m)| && Sendable(utf8, m) && |Payload(m)| < U32_LIMIT
          ==> !Goes(next(WireForm(m)[..cut]).0))
  }

  lemma SourceReadsBack(kind: Kind, utf8: seq<byte> -> bool)
    ensures ReadsBack(Source(kind, utf8), utf8)
  {
    forall m, rest | Sendable(utf8, m) && |Payload(m)| < U32_LIMIT
      ensures Source(kind, utf8)(WireForm(m) + rest) == (Message(m), rest)
    {
      MessageReadBack(kind, utf8, m, rest);
    }
    forall m, cut | 0 <= cut < |WireForm(m)| && Sendable(utf8, m) && |Payload(m)| < U32_LIMIT
      ensures !Goes(Source(kind, utf8)(WireForm(m)[..cut]).0)
    {
      CutMessage(kind, utf8, m, cut);
    }
  }

  /** A connection that breaks off anywhere delivers whole messages only: those that were written completely, then the
      close. */
  lemma CutStream(kind: Kind, utf8: seq<byte> -> bool, ms: seq<ConduitMessage>, cut: nat, room: nat)
    requires AllSendable(utf8, ms) && |ms| < room && cut <= |Wire(ms)|
    ensures Emitted(Source(kind, utf8), Wire(ms)[..cut], room) == CastsThenClose(ms[..Whole(ms, cut)])
    ensures HandsOverAll(ms[..Whole(ms, cut)], Emitted(Source(kind, utf8), Wire(ms)[..cut], room))
  {
    CastsHandOver(ms[..Whole(ms, cut)]);
    SourceReadsBack(kind, utf8);
    CutYields(Source(kind, utf8), utf8, ms, cut);
    YieldsEmits(Source(kind, utf8), Wire(ms)[..cut], ms[..Whole(ms, cut)], room);
  }

  /** Type, then length with its most significant byte first, then the data. */
  lemma FrameLayout(m: ConduitMessage, i: nat)
    requires !m.Close? && i < 4
    ensures var form, data := WireForm(m), Payload(m);
      && |form| == 5 + |data| && form[0] == (if m.Handshake? then 0 else 1) && form[5..] == data
      && form[1 + i] == |data| / Pow256(3 - i) % 256
  {
    BigEndian(|Payload(m)|, 4, i);
  }

  lemma CloseLayout(reason: Option<seq<byte>>)
    ensures WireForm(Close(reason)) == [2]
  {
  }

  /** What sources make of a close, of the end of the stream, and of a type nobody writes. */
  lemma OtherItems(utf8: seq<byte> -> bool, reason: seq<byte>, rest: seq<byte>, first: byte)
    requires |reason| < U32_LIMIT && first > 2
    ensures NextUnix(utf8, [2] + rest) == (Message(Close(None)), rest)
    ensures NextSsh(utf8, [2] + Be32(|reason|) + reason + rest)
         == (Message(Close(if utf8(reason) then Some(reason) else None)), rest)
    ensures NextUnix(utf8, []) == (Broken, []) && NextSsh(utf8, []) == (End, [])
    ensures NextUnix(utf8, [first] + rest) == (Broken, rest) && NextSsh(utf8, [first] + rest).0 == Broken
  {
    var s := [2] + Be32(|reason|) + reason + rest;
    BlockRead(reason, rest);
    AfterFirst(2, Be32(|reason|), reason, rest);
    assert ([2] + rest)[1..] == rest && ([first] + rest)[1..] == rest;
  }

  lemma {:induction false} BeExact(b: seq<byte>)
    ensures Be(FromBe(b), |b|) == b
    decreases |b|
  {
    if b != [] {
      var n := |b| - 1;
      BeExact(b[..n]);
      assert FromBe(b) / 256 == FromBe(b[..n]) && FromBe(b) % 256 == b[n];
      assert b == b[..n] + [b[n]];
    }
  }

  /** Only what a sink could have written makes a source yield a message and go on. */
  lemma GoesOnWhatWasWritten(kind: Kind, utf8: seq<byte> -> bool, stream: seq<byte>)
    requires Goes(Source(kind, utf8)(stream).0)
    ensures var (item, rest) := Source(kind, utf8)(stream);
      && Sendable(utf8, item.message) && |Payload(item.message)| < U32_LIMIT
      && stream == WireForm(item.message) + rest
  {
    var (item, rest) := Source(kind, utf8)(stream);
    ShortMessages(kind, utf8, stream);
    if kind.Ssh? {
      SshBlock(utf8, stream, item.message, rest);
    } else {
      UnixBlock(utf8, stream, item.message, rest);
    }
    FormWritten(stream, item.message, rest);
  }

  lemma SshBlock(utf8: seq<byte> -> bool, stream: seq<byte>, m: ConduitMessage, rest: seq<byte>)
    requires NextSsh(utf8, stream) == (Message(m), rest) && !m.Close?
    ensures Sendable(utf8, m) && stream != [] && stream[0] == (if m.Handshake? then 0 else 1)
    ensures ReadBlock(stream[1..]) == Some(Split(Payload(m), rest))
  {
  }

  lemma UnixBlock(utf8: seq<byte> -> bool, stream: seq<byte>, m: ConduitMessage, rest: seq<byte>)
    requires NextUnix(utf8, stream) == (Message(m), rest) && !m.Close?
    ensures Sendable(utf8, m) && stream != [] && stream[0] == (if m.Handshake? then 0 else 1)
    ensures ReadBlock(stream[1..]) == Some(Split(Payload(m), rest))
  {
  }

  lemma FormWritten(stream: seq<byte>, m: ConduitMessage, rest: seq<byte>)
    requires !m.Close? && stream != [] && stream[0] == (if m.Handshake? then 0 else 1)
    requires ReadBlock(stream[1..]) == Some(Split(Payload(m), rest))
    ensures stream == WireForm(m) + rest
  {
    BlockWritten(stream[1..], Payload(m), rest);
    FirstInFront(stream[0], stream, Be32(|Payload(m)|), Payload(m), rest);
  }

  lemma FirstInFront(first: byte, stream: seq<byte>, head: seq<byte>, data: seq<byte>, rest: seq<byte>)
    requires stream != [] && stream[0] == first && stream[1..] == head + data + rest
    ensures stream == [first] + head + data + rest
  {
    assert stream == [first] + stream[1..];
    assert [first] + (head + data + rest) == [first] + head + data + rest;
  }

  lemma BlockWritten(stream: seq<byte>, data: seq<byte>, rest: seq<byte>)
    requires ReadBlock(stream) == Some(Split(data, rest))
    ensures stream == Be32(|data|) + data + rest
  {
    BeExact(stream[..4]);
    assert stream == stream[..4] + stream[4..4 + |data|] + stream[4 + |data|..];
  }

  /** Every stream is what sinks write for some messages, and something behind it that makes the source stop. */
  lemma {:induction false} EveryStreamSplits(kind: Kind, utf8: seq<byte> -> bool, stream: seq<byte>)
      returns (ms: seq<ConduitMessage>, junk: seq<byte>)
    ensures AllSendable(utf8, ms) && stream == Wire(ms) + junk && !Goes(Source(kind, utf8)(junk).0)
    ensures |ms| <= |stream|
    decreases |stream|
  {
    var (item, rest) := Source(kind, utf8)(stream);
    if Goes(item) {
      GoesOnWhatWasWritten(kind, utf8, stream);
      var more;
      more, junk := EveryStreamSplits(kind, utf8, rest);
      ms := [item.message] + more;
      OneMoreMessage(utf8, stream, item.message, rest, more, junk);
    } else {
      ms, junk := [], stream;
    }
  }

  lemma {:induction false} YieldsBefore(next: Decoder, utf8: seq<byte> -> bool, ms: seq<ConduitMessage>, junk: seq<byte>)
    requires ReadsBack(next, utf8) && AllSendable(utf8, ms) && !Goes(next(junk).0)
    ensures Yields(next, Wire(ms) + junk, ms)
    decreases |ms|
  {
    if ms == [] {
      assert Wire(ms) + junk == junk;
    } else {
      YieldsBefore(next, utf8, ms[1..], junk);
      assert Wire(ms) + junk == WireForm(ms[0]) + (Wire(ms[1..]) + junk);
    }
  }

  /** Whatever arrives: the portal is handed the messages at the front of the stream that were written as sinks write them,
      as many as there are, then the close. */
  lemma EveryStream(kind: Kind, utf8: seq<byte> -> bool, stream: seq<byte>, room: nat)
      returns (ms: seq<ConduitMessage>, junk: seq<byte>)
    requires |stream| < room
    ensures AllSendable(utf8, ms) && stream == Wire(ms) + junk && !Goes(Source(kind, utf8)(junk).0)
    ensures HandsOverAll(ms, Emitted(Source(kind, utf8), stream, room))
  {
    ms, junk := EveryStreamSplits(kind, utf8, stream);
    SourceReadsBack(kind, utf8);
    YieldsBefore(Source(kind, utf8), utf8, ms, junk);
    YieldsEmits(Source(kind, utf8), stream, ms, room);
    CastsHandOver(ms);
  }

  lemma OneMoreMessage(utf8: seq<byte> -> bool, stream: seq<byte>, m: ConduitMessage, rest: seq<byte>,
                       more: seq<ConduitMessage>, junk: seq<byte>)
    requires Sendable(utf8, m) && |Payload(m)| < U32_LIMIT && stream == WireForm(m) + rest
    requires AllSendable(utf8, more) && rest == Wire(more) + junk
    ensures AllSendable(utf8, [m] + more) && stream == Wire([m] + more) + junk
  {
    assert ([m] + more)[1..] == more;
    assert WireForm(m) + (Wire(more) + junk) == WireForm(m) + Wire(more) + junk;
  }

  /** A portal that stops earlier has got the beginning of what it would have got. */
  lemma {:induction false} StopsEarlier(next: Decoder, stream: seq<byte>, room: nat, more: nat)
    requires room <= more
    ensures var all := Emitted(next, stream, more);
      Emitted(next, stream, room) == if room <= |all| then all[..room] else all
    decreases room
  {
    if room > 0 {
      var (item, rest) := next(stream);
      if Goes(item) {
        StopsEarlier(next, rest, room - 1, more - 1);
      }
    }
  }

  /** From this stream the decoder yields these messages, then nothing the loop goes on after. */
  predicate Yields(next: Decoder, stream: seq<byte>, ms: seq<ConduitMessage>)
    decreases |ms|
  {
    var (item, rest) := next(stream);
    if ms == [] then !Goes(item) else Goes(item) && item.message == ms[0] && Yields(next, rest, ms[1..])
  }

  lemma {:induction false} YieldsEmits(next: Decoder, stream: seq<byte>, ms: seq<ConduitMessage>, room: nat)
    requires Yields(next, stream, ms) && |ms| < room
    ensures Emitted(next, stream, room) == CastsThenClose(ms)
    decreases |ms|
  {
    if ms != [] {
      YieldsEmits(next, next(stream).1, ms[1..], room - 1);
    }
  }

  lemma {:induction false} CutYields(next: Decoder, utf8: seq<byte> -> bool, ms: seq<ConduitMessage>, cut: nat)
    requires ReadsBack(next, utf8) && AllSendable(utf8, ms) && cut <= |Wire(ms)|
    ensures Yields(next, Wire(ms)[..cut], ms[..Whole(ms, cut)])
    decreases |ms|
  {
    if ms == [] || cut < |WireForm(ms[0])| {
      assert ms[..Whole(ms, cut)] == [];
      if ms != [] {
        assert Wire(ms)[..cut] == WireForm(ms[0])[..cut];
      }
    } else {
      CutYields(next, utf8, ms[1..], cut - |WireForm(ms[0])|);
      YieldsMore(next, utf8, ms, cut);
    }
  }

  lemma YieldsMore(next: Decoder, utf8: seq<byte> -> bool, ms: seq<ConduitMessage>, cut: nat)
    requires ReadsBack(next, utf8) && AllSendable(utf8, ms) && ms != [] && |WireForm(ms[0])| <= cut <= |Wire(ms)|
    requires var c := cut - |WireForm(ms[0])|; Yields(next, Wire(ms[1..])[..c], ms[1..][..Whole(ms[1..], c)])
    ensures Yields(next, Wire(ms)[..cut], ms[..Whole(ms, cut)])
  {
    var c := cut - |WireForm(ms[0])|;
    var k := Whole(ms[1..], c);
    assert Wire(ms)[..cut] == WireForm(ms[0]) + Wire(ms[1..])[..c];
    assert ms[..k + 1][1..] == ms[1..][..k];
  }

  lemma WireCons(ms: seq<ConduitMessage>, k: nat)
    requires k < |ms|
    ensures Wire(ms[..k + 1]) == WireForm(ms[0]) + Wire(ms[1..][..k])
  {
    assert ms[..k + 1][1..] == ms[1..][..k];
  }

  lemma CutMessage(kind: Kind, utf8: seq<byte> -> bool, m: ConduitMessage, cut: nat)
    requires Sendable(utf8, m) && |Payload(m)| < U32_LIMIT && cut < |WireForm(m)|
    ensures !Source(kind, utf8)(WireForm(m)[..cut]).0.Message?
  {
    var s, data := WireForm(m)[..cut], Payload(m);
    if cut > 0 {
      CutBlock(data, cut - 1);
      CutAfterFirst(WireForm(m)[0], Be32(|data|), data, cut);
    }
  }

  lemma CutAfterFirst(first: byte, head: seq<byte>, data: seq<byte>, cut: nat)
    requires 0 < cut <= 1 + |head| + |data|
    ensures ([first] + head + data)[..cut][1..] == (head + data)[..cut - 1]
  {
  }

  lemma CutBlock(data: seq<byte>, cut: nat)
    requires |data| < U32_LIMIT && cut < 4 + |data|
    ensures ReadBlock((Be32(|data|) + data)[..cut]).None?
  {
    if cut >= 4 {
      Be32Truncates(|data|);
      assert (Be32(|data|) + data)[..cut][..4] == Be32(|data|);
    }
  }

  // ------------------------------------------------------------------------------------------------
  // The conduit objects

  /** `create_source`: a reader that is consumed. */
  class ConduitSource {
    const kind: Kind
    var reader: seq<byte>

    constructor (kind: Kind, stream: seq<byte>)
      ensures this.kind == kind && reader == stream
    {
      this.kind := kind;
      reader := stream;
    }

    method ReadU8() returns (b: Option<byte>)
      modifies this`reader
      ensures old(reader) == [] ==> b == None && reader == []
      ensures old(reader) != [] ==> b == Some(old(reader)[0]) && reader == old(reader)[1..]
    {
      if reader == [] {
        return None;
      }
      b := Some(reader[0]);
      reader := reader[1..];
    }

    /** `read_u32` and `read_exact` into a buffer of that length. */
    method ReadLengthAndData() returns (data: Option<seq<byte>>)
      modifies this`reader
      ensures ReadBlock(old(reader)).None? ==> data == None && reader == []
      ensures ReadBlock(old(reader)).Some? ==>
        data == Some(ReadBlock(old(reader)).value.inner) && reader == ReadBlock(old(reader)).value.rest
    {
      if |reader| < 4 {
        reader := [];
        return None;
      }
      var len := FromBe32(reader[..4]);
      reader := reader[4..];
      if |reader| < len {
        reader := [];
        return None;
      }
      data := Some(reader[..len]);
      assert reader[..len] == old(reader)[4..4 + len] && reader[len..] == old(reader)[4 + len..];
      reader := reader[len..];
    }

    method NextItem(utf8: seq<byte> -> bool) returns (item: Item)
      modifies this`reader
      ensures (item, reader) == Source(kind, utf8)(old(reader))
    {
      if kind.Ssh? {
        item := SshItem(utf8);
      } else {
        item := UnixItem(utf8);
      }
    }

    method SshItem(utf8: seq<byte> -> bool) returns (item: Item)
      modifies this`reader
      ensures (item, reader) == NextSsh(utf8, old(reader))
    {
      var msgType := ReadU8();
      if msgType.None? {
        return End;
      }
      var buffer := ReadLengthAndData();
      if buffer.None? {
        return Broken;
      }
      if msgType.value == 0 {
        item := if utf8(buffer.value) then Message(Handshake(buffer.value)) else Broken;
      } else if msgType.value == 1 {
        item := Message(Content(buffer.value));
      } else if msgType.value == 2 {
        item := Message(Close(if utf8(buffer.value) then Some(buffer.value) else None));
      } else {
        item := Broken;
      }
    }

    method UnixItem(utf8: seq<byte> -> bool) returns (item: Item)
      modifies this`reader
      ensures (item, reader) == NextUnix(utf8, old(reader))
    {
      var msgType := ReadU8();
      if msgType.None? {
        return Broken;
      }
      if msgType.value == 0 {
        var buf := ReadLengthAndData();
        if buf.None? {
          return Broken;
        }
        item := if utf8(buf.value) then Message(Handshake(buf.value)) else Broken;
      } else if msgType.value == 1 {
        var buf := ReadLengthAndData();
        if buf.None? {
          return Broken;
        }
        item := Message(Content(buf.value));
      } else if msgType.value == 2 {
        item := Message(Close(None));
      } else {
        item := Broken;
      }
    }
  }

  /** What a writer that takes `room` more bytes takes of these. */
  function Taken(bytes: seq<byte>, room: nat): (taken: seq<byte>)
    ensures taken <= bytes && |taken| <= room && (taken == bytes || |taken| == room)
  {
    if |bytes| <= room then bytes else bytes[..room]
  }

  lemma TakenParts(w: seq<byte>, a: seq<byte>, b: seq<byte>, c: seq<byte>, room: nat)
    requires |a| <= room
    ensures |a| + |b| > room ==> w + a + Taken(b, room - |a|) == w + Taken(a + b + c, room)
    ensures |a| + |b| <= room ==> w + a + b + Taken(c, room - |a| - |b|) == w + Taken(a + b + c, room)
  {
  }

  /** However the writer breaks while the messages are sent, what it took is the stream cut off somewhere. */
  lemma {:induction false} BrokenIsCut(ms: seq<ConduitMessage>, k: nat, room: nat)
    requires k < |ms|
    ensures Wire(ms[..k]) + Taken(WireForm(ms[k]), room) <= Wire(ms)
    decreases k
  {
    if k == 0 {
      assert ms[..0] == [];
      TakenFirst(WireForm(ms[0]), Wire(ms[1..]), room);
    } else {
      BrokenIsCut(ms[1..], k - 1, room);
      assert ms[..k][0] == ms[0] && ms[..k][1..] == ms[1..][..k - 1];
      CutBehind(WireForm(ms[0]), Wire(ms[1..][..k - 1]), Taken(WireForm(ms[k]), room), Wire(ms[1..]));
    }
  }

  lemma TakenFirst(form: seq<byte>, rest: seq<byte>, room: nat)
    ensures [] + Taken(form, room) <= form + rest
  {
  }

  lemma CutBehind(a: seq<byte>, b: seq<byte>, c: seq<byte>, whole: seq<byte>)
    requires b + c <= whole
    ensures a + b + c <= a + whole
  {
    assert a + b + c == a + (b + c);
  }

  /** `create_sink`: a writer that is extended, takes only `room` more bytes, and is dropped with the first error. */
  class ConduitSink {
    const kind: Kind
    var written: seq<byte>
    var room: nat
    var usable: bool

    constructor (kind: Kind, room: nat)
      ensures this.kind == kind && written == [] && this.room == room && usable
    {
      this.kind := kind;
      this.room := room;
      written, usable := [], true;
    }

    /** A write that breaks has taken some of the bytes. */
    method Write(bytes: seq<byte>) returns (ok: bool)
      modifies this`written, this`room
      ensures ok <==> |bytes| <= old(room)
      ensures written == old(written) + Taken(bytes, old(room)) && room == old(room) - |Taken(bytes, old(room))|
    {
      ok := |bytes| <= room;
      written := written + Taken(bytes, room);
      room := room - |Taken(bytes, room)|;
    }

    /** Type, length, data, each only if the one before it could be written. */
    method WriteBlock(msgType: byte, data: seq<byte>) returns (ok: bool)
      modifies this`written, this`room
      ensures var block := [msgType] + Be32(|data|) + data;
        && (ok <==> |block| <= old(room))
        && written == old(written) + Taken(block, old(room)) && room == old(room) - |Taken(block, old(room))|
    {
      ghost var w, n := written, room;
      ok := Write([msgType]);
      if !ok {
        return;
      }
      TakenParts(w, [msgType], Be32(|data|), data, n);
      ok := Write(Be32(|data|));
      if !ok {
        return;
      }
      ok := Write(data);
    }

    /** Sends one message if everything can be written and flushed. An ssh sink reports an error after a close in any case,
        whether or not it could write it. */
    method Send(m: ConduitMessage, flushes: bool) returns (ok: bool)
      requires usable
      modifies this`written, this`room, this`usable
      ensures written == old(written) + Taken(WireForm(m), old(room))
      ensures room == old(room) - |Taken(WireForm(m), old(room))|
      ensures ok <==> |WireForm(m)| <= old(room) && flushes && !(kind.Ssh? && m.Close?)
      ensures usable == ok
    {
      match m {
        case Handshake(text) => ok := WriteBlock(0, text);
        case Content(data) => ok := WriteBlock(1, data);
        case Close(_) =>
          ok := Write([2]);
          ok := ok && kind.Unix?;
      }
      ok := ok && flushes;
      usable := ok;
    }
  }

  /** The portal end of the loop: takes casts until the actor has stopped. */
  class PortalMailbox {
    var queue: seq<Cast>
    var room: nat

    constructor (room: nat)
      ensures queue == [] && this.room == room
    {
      queue := [];
      this.room := room;
    }

    method Cast(c: Cast) returns (delivered: bool)
      modifies this
      ensures delivered <==> old(room) > 0
      ensures queue == old(queue) + (if delivered then [c] else [])
      ensures room == if delivered then old(room) - 1 else 0
    {
      delivered := room > 0;
      if delivered {
        queue := queue + [c];
        room := room - 1;
      }
    }
  }

  method ReceiveLoop(source: ConduitSource, utf8: seq<byte> -> bool, portal: PortalMailbox)
    requires source as object != portal
    modifies source, portal
    ensures portal.queue == old(portal.queue) + Emitted(Source(source.kind, utf8), old(source.reader), old(portal.room))
    ensures forall ms :: AllSendable(utf8, ms) && |ms| < old(portal.room) && old(source.reader) == Wire(ms) ==>
      HandsOverAll(ms, portal.queue[|old(portal.queue)|..])
  {
    forall ms | AllSendable(utf8, ms) && |ms| < portal.room && source.reader == Wire(ms)
      ensures HandsOverAll(ms, Emitted(Source(source.kind, utf8), source.reader, portal.room))
    {
      StreamReadBack(source.kind, utf8, ms, portal.room);
    }
    var open := true;
    ghost var want := portal.queue + Emitted(Source(source.kind, utf8), source.reader, portal.room);
    while open
      invariant want == portal.queue + Ahead(open, Source(source.kind, utf8), source.reader, portal.room)
      decreases open, |source.reader|
    {
      ghost var before := portal.queue;
      var item := source.NextItem(utf8);
      if Goes(item) {
        var delivered := portal.Cast(ToCast(item.message));
        if delivered {
          Regroup(before, ToCast(item.message), Emitted(Source(source.kind, utf8), source.reader, portal.room));
        } else {
          open := false;
        }
      } else {
        open := false;
      }
    }
    var _ := portal.Cast(CastClose);
  }

  lemma Regroup(a: seq<Cast>, c: Cast, b: seq<Cast>)
    ensures a + ([c] + b) == a + [c] + b
  {
  }

  /** What the loop still has to emit. */
  ghost function Ahead(open: bool, next: Decoder, stream: seq<byte>, room: nat): seq<Cast> {
    if open then Emitted(next, stream, room) else if room == 0 then [] else [CastClose]
  }
}
