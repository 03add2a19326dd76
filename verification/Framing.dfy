/** Length-prefixed frames over a byte stream that arrives in pieces (`ProtocolMessageTransport`). */
module Framing {
  import opened Collections

  type Byte = x: int | 0 <= x < 256

  const HEADER_SIZE := 4
  const SIZE_LIMIT := 0x1_0000_0000
  const MAX_MESSAGE_SIZE := 16 * 1024 * 1024

  const ERR_ABORTED := -3
  const ERR_FAILED := -2
  const ERR_IO_PENDING := -1

  datatype Outcome = Ok(size: nat) | Error(code: int)

  function Smaller(a: nat, b: nat): nat { if a <= b then a else b }

  // ---------- frames ----------

  /** A 32-bit size as it lies in memory, low byte first; larger sizes lose their high bits. */
  function Header(size: nat): (h: seq<Byte>)
    ensures |h| == HEADER_SIZE
  {
    [size % 256, size / 256 % 256, size / 0x1_0000 % 256, size / 0x100_0000 % 256]
  }

  function HeaderSize(h: seq<Byte>): (n: nat)
    requires |h| == HEADER_SIZE
    ensures n < SIZE_LIMIT
  {
    var a: int, b: int, c: int, d: int := h[0], h[1], h[2], h[3];
    a + 256 * b + 0x1_0000 * c + 0x100_0000 * d
  }

  lemma HeaderRoundTrip(size: nat)
    ensures HeaderSize(Header(size)) == size % SIZE_LIMIT
  {
    var a := size / 256;
    var b := a / 256;
    var c := b / 256;
    assert size / 0x1_0000 == b && size / 0x100_0000 == c;
    assert size == size % 256 + 256 * a && a == a % 256 + 256 * b;
    assert b == b % 256 + 256 * c && c == c % 256 + 256 * (c / 256);
  }

  /** The low byte comes first, as on the wire. */
  lemma LowByteFirst(a: Byte, b: Byte, c: Byte, d: Byte)
    ensures var size: int := a as int + 256 * (b as int + 256 * (c as int + 256 * d as int));
            Header(size) == [a, b, c, d] && HeaderSize([a, b, c, d]) == size
  {
    var y: int := c as int + 256 * d as int;
    var x: int := b as int + 256 * y;
    LowByte(a, x);
    LowByte(b, y);
    LowByte(c, d);
    HighBytes(a as int + 256 * x);
  }

  lemma LowByte(a: Byte, x: nat)
    ensures (a as int + 256 * x) % 256 == a as int && (a as int + 256 * x) / 256 == x
  {
  }

  lemma HighBytes(size: nat)
    ensures size / 0x1_0000 == size / 256 / 256 && size / 0x100_0000 == size / 256 / 256 / 256
  {
  }

  function Frame(payload: seq<Byte>): seq<Byte> { Header(|payload|) + payload }

  function Frames(payloads: seq<seq<Byte>>): seq<Byte> {
    if payloads == [] then [] else Frame(payloads[0]) + Frames(payloads[1..])
  }

  /** `write`: room for the size, the payload behind it, then the size. */
  method Write(data: seq<Byte>) returns (message: seq<Byte>)
    ensures message == Frame(data)
  {
    message := [0, 0, 0, 0];
    message := message + data;
    var size := |message| - HEADER_SIZE;
    message := Header(size) + message[HEADER_SIZE..];
  }

  // ---------- what a read means ----------

  /** A header buffer starts zeroed and takes what the stream still has. */
  function HeaderBuffer(rest: seq<Byte>): (h: seq<Byte>)
    ensures |h| == HEADER_SIZE
  {
    rest[..Smaller(HEADER_SIZE, |rest|)] + [0, 0, 0, 0][Smaller(HEADER_SIZE, |rest|)..]
  }

  /** The result of one `read` into a buffer of this capacity, its payload, and what is left. */
  datatype Reading = Reading(outcome: Outcome, payload: seq<Byte>, rest: seq<Byte>)

  function ReadFrame(rest: seq<Byte>, capacity: nat): (r: Reading)
    ensures |r.rest| <= |rest|
    ensures r.outcome.Ok? && r.outcome.size > 0 ==> |r.rest| < |rest|
  {
    if rest == [] then Reading(Ok(0), [], [])
    else
      var size := HeaderSize(HeaderBuffer(rest));
      var body := rest[Smaller(HEADER_SIZE, |rest|)..];
      if size == 0 then Reading(Ok(0), [], body)
      else if size > capacity then Reading(Error(ERR_FAILED), [], body)
      else
        var n := Smaller(size, |body|);
        Reading(Ok(n), body[..n], body[n..])
  }

  /** The messages a read loop gets before the stream ends or a read fails. */
  function Messages(rest: seq<Byte>, capacity: nat): seq<seq<Byte>>
    decreases |rest|
  {
    var r := ReadFrame(rest, capacity);
    if r.outcome.Error? || r.outcome.size == 0 then [] else [r.payload] + Messages(r.rest, capacity)
  }

  lemma HeaderInFront(header: seq<Byte>, body: seq<Byte>)
    requires |header| == HEADER_SIZE
    ensures HeaderBuffer(header + body) == header && (header + body)[HEADER_SIZE..] == body
  {
    SplitConcat(header, body);
    assert HeaderBuffer(header + body) == header + [0, 0, 0, 0][HEADER_SIZE..] == header;
  }

  lemma SmallHeader(size: nat)
    requires size < SIZE_LIMIT
    ensures HeaderSize(Header(size)) == size
  {
    HeaderRoundTrip(size);
  }

  lemma FrameHeader(payload: seq<Byte>, tail: seq<Byte>)
    requires |payload| < SIZE_LIMIT
    ensures var rest := Frame(payload) + tail;
            && HeaderSize(HeaderBuffer(rest)) == |payload|
            && |rest| >= HEADER_SIZE && rest[HEADER_SIZE..] == payload + tail
  {
    Reassociate(Header(|payload|), payload, tail);
    HeaderInFront(Header(|payload|), payload + tail);
    SmallHeader(|payload|);
  }

  lemma ReadBehindHeader(rest: seq<Byte>, size: nat, body: seq<Byte>, capacity: nat)
    requires |rest| >= HEADER_SIZE && HeaderSize(HeaderBuffer(rest)) == size && rest[HEADER_SIZE..] == body
    ensures ReadFrame(rest, capacity) ==
            if size == 0 then Reading(Ok(0), [], body)
            else if size > capacity then Reading(Error(ERR_FAILED), [], body)
            else var n := Smaller(size, |body|); Reading(Ok(n), body[..n], body[n..])
  {
  }

  lemma FrameReads(payload: seq<Byte>, tail: seq<Byte>, capacity: nat)
    requires |payload| < SIZE_LIMIT
    ensures ReadFrame(Frame(payload) + tail, capacity) ==
            if payload == [] then Reading(Ok(0), [], tail)
            else if |payload| > capacity then Reading(Error(ERR_FAILED), [], payload + tail)
            else Reading(Ok(|payload|), payload, tail)
  {
    FrameHeader(payload, tail);
    var body := payload + tail;
    ReadBehindHeader(Frame(payload) + tail, |payload|, body, capacity);
    assert body[..|payload|] == payload && body[|payload|..] == tail;
  }

  /** A stream that ends inside a header gives nothing. */
  lemma TruncatedHeader(rest: seq<Byte>, capacity: nat)
    requires |rest| < HEADER_SIZE
    ensures var r := ReadFrame(rest, capacity);
            r.payload == r.rest == [] && (r.outcome == Ok(0) || r.outcome == Error(ERR_FAILED))
  {
    assert rest[|rest|..] == [];
  }

  /** A stream that ends inside a payload gives what there is of it. */
  lemma TruncatedPayload(payload: seq<Byte>, k: nat, capacity: nat)
    requires k < |payload| < SIZE_LIMIT
    ensures ReadFrame(Header(|payload|) + payload[..k], capacity) ==
            if |payload| <= capacity then Reading(Ok(k), payload[..k], [])
            else Reading(Error(ERR_FAILED), [], payload[..k])
  {
    SmallHeader(|payload|);
    ReadTruncated(Header(|payload|), |payload|, payload[..k], capacity);
  }

  lemma ReadTruncated(header: seq<Byte>, size: nat, body: seq<Byte>, capacity: nat)
    requires |header| == HEADER_SIZE && HeaderSize(header) == size && |body| < size
    ensures ReadFrame(header + body, capacity) ==
            if size <= capacity then Reading(Ok(|body|), body, []) else Reading(Error(ERR_FAILED), [], body)
  {
    HeaderInFront(header, body);
    ReadBehindHeader(header + body, size, body, capacity);
    assert body[..|body|] == body && body[|body|..] == [];
  }

  /** The payloads up to the first that is empty or too large. */
  function Deliverable(payloads: seq<seq<Byte>>, capacity: nat): seq<seq<Byte>> {
    if payloads == [] || payloads[0] == [] || |payloads[0]| > capacity then []
    else [payloads[0]] + Deliverable(payloads[1..], capacity)
  }

  /** A read loop gets the payloads in order; an empty one looks like the end, an oversized one fails. */
  lemma {:induction false} MessagesOfFrames(payloads: seq<seq<Byte>>, capacity: nat)
    requires forall i :: 0 <= i < |payloads| ==> |payloads[i]| < SIZE_LIMIT
    ensures Messages(Frames(payloads), capacity) == Deliverable(payloads, capacity)
  {
    if payloads != [] {
      FrameReads(payloads[0], Frames(payloads[1..]), capacity);
      MessagesOfFrames(payloads[1..], capacity);
    }
  }

  lemma {:induction false} AllDeliverable(payloads: seq<seq<Byte>>, capacity: nat)
    requires forall i :: 0 <= i < |payloads| ==> 0 < |payloads[i]| <= capacity
    ensures Deliverable(payloads, capacity) == payloads
  {
    if payloads != [] { AllDeliverable(payloads[1..], capacity); }
  }

  /** A read loop only ever gets messages that are not empty and fit its buffer, whatever is in the stream. */
  lemma {:induction false} MessagesFit(rest: seq<Byte>, capacity: nat, i: nat)
    requires i < |Messages(rest, capacity)|
    ensures 0 < |Messages(rest, capacity)[i]| <= capacity
    decreases |rest|
  {
    if i > 0 { MessagesFit(ReadFrame(rest, capacity).rest, capacity, i - 1); }
  }

  /** A read loop gets exactly the payloads written if and only if none is empty or larger than its buffer. */
  lemma AllReceived(payloads: seq<seq<Byte>>, capacity: nat)
    requires capacity < SIZE_LIMIT
    ensures Messages(Frames(payloads), capacity) == payloads <==>
            forall i :: 0 <= i < |payloads| ==> 0 < |payloads[i]| <= capacity
  {
    if forall i :: 0 <= i < |payloads| ==> 0 < |payloads[i]| <= capacity {
      MessagesOfFrames(payloads, capacity);
      AllDeliverable(payloads, capacity);
    }
    if Messages(Frames(payloads), capacity) == payloads {
      forall i | 0 <= i < |payloads| ensures 0 < |payloads[i]| <= capacity {
        MessagesFit(Frames(payloads), capacity, i);
      }
    }
  }

  /** A payload that is empty, or too large, hides itself and all that follow. */
  lemma BadPayloadHides(bad: seq<Byte>, following: seq<seq<Byte>>, capacity: nat)
    requires (bad == [] || capacity < |bad|) && |bad| < SIZE_LIMIT
    ensures Messages(Frames([bad] + following), capacity) == []
  {
    assert ([bad] + following)[1..] == following;
    FrameReads(bad, Frames(following), capacity);
  }

  // ---------- the transport below, and the loops over it ----------

  /** What the next reads of the byte transport do: deliver some bytes, fail, or find the owner gone. */
  datatype Event = Deliver(size: nat) | Fail(code: int) | Expire

  predicate OnlyDelivers(events: seq<Event>) { forall i :: 0 <= i < |events| ==> events[i].Deliver? }

  /** The read used up some events: deliveries, and behind these the one event that made it fail, if any did. */
  ghost predicate Used(before: seq<Event>, after: seq<Event>, r: Outcome, expired: bool) {
    && |after| <= |before| && after == before[|before| - |after|..]
    && var n := |before| - |after|;
       if r.Ok? then !expired && OnlyDelivers(before[..n])
       else
         && 0 < n && OnlyDelivers(before[..n - 1])
         && if expired then before[n - 1] == Expire && r.code == ERR_ABORTED else before[n - 1] == Fail(r.code)
  }

  lemma UsedTwice(first: seq<Event>, second: seq<Event>, third: seq<Event>, q: Outcome, r: Outcome, expired: bool)
    requires Used(first, second, q, false) && q.Ok? && Used(second, third, r, expired)
    ensures Used(first, third, r, expired)
  {
    var n, m := |first| - |second|, |second| - |third|;
    assert second[m..] == first[n + m..];
    assert first[..n + m] == first[..n] + second[..m];
    if r.Error? {
      assert first[..n + m - 1] == first[..n] + second[..m - 1] && first[n + m - 1] == second[m - 1];
    }
  }

  /** Without a failure to use up, no read fails. */
  lemma UsedDeliveries(before: seq<Event>, after: seq<Event>, r: Outcome, expired: bool)
    requires Used(before, after, r, expired) && OnlyDelivers(before)
    ensures r.Ok? && !expired && OnlyDelivers(after)
  {
  }

  class Transport {
    var rest: seq<Byte>
    var events: seq<Event>
    var expired: bool

    constructor (stream: seq<Byte>, events: seq<Event>)
      ensures rest == stream && this.events == events && !expired
    {
      rest, this.events, expired := stream, events, false;
    }

    /** Reads into data[from..to]: at least one byte unless the stream has ended, and no more than fit. */
    method ReadSome(data: array<Byte>, from: nat, to: nat) returns (r: Outcome)
      requires from < to <= data.Length
      modifies this, data
      ensures r.Ok? ==> r.size <= to - from && r.size <= |old(rest)| && (r.size == 0 <==> old(rest) == [])
      ensures r.Ok? ==> data[..] == old(data[..])[..from] + old(rest)[..r.size] + old(data[..])[from + r.size..]
      ensures r.Ok? ==> rest == old(rest)[r.size..]
      ensures r.Error? ==> data[..] == old(data[..]) && rest == old(rest)
      ensures old(expired) ==> expired
      ensures !old(expired) ==> Used(old(events), events, r, expired)
    {
      var event := if events == [] then Deliver(|rest|) else events[0];
      events := if events == [] then [] else events[1..];
      match event
      case Fail(code) => r := Error(code);
      case Expire =>
        expired := true;
        r := Error(ERR_ABORTED);
      case Deliver(wanted) =>
        var n := Smaller(Smaller(if wanted == 0 then 1 else wanted, to - from), |rest|);
        ghost var before := data[..];
        forall i | 0 <= i < n { data[from + i] := rest[i]; }
        assert data[..] == before[..from] + rest[..n] + before[from + n..];
        rest := rest[n..];
        r := Ok(n);
    }
  }

  /** A buffer that holds the first part of a stream holds more of it after the next read. */
  lemma FillMore(stream: seq<Byte>, before: seq<Byte>, now: seq<Byte>, total: nat, n: nat)
    requires total + n <= |stream| && total + n <= |before|
    requires now == stream[..total] + before[total..]
    ensures now[..total] + stream[total..][..n] + now[total + n..] == stream[..total + n] + before[total + n..]
    ensures stream[total..][n..] == stream[total + n..]
  {
    assert now[..total] == stream[..total] && now[total + n..] == before[total + n..];
    assert stream[..total] + stream[total..][..n] == stream[..total + n];
  }

  /** `ReadExact`: fills data[..size], or as much of it as the stream still has. */
  method ReadExact(transport: Transport, data: array<Byte>, size: nat) returns (r: Outcome)
    requires size <= data.Length
    modifies transport, data
    ensures r.Ok? ==> r.size == Smaller(size, |old(transport.rest)|)
    ensures r.Ok? ==> data[..] == old(transport.rest)[..r.size] + old(data[..])[r.size..]
    ensures r.Ok? ==> transport.rest == old(transport.rest)[r.size..]
    ensures old(transport.expired) ==> transport.expired
    ensures !old(transport.expired) ==> Used(old(transport.events), transport.events, r, transport.expired)
  {
    var total: nat := 0;
    ghost var stream, before := transport.rest, data[..];
    while total < size
      invariant total <= size && total <= |stream|
      invariant data[..] == stream[..total] + before[total..]
      invariant transport.rest == stream[total..]
      invariant old(transport.expired) ==> transport.expired
      invariant !old(transport.expired) ==>
                  !transport.expired && Used(old(transport.events), transport.events, Ok(total), false)
    {
      ghost var now, events := data[..], transport.events;
      var n := transport.ReadSome(data, total, size);
      if !old(transport.expired) {
        UsedTwice(old(transport.events), events, transport.events, Ok(total), n, transport.expired);
      }
      if transport.expired { return Error(ERR_ABORTED); }
      if n.Error? { return n; }
      FillMore(stream, before, now, total, n.size);
      if n.size == 0 { return Ok(total); }
      total := total + n.size;
    }
    r := Ok(total);
  }

  /** `ReadPayloadSize`: a stream that ends inside the header leaves zeros behind. */
  method ReadPayloadSize(transport: Transport) returns (r: Outcome)
    modifies transport
    ensures r.Ok? ==>
              && r == (if old(transport.rest) == [] then Ok(0) else Ok(HeaderSize(HeaderBuffer(old(transport.rest)))))
              && transport.rest == old(transport.rest)[Smaller(HEADER_SIZE, |old(transport.rest)|)..]
    ensures old(transport.expired) ==> transport.expired
    ensures !old(transport.expired) ==> Used(old(transport.events), transport.events, r, transport.expired)
  {
    var header := new Byte[HEADER_SIZE](_ => 0);
    assert header[..] == [0, 0, 0, 0];
    r := ReadExact(transport, header, HEADER_SIZE);
    if r.Error? || r.size == 0 { return; }
    r := Ok(HeaderSize(header[..]));
  }

  /** `ProtocolMessageTransport`: one read at a time, each of one whole message. */
  class MessageTransport {
    const transport: Transport
    var reading: bool

    constructor (transport: Transport)
      ensures this.transport == transport && !reading
    {
      this.transport, reading := transport, false;
    }

    /**
     * However the stream is cut into pieces, a read that succeeds gives the next frame's payload and leaves the rest.
     * A read that fails tells the failure of the transport, that the owner is gone, or that the frame does not fit.
     */
    method Read(data: array<Byte>) returns (r: Outcome)
      modifies this, transport, data
      ensures old(reading) ==>
                r == Error(ERR_IO_PENDING) && transport.rest == old(transport.rest) && data[..] == old(data[..])
      ensures !old(reading) ==> (reading <==> transport.expired)
      ensures !old(reading) && transport.expired ==> r == Error(ERR_ABORTED)
      ensures !old(reading) && r.Ok? ==>
                var frame := ReadFrame(old(transport.rest), data.Length);
                && r == frame.outcome && transport.rest == frame.rest
                && r.size <= data.Length && data[..r.size] == frame.payload
      ensures !old(reading) && !old(transport.expired) ==>
                || Used(old(transport.events), transport.events, r, transport.expired)
                || (&& r == ReadFrame(old(transport.rest), data.Length).outcome == Error(ERR_FAILED)
                    && transport.rest == ReadFrame(old(transport.rest), data.Length).rest
                    && Used(old(transport.events), transport.events, Ok(0), transport.expired))
    {
      if reading { return Error(ERR_IO_PENDING); }
      reading := true;
      r := ReadPayloadSize(transport);
      if transport.expired { return Error(ERR_ABORTED); }
      if r.Error? || r.size == 0 {
        reading := false;
        return;
      }
      if r.size > data.Length {
        reading := false;
        return Error(ERR_FAILED);
      }
      ghost var events, size := transport.events, r;
      r := ReadExact(transport, data, r.size);
      UsedTwice(old(transport.events), events, transport.events, size, r, transport.expired);
      if transport.expired { return Error(ERR_ABORTED); }
      reading := false;
    }

    /** Over a transport that only delivers, every read gives what the stream holds. */
    method ReadNext(data: array<Byte>) returns (r: Outcome)
      requires !reading && !transport.expired && OnlyDelivers(transport.events)
      modifies this, transport, data
      ensures !reading && !transport.expired && OnlyDelivers(transport.events)
      ensures var frame := ReadFrame(old(transport.rest), data.Length);
              && r == frame.outcome && transport.rest == frame.rest
              && (r.Ok? ==> r.size <= data.Length && data[..r.size] == frame.payload)
    {
      r := Read(data);
      if Used(old(transport.events), transport.events, r, transport.expired) {
        UsedDeliveries(old(transport.events), transport.events, r, transport.expired);
      } else {
        UsedDeliveries(old(transport.events), transport.events, Ok(0), transport.expired);
      }
    }
  }

  /** The read loop of a connection: it ends when a read fails or returns nothing. */
  method ReceiveAll(messages: MessageTransport) returns (received: seq<seq<Byte>>)
    requires !messages.reading && !messages.transport.expired && OnlyDelivers(messages.transport.events)
    modifies messages, messages.transport
    ensures received == Messages(old(messages.transport.rest), MAX_MESSAGE_SIZE)
  {
    var buffer := new Byte[MAX_MESSAGE_SIZE];
    received := [];
    ghost var all := Messages(messages.transport.rest, MAX_MESSAGE_SIZE);
    while true
      invariant !messages.reading && !messages.transport.expired && OnlyDelivers(messages.transport.events)
      invariant all == received + Messages(messages.transport.rest, MAX_MESSAGE_SIZE)
      decreases |messages.transport.rest|
    {
      var r := messages.ReadNext(buffer);
      if r.Error? || r.size == 0 { return; }
      received := received + [buffer[..r.size]];
    }
  }

  /** For every list of payloads that fit, and every way the bytes arrive, the loop receives that list. */
  method SendAndReceive(payloads: seq<seq<Byte>>, events: seq<Event>) returns (received: seq<seq<Byte>>)
    requires OnlyDelivers(events)
    requires forall i :: 0 <= i < |payloads| ==> 0 < |payloads[i]| <= MAX_MESSAGE_SIZE
    ensures received == payloads
  {
    var stream: seq<Byte> := [];
    var i := 0;
    while i < |payloads|
      invariant 0 <= i <= |payloads| && stream == Frames(payloads[..i])
    {
      var message := Write(payloads[i]);
      FramesSnoc(payloads[..i], payloads[i]);
      assert payloads[..i] + [payloads[i]] == payloads[..i + 1];
      stream := stream + message;
      i := i + 1;
    }
    assert payloads[..|payloads|] == payloads;
    var transport := new Transport(stream, events);
    var messages := new MessageTransport(transport);
    received := ReceiveAll(messages);
    MessagesOfFrames(payloads, MAX_MESSAGE_SIZE);
    AllDeliverable(payloads, MAX_MESSAGE_SIZE);
  }

  lemma {:induction false} FramesSnoc(payloads: seq<seq<Byte>>, last: seq<Byte>)
    ensures Frames(payloads + [last]) == Frames(payloads) + Frame(last)
  {
    if payloads == [] {
      assert payloads + [last] == [last] && [last][1..] == [];
    } else {
      assert (payloads + [last])[1..] == payloads[1..] + [last];
      FramesSnoc(payloads[1..], last);
    }
  }
}
