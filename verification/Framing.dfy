/**
 Framing on a stream socket: a 4-byte length, then the payload. Every system call may be
 interrupted, move only part of what was asked, or fail; the schedules of the channel
 say which. The contracts below hold for every schedule.
 */
module Framing {
  import opened Outcomes
  import opened Protocol
  import opened Strings

  const MAX_PAYLOAD: nat := 65536
  const HEADER_BYTES: nat := 4

  // ---- Frames -------------------------------------------------------------------------

  function Byte(v: nat): (c: char)
    requires v < 256
    ensures c as nat == v
  {
    v as char
  }

  /** The length in the machine's little-endian order. */
  function Header(size: nat): (h: string)
    requires size <= MAX_PAYLOAD
    ensures |h| == HEADER_BYTES
  {
    [Byte(size % 256), Byte(size / 256 % 256), Byte(size / 65536 % 256), Byte(size / 16777216 % 256)]
  }

  function HeaderValue(h: string): nat
    requires |h| == HEADER_BYTES
  {
    h[0] as nat + 256 * (h[1] as nat) + 65536 * (h[2] as nat) + 16777216 * (h[3] as nat)
  }

  lemma HeaderRoundTrip(size: nat)
    requires size <= MAX_PAYLOAD
    ensures HeaderValue(Header(size)) == size
  {
    assert size / 65536 <= 1 && size / 16777216 == 0;
  }

  /** The low byte comes first. */
  lemma LowByteFirst()
    ensures Header(258) == [2 as char, 1 as char, 0 as char, 0 as char] && Header(65536)[2] == 1 as char
  {}

  /** What `SendMessage` accepts. */
  predicate Sendable(m: Message) {
    Encodes(m) && |Payload(m)| <= MAX_PAYLOAD
  }

  function Frame(m: Message): string
    requires Sendable(m)
  {
    Header(|Payload(m)|) + Payload(m)
  }

  /** What a receiver makes of the bytes it will ever see. */
  datatype Reading =
    | Complete(message: Result<Message>, used: nat)
    | Oversized
    | Incomplete

  function FirstFrame(bytes: string): (r: Reading)
    ensures r.Complete? ==> HEADER_BYTES <= r.used <= |bytes|
  {
    if |bytes| < HEADER_BYTES then Incomplete
    else
      var size := HeaderValue(bytes[..HEADER_BYTES]);
      if size > MAX_PAYLOAD then Oversized
      else if |bytes| < HEADER_BYTES + size then Incomplete
      else Complete(Decode(bytes[HEADER_BYTES..HEADER_BYTES + size]), HEADER_BYTES + size)
  }

  /** A length over 64 KiB is refused before anything of the payload is looked at, and no other length is. */
  lemma OversizedExactly(bytes: string)
    requires |bytes| >= 4
    ensures FirstFrame(bytes).Oversized? <==>
            bytes[0] as nat + 0x100 * (bytes[1] as nat) + 0x1_0000 * (bytes[2] as nat)
            + 0x100_0000 * (bytes[3] as nat) > 0x1_0000
  {
    var h := bytes[..HEADER_BYTES];
    assert h[0] == bytes[0] && h[1] == bytes[1] && h[2] == bytes[2] && h[3] == bytes[3];
  }

  /** The messages of a byte stream, frame after frame, until one does not decode or end. */
  function Messages(bytes: string): seq<Message>
    decreases |bytes|
  {
    match FirstFrame(bytes)
    case Complete(Ok(m), used) => [m] + Messages(bytes[used..])
    case _ => []
  }

  /** A message that survives the wire. */
  predicate Faithful(m: Message) {
    Sendable(m) && '\0' !in m.command && forall i :: 0 <= i < |m.fields| ==> '=' !in m.fields[i].key
  }

  lemma FrameFirst(m: Message, rest: string)
    requires Faithful(m)
    ensures FirstFrame(Frame(m) + rest) == Complete(Ok(m), |Frame(m)|)
  {
    var bytes, size := Frame(m) + rest, |Payload(m)|;
    HeaderRoundTrip(size);
    assert bytes[..HEADER_BYTES] == Header(size);
    assert bytes[HEADER_BYTES..HEADER_BYTES + size] == Payload(m);
    RoundTripExactly(m);
  }

  function Frames(ms: seq<Message>): string
    requires forall i :: 0 <= i < |ms| ==> Faithful(ms[i])
  {
    if ms == [] then ""
    else
      assert Faithful(ms[0]);
      Frame(ms[0]) + Frames(ms[1..])
  }

  /** Frames sent one after another are received as the same messages. */
  lemma {:induction false} StreamRoundTrip(ms: seq<Message>)
    requires forall i :: 0 <= i < |ms| ==> Faithful(ms[i])
    ensures Messages(Frames(ms)) == ms
  {
    if ms != [] {
      var rest := Frames(ms[1..]);
      FrameFirst(ms[0], rest);
      assert (Frame(ms[0]) + rest)[|Frame(ms[0])|..] == rest;
      StreamRoundTrip(ms[1..]);
    }
  }

  // ---- The socket ------------------------------------------------------------------------

  /**
   One system call as the kernel answers it: interrupted, some bytes moved, or an error. By the time
   of a read, the other side has written `arrive` bytes more.
   */
  datatype IoStep = Interrupted | Moved(extra: nat, arrive: nat) | Failed

  function Moves(steps: seq<IoStep>): nat {
    if steps == [] then 0 else (if steps[0].Moved? then 1 else 0) + Moves(steps[1..])
  }

  /** The kernel will move bytes at least `n` more times and report no error. */
  ghost predicate Fair(steps: seq<IoStep>, n: int) {
    Moves(steps) >= n && forall i :: 0 <= i < |steps| ==> !steps[i].Failed?
  }

  lemma FairStep(steps: seq<IoStep>, n: int)
    requires Fair(steps, n) && n > 0
    ensures steps != [] && !steps[0].Failed?
    ensures Fair(steps[1..], if steps[0].Moved? then n - 1 else n)
  {}

  datatype SysResult = Count(n: nat) | EndOfFile | Eintr | Error | Blocked

  function Min(a: nat, b: nat): nat {
    if a < b then a else b
  }

  /** Descriptors a peer attached, by the offset of the byte that carries them. */
  type Attachments = map<nat, seq<int>>

  /** Descriptors that fit the control buffer: sized for one, it has room for two with its padding. */
  const CONTROL_ROOM: nat := 2

  /** The descriptors attached to the earliest of the bytes `begin..end`. */
  function FirstAttached(attached: Attachments, begin: nat, end: nat): seq<int>
    requires begin <= end
    decreases end - begin
  {
    if begin == end then []
    else if begin in attached then attached[begin]
    else FirstAttached(attached, begin + 1, end)
  }

  /** Those of them a call with a control buffer installs; without room the rest are dropped. */
  function Installed(attached: Attachments, begin: nat, end: nat): (fds: seq<int>)
    requires begin <= end
    ensures |fds| <= CONTROL_ROOM
  {
    var fds := FirstAttached(attached, begin, end);
    if |fds| <= CONTROL_ROOM then fds else fds[..CONTROL_ROOM]
  }

  /** Every list hangs on a byte that was written and names open descriptors. */
  ghost predicate AttachedWithin(attached: Attachments, length: nat) {
    forall o :: o in attached ==>
      o < length && attached[o] != [] && forall i :: 0 <= i < |attached[o]| ==> attached[o][i] >= 0
  }

  /**
   One direction of a connection. A sender does not look at what was read, so its bytes are kept
   whole in `stream`, and `arrived` says how many of them had been written when the receiver last
   called: a receiver may overtake the sender in the middle of a frame and then waits for it.
   */
  class Channel {
    var stream: string
    var attached: Attachments
    var arrived: nat
    var consumed: nat
    var writerGone: bool
    var sends: seq<IoStep>
    var receives: seq<IoStep>

    ghost predicate Valid()
      reads this
    {
      consumed <= arrived <= |stream| && AttachedWithin(attached, |stream|)
    }

    ghost function Unread(): string
      requires Valid()
      reads this
    {
      stream[consumed..]
    }

    /** `send`/`sendmsg`: takes at least one byte of a non-empty buffer, the descriptor with the first. */
    method Send(data: string, fd: int) returns (r: SysResult)
      requires Valid() && data != ""
      modifies this`stream, this`attached, this`sends
      ensures Valid()
      ensures r.Count? || r.Eintr? || r.Error? || r.Blocked?
      ensures r.Count? ==> 1 <= r.n <= |data| && stream == old(stream) + data[..r.n]
      ensures r.Count? ==> attached == if fd >= 0 then old(attached)[|old(stream)| := [fd]] else old(attached)
      ensures !r.Count? ==> stream == old(stream) && attached == old(attached)
      ensures old(sends) == [] ==> r.Blocked?
      ensures old(sends) != [] ==> !r.Blocked? && sends == old(sends)[1..]
      ensures old(sends) != [] ==> (r.Count? <==> old(sends)[0].Moved?) && (r.Error? <==> old(sends)[0].Failed?)
    {
      if sends == [] {
        return Blocked;
      }
      var step := sends[0];
      sends := sends[1..];
      match step
      case Interrupted => return Eintr;
      case Failed => return Error;
      case Moved(extra, _) =>
        var n := Min(extra + 1, |data|);
        if fd >= 0 {
          attached := attached[|stream| := [fd]];
        }
        stream := stream + data[..n];
        return Count(n);
    }

    /**
     `read`/`recvmsg`, waiting for a byte if none is there. With a control buffer the descriptors
     attached to the bytes read are installed as far as they fit; without one they are dropped.
     */
    method Receive(limit: nat, control: bool) returns (r: SysResult, data: string, fds: seq<int>)
      requires Valid() && limit > 0
      modifies this`arrived, this`consumed, this`receives
      ensures Valid() && |receives| <= |old(receives)|
      ensures r.Count? ==> 1 <= r.n <= limit && r.n == |data| && consumed == old(consumed) + r.n
      ensures r.Count? ==> data == stream[old(consumed)..consumed]
      ensures !r.Count? ==> consumed == old(consumed)
      ensures r.EndOfFile? ==> consumed == |stream| && writerGone
      ensures fds == if r.Count? && control then Installed(attached, old(consumed), consumed) else []
      ensures old(receives) == [] ==> r.Blocked?
      ensures old(receives) != [] ==> receives == old(receives)[1..]
      ensures old(receives) != [] ==> (r.Eintr? <==> old(receives)[0].Interrupted?)
      ensures old(receives) != [] ==> (r.Error? <==> old(receives)[0].Failed?)
      ensures old(receives) != [] && old(receives)[0].Moved? && old(consumed) < |stream| ==> r.Count?
    {
      data, fds := "", [];
      if receives == [] {
        return Blocked, data, fds;
      }
      var step := receives[0];
      receives := receives[1..];
      match step
      case Interrupted => r := Eintr;
      case Failed => r := Error;
      case Moved(extra, arrive) =>
        arrived := Min(arrived + arrive, |stream|);
        if consumed == |stream| {
          r := if writerGone then EndOfFile else Blocked;
        } else {
          if consumed == arrived {
            arrived := arrived + 1;
          }
          var n := Min(Min(extra + 1, limit), arrived - consumed);
          data := stream[consumed..consumed + n];
          if control {
            fds := Installed(attached, consumed, consumed + n);
          }
          consumed := consumed + n;
          r := Count(n);
        }
    }
  }

  // ---- Sending ---------------------------------------------------------------------------------

  /** How a loop over system calls ended: all bytes moved, an error, or still waiting. */
  datatype Outcome = Done | Broken | Stalled | Rejected

  /** `need` is how many more moves the schedule is relied on to make, this buffer included. */
  method WriteAll(ch: Channel, buffer: string, ghost need: nat) returns (out: Outcome, ghost sent: nat)
    requires ch.Valid()
    modifies ch`stream, ch`attached, ch`sends
    ensures ch.Valid() && ch.attached == old(ch.attached)
    ensures sent <= |buffer| && ch.stream == old(ch.stream) + buffer[..sent]
    ensures out in {Done, Broken, Stalled} && (out == Done <==> sent == |buffer|)
    ensures Fair(old(ch.sends), need) && need >= |buffer| ==> out == Done && Fair(ch.sends, need - |buffer|)
  {
    var cursor: nat := 0;
    assert old(ch.stream) + buffer[..0] == old(ch.stream);
    while cursor < |buffer|
      invariant cursor <= |buffer| && ch.Valid() && ch.attached == old(ch.attached)
      invariant ch.stream == old(ch.stream) + buffer[..cursor]
      invariant Fair(old(ch.sends), need) && need >= |buffer| ==> Fair(ch.sends, need - cursor)
      decreases |ch.sends|
    {
      if Fair(ch.sends, need - cursor) && need >= |buffer| {
        FairStep(ch.sends, need - cursor);
      }
      var written := ch.Send(buffer[cursor..], -1);
      match written
      case Count(n) =>
        Extend(old(ch.stream), buffer, cursor, n);
        cursor := cursor + n;
      case Eintr =>
      case Blocked => return Stalled, cursor;
      case _ => return Broken, cursor;
    }
    return Done, cursor;
  }

  lemma Extend(front: string, buffer: string, cursor: nat, n: nat)
    requires cursor + n <= |buffer|
    ensures front + buffer[..cursor] + buffer[cursor..][..n] == front + buffer[..cursor + n]
  {
    assert buffer[..cursor] + buffer[cursor..][..n] == buffer[..cursor + n];
  }

  method SendMessage(ch: Channel, m: Message, ghost need: nat) returns (out: Outcome, ghost sent: nat)
    requires ch.Valid()
    modifies ch`stream, ch`attached, ch`sends
    ensures ch.Valid() && ch.attached == old(ch.attached)
    ensures out == Rejected <==> !Sendable(m)
    ensures out == Rejected ==> ch.stream == old(ch.stream)
    ensures Sendable(m) ==> sent <= |Frame(m)| && ch.stream == old(ch.stream) + Frame(m)[..sent]
    ensures Sendable(m) ==> (out == Done <==> sent == |Frame(m)|)
    ensures Sendable(m) && Fair(old(ch.sends), need) && need >= |Frame(m)| ==>
              out == Done && Fair(ch.sends, need - |Frame(m)|)
  {
    sent := 0;
    var payload := EncodeMessage(m);
    if payload.Err? || |payload.value| > MAX_PAYLOAD {
      return Rejected, 0;
    }
    var header := Header(|payload.value|);
    out, sent := WriteAll(ch, header, need);
    assert Frame(m)[..sent] == header[..sent];
    if out != Done {
      return;
    }
    ghost var rest: nat;
    out, rest := WriteAll(ch, payload.value, if need >= HEADER_BYTES then need - HEADER_BYTES else 0);
    SplitFrame(old(ch.stream), header, payload.value, rest);
    sent := HEADER_BYTES + rest;
  }

  lemma SplitFrame(front: string, header: string, payload: string, rest: nat)
    requires rest <= |payload|
    ensures front + header[..|header|] + payload[..rest] == front + (header + payload)[..|header| + rest]
  {
    assert header[..|header|] == header;
    assert (header + payload)[..|header| + rest] == header + payload[..rest];
  }

  /** The descriptor-bearing sender: the same bytes, the descriptor on the frame's first byte and no other. */
  method SendMessageWithFd(ch: Channel, m: Message, fd: int) returns (out: Outcome, ghost sent: nat)
    requires ch.Valid()
    modifies ch`stream, ch`attached, ch`sends
    ensures ch.Valid()
    ensures out == Rejected <==> !Sendable(m)
    ensures out == Rejected ==> ch.stream == old(ch.stream) && ch.attached == old(ch.attached)
    ensures Sendable(m) ==> sent <= |Frame(m)| && ch.stream == old(ch.stream) + Frame(m)[..sent]
    ensures Sendable(m) ==> (out == Done <==> sent == |Frame(m)|)
    ensures Sendable(m) && Fair(old(ch.sends), |Frame(m)|) ==> out == Done
    ensures Sendable(m) ==>
              ch.attached ==
              if fd >= 0 && sent > 0 then old(ch.attached)[|old(ch.stream)| := [fd]] else old(ch.attached)
  {
    sent := 0;
    var payload := EncodeMessage(m);
    if payload.Err? || |payload.value| > MAX_PAYLOAD {
      return Rejected, 0;
    }
    var wire := Header(|payload.value|) + payload.value;
    var totalSent: nat := 0;
    var control := fd;
    assert old(ch.stream) + wire[..0] == old(ch.stream);
    while totalSent < |wire|
      invariant totalSent <= |wire| && ch.Valid()
      invariant ch.stream == old(ch.stream) + wire[..totalSent]
      invariant totalSent == 0 ==> control == fd && ch.attached == old(ch.attached)
      invariant totalSent > 0 ==>
        ch.attached == if fd >= 0 then old(ch.attached)[|old(ch.stream)| := [fd]] else old(ch.attached)
      invariant Fair(old(ch.sends), |wire|) ==> Fair(ch.sends, |wire| - totalSent)
      decreases |ch.sends|
    {
      if Fair(ch.sends, |wire| - totalSent) {
        FairStep(ch.sends, |wire| - totalSent);
      }
      if totalSent > 0 {
        control := -1;
      }
      var count := ch.Send(wire[totalSent..], control);
      match count
      case Count(n) =>
        Extend(old(ch.stream), wire, totalSent, n);
        totalSent := totalSent + n;
      case Eintr =>
      case Blocked => return Stalled, totalSent;
      case _ => return Broken, totalSent;
    }
    return Done, totalSent;
  }

  // ---- Receiving --------------------------------------------------------------------------------

  lemma ReadOn(stream: string, a: nat, b: nat, c: nat)
    requires a <= b <= c <= |stream|
    ensures stream[a..b] + stream[b..c] == stream[a..c]
  {}

  method ReadAll(ch: Channel, size: nat, ghost need: nat) returns (out: Outcome, data: string)
    requires ch.Valid()
    modifies ch`arrived, ch`consumed, ch`receives
    ensures ch.Valid()
    ensures |data| <= size && ch.consumed == old(ch.consumed) + |data|
    ensures data == ch.stream[old(ch.consumed)..ch.consumed]
    ensures out in {Done, Broken, Stalled} && (out == Done <==> |data| == size)
    ensures Fair(old(ch.receives), need) && need >= size && old(ch.consumed) + size <= |ch.stream|
            ==> out == Done && Fair(ch.receives, need - size)
  {
    data := "";
    while |data| < size
      invariant |data| <= size && ch.Valid() && ch.consumed == old(ch.consumed) + |data|
      invariant data == ch.stream[old(ch.consumed)..ch.consumed]
      invariant Fair(old(ch.receives), need) && need >= size && old(ch.consumed) + size <= |ch.stream|
                ==> Fair(ch.receives, need - |data|)
      decreases |ch.receives|
    {
      if Fair(ch.receives, need - |data|) && need >= size {
        FairStep(ch.receives, need - |data|);
      }
      var count, chunk, _ := ch.Receive(size - |data|, false);
      match count
      case Count(n) =>
        ReadOn(ch.stream, old(ch.consumed), ch.consumed - n, ch.consumed);
        data := data + chunk;
      case Eintr =>
      case Blocked => return Stalled, data;
      case _ => return Broken, data;
    }
    return Done, data;
  }

  /** What a receiver returns: a frame, decoded or not; a refused length; or the connection was lost. */
  datatype Received = Got(message: Result<Message>) | TooLarge | Lost

  method ReceiveMessage(ch: Channel) returns (r: Received)
    requires ch.Valid()
    modifies ch`arrived, ch`consumed, ch`receives
    ensures ch.Valid() && ch.consumed >= old(ch.consumed)
    ensures r.Got? ==> FirstFrame(old(ch.Unread())) == Complete(r.message, ch.consumed - old(ch.consumed))
    ensures r.TooLarge? ==> FirstFrame(old(ch.Unread())) == Oversized
    ensures Fair(old(ch.receives), |old(ch.Unread())|) && !FirstFrame(old(ch.Unread())).Incomplete? ==> !r.Lost?
    ensures Fair(old(ch.receives), |old(ch.Unread())|) && r.Got? ==> Fair(ch.receives, |ch.Unread()|)
  {
    ghost var unread := ch.Unread();
    var out, header := ReadAll(ch, HEADER_BYTES, |unread|);
    if out != Done {
      return Lost;
    }
    assert header == unread[..HEADER_BYTES];
    var size := HeaderValue(header);
    if size > MAX_PAYLOAD {
      return TooLarge;
    }
    r := ReceivePayload(ch, size, unread);
  }

  method ReceivePayload(ch: Channel, size: nat, ghost unread: string) returns (r: Received)
    requires ch.Valid() && size <= MAX_PAYLOAD
    requires |unread| >= HEADER_BYTES && size == HeaderValue(unread[..HEADER_BYTES])
    requires ch.consumed + |unread| == |ch.stream| + HEADER_BYTES && ch.Unread() == unread[HEADER_BYTES..]
    modifies ch`arrived, ch`consumed, ch`receives
    ensures ch.Valid() && ch.consumed >= old(ch.consumed)
    ensures r.Got? || r.Lost?
    ensures r.Got? ==> FirstFrame(unread) == Complete(r.message, HEADER_BYTES + ch.consumed - old(ch.consumed))
    ensures Fair(old(ch.receives), |unread| - HEADER_BYTES) && !FirstFrame(unread).Incomplete? ==> r.Got?
    ensures Fair(old(ch.receives), |unread| - HEADER_BYTES) && r.Got? ==> Fair(ch.receives, |ch.Unread()|)
  {
    var out, payload := ReadAll(ch, size, |unread| - HEADER_BYTES);
    if out != Done {
      return Lost;
    }
    assert payload == unread[HEADER_BYTES..HEADER_BYTES + size];
    var message := DecodeMessage(payload);
    r := Got(message);
  }

  // ---- Descriptors --------------------------------------------------------------------------------

  /** The calls to `close`, in order. */
  class Descriptors {
    var closed: seq<int>

    method Close(fd: int)
      modifies this
      ensures closed == old(closed) + [fd]
    {
      closed := closed + [fd];
    }
  }

  /** The descriptor a receiver keeps of those installed. */
  function Kept(fds: seq<int>): int {
    if fds == [] then -1 else fds[0]
  }

  /** Whatever a call installed is a prefix of one list attached to the bytes it came with. */
  lemma {:induction false} FromThoseBytes(attached: Attachments, begin: nat, end: nat)
    requires begin <= end
    ensures FirstAttached(attached, begin, end) == [] ||
            exists o :: begin <= o < end && o in attached && FirstAttached(attached, begin, end) == attached[o]
    decreases end - begin
  {
    if begin < end && begin !in attached {
      FromThoseBytes(attached, begin + 1, end);
    }
  }

  /** A shorter read installs nothing or what a longer one does. */
  lemma {:induction false} ShorterRead(attached: Attachments, begin: nat, mid: nat, end: nat)
    requires begin <= mid <= end
    ensures FirstAttached(attached, begin, mid) == []
            || FirstAttached(attached, begin, mid) == FirstAttached(attached, begin, end)
    decreases mid - begin
  {
    if begin < mid && begin !in attached {
      ShorterRead(attached, begin + 1, mid, end);
    }
  }

  lemma InstalledValid(attached: Attachments, length: nat, begin: nat, end: nat)
    requires AttachedWithin(attached, length) && begin <= end
    ensures forall i :: 0 <= i < |Installed(attached, begin, end)| ==> Installed(attached, begin, end)[i] >= 0
  {
    FromThoseBytes(attached, begin, end);
  }

  /** A header partly read: the first successful call read `first` bytes and installed what they carried. */
  ghost predicate HeaderRead(ch: Channel, start: nat, header: string, first: nat, fds: seq<int>)
    reads ch
  {
    && ch.Valid() && |header| <= HEADER_BYTES && ch.consumed == start + |header|
    && header == ch.stream[start..ch.consumed]
    && first <= |header| && (first == 0 <==> header == "")
    && fds == Installed(ch.attached, start, start + first)
  }

  /**
   Reads a header. Only the first successful call has room for descriptors, and the first of those
   it installs is kept.
   */
  method ReceiveHeader(ch: Channel, ghost need: nat)
    returns (out: Outcome, header: string, fd: int, ghost fds: seq<int>, ghost first: nat)
    requires ch.Valid()
    modifies ch`arrived, ch`consumed, ch`receives
    ensures HeaderRead(ch, old(ch.consumed), header, first, fds) && fd == Kept(fds)
    ensures out in {Done, Broken, Stalled} && (out == Done <==> |header| == HEADER_BYTES)
    ensures Fair(old(ch.receives), need) && need >= HEADER_BYTES && old(ch.consumed) + HEADER_BYTES <= |ch.stream|
            ==> out == Done && Fair(ch.receives, need - HEADER_BYTES)
  {
    header, fd, fds, first := "", -1, [], 0;
    ghost var start := ch.consumed;
    ghost var plenty := Fair(ch.receives, need) && need >= HEADER_BYTES && start + HEADER_BYTES <= |ch.stream|;
    while |header| < HEADER_BYTES
      invariant HeaderRead(ch, start, header, first, fds) && fd == Kept(fds)
      invariant plenty ==> Fair(ch.receives, need - |header|)
      decreases |ch.receives|
    {
      var count;
      count, header, fd, fds, first := ReadHeaderOn(ch, start, header, fd, fds, first, need, plenty);
      match count
      case Count(_) =>
      case Eintr =>
      case Blocked => return Stalled, header, fd, fds, first;
      case _ => return Broken, header, fd, fds, first;
    }
    return Done, header, fd, fds, first;
  }

  /** One call for more of a header. */
  method ReadHeaderOn(ch: Channel, ghost start: nat, had: string, kept: int, ghost installed: seq<int>,
                      ghost before: nat, ghost need: nat, ghost plenty: bool)
    returns (count: SysResult, header: string, fd: int, ghost fds: seq<int>, ghost first: nat)
    requires HeaderRead(ch, start, had, before, installed) && kept == Kept(installed) && |had| < HEADER_BYTES
    requires plenty ==> Fair(ch.receives, need - |had|) && need >= HEADER_BYTES && start + HEADER_BYTES <= |ch.stream|
    modifies ch`arrived, ch`consumed, ch`receives
    ensures HeaderRead(ch, start, header, first, fds) && fd == Kept(fds)
    ensures plenty ==> Fair(ch.receives, need - |header|) && (count.Count? || count.Eintr?)
    ensures !count.Count? ==> header == had
    ensures count.Count? || count.Eintr? ==> |ch.receives| < |old(ch.receives)|
  {
    if plenty {
      FairStep(ch.receives, need - |had|);
    }
    header, fd, fds, first := had, kept, installed, before;
    var chunk, received;
    count, chunk, received := ch.Receive(HEADER_BYTES - |had|, |had| == 0);
    if count.Count? {
      if |had| == 0 {
        fd, fds, first := Kept(received), received, count.n;
      }
      ReadOn(ch.stream, start, ch.consumed - count.n, ch.consumed);
      header := had + chunk;
    }
  }

  /**
   The kept descriptor is handed over with whatever result, except that a refused length closes it here.
   `fds` are those installed by the first successful call, which read `first` bytes.
   */
  method ReceiveMessageWithFd(ch: Channel, table: Descriptors)
    returns (r: Received, fd: int, ghost fds: seq<int>, ghost first: nat)
    requires ch.Valid()
    modifies ch`arrived, ch`consumed, ch`receives, table
    ensures ch.Valid() && ch.consumed >= old(ch.consumed)
    ensures r.Got? ==> FirstFrame(old(ch.Unread())) == Complete(r.message, ch.consumed - old(ch.consumed))
    ensures r.TooLarge? ==> FirstFrame(old(ch.Unread())) == Oversized
    ensures Fair(old(ch.receives), |old(ch.Unread())|) && !FirstFrame(old(ch.Unread())).Incomplete? ==> !r.Lost?
    ensures first <= HEADER_BYTES && old(ch.consumed) + first <= ch.consumed
    ensures first == 0 <==> ch.consumed == old(ch.consumed)
    ensures fds == Installed(ch.attached, old(ch.consumed), old(ch.consumed) + first)
    ensures table.closed == if r.TooLarge? && fds != [] then old(table.closed) + [fds[0]] else old(table.closed)
    ensures fd == if r.TooLarge? then -1 else Kept(fds)
  {
    ghost var unread := ch.Unread();
    var out, header;
    out, header, fd, fds, first := ReceiveHeader(ch, |unread|);
    InstalledValid(ch.attached, |ch.stream|, old(ch.consumed), old(ch.consumed) + first);
    if out != Done {
      return Lost, fd, fds, first;
    }
    assert header == unread[..HEADER_BYTES];
    var size := HeaderValue(header);
    if size > MAX_PAYLOAD {
      if fd >= 0 {
        table.Close(fd);
        fd := -1;
      }
      return TooLarge, fd, fds, first;
    }
    r := ReceivePayload(ch, size, unread);
  }

  /** Each descriptor is among the calls to `close` exactly once. */
  ghost predicate EachClosedOnce(fds: seq<int>, calls: seq<int>) {
    forall i :: 0 <= i < |fds| ==> multiset(calls)[fds[i]] == 1
  }

  /** The numbers the kernel gives installed descriptors: open nowhere else, the connection's among them. */
  ghost predicate NewNumbers(fds: seq<int>, clientFd: int) {
    clientFd !in fds && forall i, j :: 0 <= i < j < |fds| ==> fds[i] != fds[j]
  }

  /** Closing the kept one and the connection closes each installed one once exactly when there is at most one. */
  lemma ClosedOnceExactly(fds: seq<int>, clientFd: int)
    requires NewNumbers(fds, clientFd)
    ensures EachClosedOnce(fds, (if fds != [] then [fds[0]] else []) + [clientFd]) <==> |fds| <= 1
  {
    var calls := (if fds != [] then [fds[0]] else []) + [clientFd];
    if |fds| == 1 {
      assert calls == [fds[0], clientFd];
    } else if |fds| > 1 {
      assert fds[1] !in calls;
      assert multiset(calls)[fds[1]] == 0;
    }
  }

  /** No schedule of reads installs two descriptors exactly when a read of the whole header does not. */
  lemma AtMostOneExactly(attached: Attachments, start: nat)
    ensures (forall end :: start <= end <= start + HEADER_BYTES ==> |Installed(attached, start, end)| <= 1) <==>
            |Installed(attached, start, start + HEADER_BYTES)| <= 1
  {
    forall end | start <= end <= start + HEADER_BYTES
      ensures |Installed(attached, start, end)| <= |Installed(attached, start, start + HEADER_BYTES)| {
      ShorterRead(attached, start, end, start + HEADER_BYTES);
    }
  }

  /**
   One connection of the daemon loop. `known` says whether the peer could be identified,
   `handled` whether the request succeeded; neither touches a descriptor. On every path, and
   wherever the peer attached them, the first installed descriptor is closed once and then the
   connection. So every installed one is closed exactly once if and only if at most one was.
   */
  method ServeConnection(ch: Channel, table: Descriptors, clientFd: int, known: bool, handled: Message -> bool)
    returns (answered: bool, ghost fds: seq<int>, ghost first: nat)
    requires ch.Valid()
    modifies ch`arrived, ch`consumed, ch`receives, table
    ensures table.closed == old(table.closed) + ((if fds != [] then [fds[0]] else []) + [clientFd])
    ensures first <= HEADER_BYTES && old(ch.consumed) + first <= ch.consumed
    ensures first == 0 <==> ch.consumed == old(ch.consumed)
    ensures fds == Installed(ch.attached, old(ch.consumed), old(ch.consumed) + first)
    ensures |Installed(ch.attached, old(ch.consumed), old(ch.consumed) + HEADER_BYTES)| <= 1 ==> |fds| <= 1
    ensures NewNumbers(fds, clientFd) ==>
              (EachClosedOnce(fds, table.closed[|old(table.closed)|..]) <==> |fds| <= 1)
    ensures answered ==> exists m: Message, used: nat ::
              FirstFrame(old(ch.Unread())) == Complete(Ok(m), used) && handled(m)
  {
    var ancillaryFd := -1;
    answered, fds, first := false, [], 0;
    if known {
      var request;
      request, ancillaryFd, fds, first := ReceiveMessageWithFd(ch, table);
      if request.Got? && request.message.Ok? {
        answered := handled(request.message.value);
        assert FirstFrame(old(ch.Unread())) == Complete(Ok(request.message.value), ch.consumed - old(ch.consumed));
      }
    }
    InstalledValid(ch.attached, |ch.stream|, old(ch.consumed), old(ch.consumed) + first);
    if ancillaryFd >= 0 {
      table.Close(ancillaryFd);
    }
    table.Close(clientFd);
    AtMostOneExactly(ch.attached, old(ch.consumed));
    ClosedOnConnection(old(table.closed), table.closed, fds, clientFd);
  }

  lemma ClosedOnConnection(before: seq<int>, after: seq<int>, fds: seq<int>, clientFd: int)
    requires after == before + ((if fds != [] then [fds[0]] else []) + [clientFd])
    ensures |before| <= |after|
    ensures NewNumbers(fds, clientFd) ==> (EachClosedOnce(fds, after[|before|..]) <==> |fds| <= 1)
  {
    AppendedCalls(before, (if fds != [] then [fds[0]] else []) + [clientFd], after);
    if NewNumbers(fds, clientFd) {
      ClosedOnceExactly(fds, clientFd);
    }
  }

  lemma AppendedCalls(before: seq<int>, calls: seq<int>, after: seq<int>)
    requires after == before + calls
    ensures after[|before|..] == calls
  {}

  /**
   A peer that attaches two descriptors to the first byte of its request: once a byte is read both
   are installed, whatever the schedule, and the second is never closed.
   */
  method SecondDescriptorStays(ch: Channel, table: Descriptors, clientFd: int, handled: Message -> bool, a: int, b: int)
    returns (ghost fds: seq<int>)
    requires ch.Valid() && ch.consumed in ch.attached && ch.attached[ch.consumed] == [a, b]
    requires NewNumbers([a, b], clientFd)
    modifies ch`arrived, ch`consumed, ch`receives, table
    ensures ch.consumed > old(ch.consumed) ==>
              fds == [a, b] && table.closed == old(table.closed) + [a, clientFd] && b !in [a, clientFd]
  {
    var answered;
    ghost var first;
    answered, fds, first := ServeConnection(ch, table, clientFd, true, handled);
    assert [a] + [clientFd] == [a, clientFd];
    assert [a, b][0] != [a, b][1];
  }

  /**
   A request over a drained connection arrives whole, with its descriptor, whatever the
   pieces in which either side moved it.
   */
  method Exchange(ch: Channel, table: Descriptors, m: Message, fd: int) returns (r: Received, received: int)
    requires ch.Valid() && ch.consumed == |ch.stream| && Faithful(m) && fd >= -1
    requires Fair(ch.sends, |Frame(m)|) && Fair(ch.receives, |Frame(m)|)
    modifies ch, table
    ensures r == Got(Ok(m)) && received == fd
    ensures ch.Valid() && ch.consumed == |ch.stream| && table.closed == old(table.closed)
  {
    ghost var start := |ch.stream|;
    var out, sent := SendMessageWithFd(ch, m, fd);
    assert ch.stream[..start] == old(ch.stream);
    SentWhole(ch.stream, start, Frame(m), sent);
    FrameFirst(m, "");
    ghost var fds, first;
    r, received, fds, first := ReceiveMessageWithFd(ch, table);
    OnlyFirst(ch.attached, start, first);
  }

  /** What this repository's sender leaves: no descriptor but on the first byte of a header. */
  lemma OnlyFirst(attached: Attachments, start: nat, n: nat)
    requires n >= 1 && forall o :: o > start ==> o !in attached
    ensures FirstAttached(attached, start, start + n) == if start in attached then attached[start] else []
  {
    NoneAttached(attached, start + 1, start + n);
  }

  lemma {:induction false} NoneAttached(attached: Attachments, begin: nat, end: nat)
    requires begin <= end && forall o :: begin <= o < end ==> o !in attached
    ensures FirstAttached(attached, begin, end) == []
    decreases end - begin
  {
    if begin < end {
      NoneAttached(attached, begin + 1, end);
    }
  }

  lemma SentWhole(stream: string, start: nat, frame: string, sent: nat)
    requires start <= |stream| && sent == |frame| && stream == stream[..start] + frame[..sent]
    ensures stream[start..] == frame + "" && frame + "" == frame && frame[..sent] == frame
  {}

  lemma FramesStep(ms: seq<Message>, i: nat)
    requires i < |ms| && forall j :: 0 <= j < |ms| ==> Faithful(ms[j])
    ensures Frames(ms[i..]) == Frame(ms[i]) + Frames(ms[i + 1..])
  {
    assert ms[i..][0] == ms[i] && ms[i..][1..] == ms[i + 1..];
  }

  method SendAll(ch: Channel, ms: seq<Message>)
    requires ch.Valid() && forall i :: 0 <= i < |ms| ==> Faithful(ms[i])
    requires Fair(ch.sends, |Frames(ms)|)
    modifies ch`stream, ch`attached, ch`sends
    ensures ch.Valid() && ch.stream == old(ch.stream) + Frames(ms)
  {
    assert ms[0..] == ms;
    for i := 0 to |ms|
      invariant ch.Valid() && ch.stream + Frames(ms[i..]) == old(ch.stream) + Frames(ms)
      invariant Fair(ch.sends, |Frames(ms[i..])|)
    {
      FramesStep(ms, i);
      ConcatAssociative(ch.stream, Frame(ms[i]), Frames(ms[i + 1..]));
      var out, sent := SendMessage(ch, ms[i], |Frames(ms[i..])|);
      assert Frame(ms[i])[..sent] == Frame(ms[i]);
    }
  }

  method ReceiveNext(ch: Channel, ghost m: Message, ghost rest: string) returns (received: Message)
    requires ch.Valid() && Faithful(m) && ch.Unread() == Frame(m) + rest
    requires Fair(ch.receives, |ch.Unread()|)
    modifies ch`arrived, ch`consumed, ch`receives
    ensures ch.Valid() && received == m && ch.Unread() == rest && Fair(ch.receives, |rest|)
  {
    FrameFirst(m, rest);
    var r := ReceiveMessage(ch);
    assert ch.Unread() == (Frame(m) + rest)[|Frame(m)|..];
    received := r.message.value;
  }

  lemma OneMore(ms: seq<Message>, i: nat)
    requires i < |ms|
    ensures ms[..i + 1] == ms[..i] + [ms[i]]
  {}

  method ReceiveAll(ch: Channel, ghost ms: seq<Message>, count: nat) returns (received: seq<Message>)
    requires ch.Valid() && count == |ms| && forall i :: 0 <= i < |ms| ==> Faithful(ms[i])
    requires ch.Unread() == Frames(ms) && Fair(ch.receives, |Frames(ms)|)
    modifies ch`arrived, ch`consumed, ch`receives
    ensures ch.Valid() && received == ms && ch.Unread() == ""
  {
    received := [];
    assert ms[0..] == ms;
    for i := 0 to count
      invariant ch.Valid() && ch.Unread() == Frames(ms[i..]) && received == ms[..i]
      invariant Fair(ch.receives, |Frames(ms[i..])|)
    {
      FramesStep(ms, i);
      OneMore(ms, i);
      var m := ReceiveNext(ch, ms[i], Frames(ms[i + 1..]));
      received := received + [m];
    }
  }

  /**
   A sequence of messages over a drained connection arrives as the same sequence, however the bytes
   are cut and however reads and writes interleave.
   */
  method Converse(ch: Channel, ms: seq<Message>) returns (received: seq<Message>)
    requires ch.Valid() && ch.consumed == |ch.stream| && forall i :: 0 <= i < |ms| ==> Faithful(ms[i])
    requires Fair(ch.sends, |Frames(ms)|) && Fair(ch.receives, |Frames(ms)|)
    modifies ch
    ensures received == ms && ch.Valid() && ch.consumed == |ch.stream|
  {
    SendAll(ch, ms);
    received := ReceiveAll(ch, ms, |ms|);
  }
}
