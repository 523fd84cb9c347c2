/**
 Whole messages: the header reader and a payload reader, one after the other, on a well
 formed stream. The reader ends where the next message begins.
 */
module Messages {
  import opened Align
  import opened Wire
  import opened HdrScan
  import opened Payload
  import opened Frames

  /** The 8 header bytes of the message with filler `f` and `m` syncs at `s`. */
  function HeaderBytes(data: seq<bv8>, s: nat, f: nat, m: nat): seq<bv8>
    requires s + f + 4 * m + 8 <= |data|
  {
    data[s + f + 4 * m..s + f + 4 * m + 8]
  }

  /** The bytes of an event of `len` payload bytes that the host keeps: the header, as many
      whole words of payload as fit, zeros behind them. */
  function EventBytes(data: seq<bv8>, h: nat, len: nat, max: nat): seq<bv8>
    requires h + 8 + Align4(len) <= |data|
  {
    var n := Min(Align4(len), max);
    data[h..h + 8 + n] + seq(max - n, _ => 0)
  }

  /** The header of a well formed message that is not lost. */
  method ReadHeader(l: Link, temp: array<bv8>, ghost f: nat, ghost m: nat) returns (ok: bool)
    requires l.Valid() && temp.Length == 12
    requires Framed(l.pattern, l.txSeqNum, l.data, l.pos, f, m) && !Lost(l.data, l.pos, f, m)
    modifies l`pos, l`txSeqNum, temp
    ensures l.Valid() && ok && l.txSeqNum == old(l.txSeqNum) + 1
    ensures old(l.pos) + f + 4 * m + 8 == l.pos && temp[..8] == HeaderBytes(l.data, old(l.pos), f, m)
  {
    HeaderFoundIff(l.pattern, l.txSeqNum, l.data, l.pos, f, m);
    hide Framed, HeaderAt, Lost;
    ok := RxHdrRead(l, temp);
  }

  /** Clears the event buffer and copies the header to its front. */
  method StartEvent(buf: array<bv8>, temp: array<bv8>)
    requires temp.Length == 12 && buf.Length >= 8 && temp != buf
    modifies buf
    ensures forall k: nat :: k < buf.Length ==> buf[k] == if k < 8 then temp[..8][k] else 0
  {
    forall k | 0 <= k < buf.Length {
      buf[k] := if k < 8 then temp[k] else 0;
    }
  }

  /** An asynchronous event of any length, over-long ones included: the host stores its
      header and the prefix that fits, and the stream is left at the next message. */
  method ReadEvent(l: Link, temp: array<bv8>, buf: array<bv8>, tail: array<bv8>, len: seq<bv8> -> nat, max: nat,
                   ghost f: nat, ghost m: nat) returns (ok: bool, msgLen: nat)
    requires l.Valid() && temp.Length == 12 && tail.Length == 4 && AsyncMaxOk(max) && buf.Length == 8 + max
    requires temp != buf && temp != tail && buf != tail
    requires Framed(l.pattern, l.txSeqNum, l.data, l.pos, f, m) && !Lost(l.data, l.pos, f, m)
    requires len(HeaderBytes(l.data, l.pos, f, m)) < 0x1_0000
    requires l.pos + f + 4 * m + 8 + Align4(len(HeaderBytes(l.data, l.pos, f, m))) <= |l.data|
    modifies l`pos, l`txSeqNum, temp, buf, tail
    ensures l.Valid() && ok
    ensures var s := old(l.pos); var n := len(HeaderBytes(l.data, s, f, m));
      && l.pos == Next(s, Frame(f, m, Align4(n)))
      && msgLen == 8 + Min(Align4(n), max)
      && buf[..] == EventBytes(l.data, s + f + 4 * m, n, max)
    ensures l.txSeqNum == old(l.txSeqNum) + 1
  {
    ghost var s := l.pos;
    hide Framed, Lost, Stored, EventBytes;
    ok := ReadHeader(l, temp, f, m);
    var n := len(temp[..8]);
    StartEvent(buf, temp);
    ghost var was := buf[..];
    ok, msgLen := ReadAsync(l, buf, n, max, tail);
    KeptBytes(was, buf[..], l.data, s + f + 4 * m, n, max);
  }

  lemma KeptBytes(was: seq<bv8>, now: seq<bv8>, data: seq<bv8>, h: nat, len: nat, max: nat)
    requires h + 8 + Align4(len) <= |data| && |was| == 8 + max
    requires forall k: nat :: k < |was| ==> was[k] == if k < 8 then data[h + k] else 0
    requires Stored(was, now, 8, Min(Align4(len), max), data, h + 8)
    ensures now == EventBytes(data, h, len, max)
  {
  }

  /** What a message takes of the stream behind its header, when it is an event whose length
      field `len` reads. */
  function EventBody(len: seq<bv8> -> nat): seq<bv8> -> nat {
    h => Align4(len(h))
  }

  /** One event from any stream, well formed or not. */
  method ReadAnyEvent(l: Link, temp: array<bv8>, buf: array<bv8>, tail: array<bv8>, len: seq<bv8> -> nat, max: nat)
    returns (ok: bool)
    requires l.Valid() && temp.Length == 12 && tail.Length == 4 && AsyncMaxOk(max) && buf.Length == 8 + max
    requires temp != buf && temp != tail && buf != tail
    requires forall h: seq<bv8> :: len(h) < 0x1_0000
    modifies l`pos, l`txSeqNum, temp, buf, tail
    ensures l.Valid()
    ensures ok <==> EventEnd(l.pattern, old(l.txSeqNum), l.data, old(l.pos), len).Some?
    ensures ok ==> l.pos == EventEnd(l.pattern, old(l.txSeqNum), l.data, old(l.pos), len).value
    ensures ok ==> buf[..] == EventKept(l.pattern, old(l.txSeqNum), l.data, old(l.pos), len, max)
    ensures ok ==> l.txSeqNum == old(l.txSeqNum) + 1
  {
    hide HeaderAt, Stored, EventBytes;
    ok := RxHdrRead(l, temp);
    if !ok { return; }
    ghost var h := l.pos - 8;
    StartEvent(buf, temp);
    ghost var was := buf[..];
    var n := len(temp[..8]);
    var msgLen: nat;
    ok, msgLen := ReadAsync(l, buf, n, max, tail);
    if ok {
      KeptBytes(was, buf[..], l.data, h, n, max);
    }
  }

  /** What the host keeps of an event read from `s`, if it is there. */
  function EventKept(p: Pattern, num: bv8, data: seq<bv8>, s: nat, len: seq<bv8> -> nat, max: nat): seq<bv8>
    requires EventEnd(p, num, data, s, len).Some?
  {
    var h := HeaderAt(p, num, data, s).value;
    EventBytes(data, h, len(data[h..h + 8]), max)
  }

  /** What it keeps of up to `n` events in a row. */
  function EventsKept(p: Pattern, num: bv8, data: seq<bv8>, s: nat, len: seq<bv8> -> nat, max: nat,
                      n: nat): seq<seq<bv8>>
    decreases n
  {
    if n == 0 then []
    else
      var end := EventEnd(p, num, data, s, len);
      if end.None? then []
      else [EventKept(p, num, data, s, len, max)] + EventsKept(p, num + 1, data, end.value, len, max, n - 1)
  }

  /** Where an event read from `s` ends, if it is there. */
  function EventEnd(p: Pattern, num: bv8, data: seq<bv8>, s: nat, len: seq<bv8> -> nat): Offset {
    var h := HeaderAt(p, num, data, s);
    if h.None? then None
    else
      var end := h.value + 8 + Align4(len(data[h.value..h.value + 8]));
      if end > |data| then None else Some(end)
  }

  /** Where `n` events in a row end. */
  function EventsEnd(p: Pattern, num: bv8, data: seq<bv8>, s: nat, len: seq<bv8> -> nat, n: nat): Offset
    decreases n
  {
    if n == 0 then Some(s)
    else
      var end := EventEnd(p, num, data, s, len);
      if end.None? then None else EventsEnd(p, num + 1, data, end.value, len, n - 1)
  }

  lemma ReceiveStep(p: Pattern, num: bv8, data: seq<bv8>, s: nat, len: seq<bv8> -> nat, n: nat)
    requires n > 0
    ensures var end := EventEnd(p, num, data, s, len);
      |Receive(p, num, data, s, EventBody(len), n)| ==
      if end.None? then 0 else 1 + |Receive(p, num + 1, data, end.value, EventBody(len), n - 1)|
  {
    hide HeaderAt;
  }

  lemma KeptStep(p: Pattern, num: bv8, data: seq<bv8>, s: nat, len: seq<bv8> -> nat, max: nat, n: nat)
    requires n > 0
    ensures var end := EventEnd(p, num, data, s, len);
      EventsKept(p, num, data, s, len, max, n) ==
      if end.None? then []
      else [EventKept(p, num, data, s, len, max)] + EventsKept(p, num + 1, data, end.value, len, max, n - 1)
    ensures var end := EventEnd(p, num, data, s, len);
      EventsEnd(p, num, data, s, len, n) ==
      if end.None? then None else EventsEnd(p, num + 1, data, end.value, len, n - 1)
  {
    hide HeaderAt, EventEnd, EventKept;
  }

  /** The spawn thread's loop over `units` units of work, each an event: it takes exactly the
      messages that Receive says, hands on what is kept of each, and stops where one cannot
      be read. */
  method ReadEvents(l: Link, units: nat, temp: array<bv8>, buf: array<bv8>, tail: array<bv8>, len: seq<bv8> -> nat,
                    max: nat) returns (done: nat, events: seq<seq<bv8>>)
    requires l.Valid() && temp.Length == 12 && tail.Length == 4 && AsyncMaxOk(max) && buf.Length == 8 + max
    requires temp != buf && temp != tail && buf != tail
    requires forall h: seq<bv8> :: len(h) < 0x1_0000
    modifies l`pos, l`txSeqNum, temp, buf, tail
    ensures l.Valid()
    ensures done == |Receive(l.pattern, old(l.txSeqNum), l.data, old(l.pos), EventBody(len), units)|
    ensures events == EventsKept(l.pattern, old(l.txSeqNum), l.data, old(l.pos), len, max, units)
    ensures done == units <==> EventsEnd(l.pattern, old(l.txSeqNum), l.data, old(l.pos), len, units).Some?
    ensures done == units ==> l.pos == EventsEnd(l.pattern, old(l.txSeqNum), l.data, old(l.pos), len, units).value
  {
    hide HeaderAt, Receive, EventEnd, EventBody, EventKept, EventsKept, EventsEnd;
    ghost var p, data := l.pattern, l.data;
    done, events := 0, [];
    ghost var all := |Receive(p, l.txSeqNum, data, l.pos, EventBody(len), units)|;
    ghost var kept := EventsKept(p, l.txSeqNum, data, l.pos, len, max, units);
    while done < units
      invariant done <= units && l.Valid()
      invariant done + |Receive(p, l.txSeqNum, data, l.pos, EventBody(len), units - done)| == all
      invariant events + EventsKept(p, l.txSeqNum, data, l.pos, len, max, units - done) == kept
      invariant EventsEnd(p, old(l.txSeqNum), data, old(l.pos), len, units)
             == EventsEnd(p, l.txSeqNum, data, l.pos, len, units - done)
    {
      ReceiveStep(p, l.txSeqNum, data, l.pos, len, units - done);
      KeptStep(p, l.txSeqNum, data, l.pos, len, max, units - done);
      var ok := ReadAnyEvent(l, temp, buf, tail, len, max);
      if !ok { return; }
      events := events + [buf[..]];
      done := done + 1;
    }
    ReceiveNone(p, l.txSeqNum, data, l.pos, len, max);
  }

  /** Where a stream of messages ends. */
  function StreamEnd(s: nat, frs: seq<Frame>): nat
    decreases |frs|
  {
    if frs == [] then s else StreamEnd(Next(s, frs[0]), frs[1..])
  }

  /** Of a stream of events none of which is lost to its filler, all are read, to the end
      of the last, and of each the header and what fits of its payload is kept, in order. */
  lemma {:induction false} StreamOfEvents(p: Pattern, num: bv8, data: seq<bv8>, s: nat, len: seq<bv8> -> nat, max: nat,
                                          frs: seq<Frame>)
    requires Stream(p, num, data, s, EventBody(len), frs) && NoneLost(data, s, frs)
    ensures EventsEnd(p, num, data, s, len, |frs|) == Some(StreamEnd(s, frs))
    ensures |Headers(s, frs)| == |EventsKept(p, num, data, s, len, max, |frs|)| == |frs|
    ensures forall k :: 0 <= k < |frs| ==>
      var h := Headers(s, frs)[k];
      && h + 8 + Align4(len(Bytes8(data, h))) <= |data|
      && EventsKept(p, num, data, s, len, max, |frs|)[k] == EventBytes(data, h, len(Bytes8(data, h)), max)
    decreases |frs|
  {
    hide Framed, Lost, EventBytes, HeaderAt;
    if frs != [] {
      HeaderFoundIff(p, num, data, s, frs[0].filler, frs[0].syncs);
      StreamOfEvents(p, num + 1, data, Next(s, frs[0]), len, max, frs[1..]);
    }
  }

  function Bytes8(data: seq<bv8>, h: nat): seq<bv8> {
    if h + 8 <= |data| then data[h..h + 8] else []
  }

  /** The loop on such a stream. */
  method ReadStream(l: Link, temp: array<bv8>, buf: array<bv8>, tail: array<bv8>, len: seq<bv8> -> nat, max: nat,
                    units: nat, ghost frs: seq<Frame>) returns (done: nat, events: seq<seq<bv8>>)
    requires l.Valid() && temp.Length == 12 && tail.Length == 4 && AsyncMaxOk(max) && buf.Length == 8 + max
    requires temp != buf && temp != tail && buf != tail
    requires forall h: seq<bv8> :: len(h) < 0x1_0000
    requires Stream(l.pattern, l.txSeqNum, l.data, l.pos, EventBody(len), frs) && NoneLost(l.data, l.pos, frs)
    requires units == |frs|
    modifies l`pos, l`txSeqNum, temp, buf, tail
    ensures l.Valid() && done == units == |events| && l.pos == StreamEnd(old(l.pos), frs)
    ensures |Headers(old(l.pos), frs)| == units
    ensures forall k :: 0 <= k < units ==>
      var h := Headers(old(l.pos), frs)[k];
      && h + 8 + Align4(len(Bytes8(l.data, h))) <= |l.data|
      && events[k] == EventBytes(l.data, h, len(Bytes8(l.data, h)), max)
  {
    hide Stream, NoneLost, Receive, EventsKept, EventsEnd, EventBytes, Headers;
    StreamOfEvents(l.pattern, l.txSeqNum, l.data, l.pos, len, max, frs);
    done, events := ReadEvents(l, units, temp, buf, tail, len, max);
  }

  lemma ReceiveNone(p: Pattern, num: bv8, data: seq<bv8>, s: nat, len: seq<bv8> -> nat, max: nat)
    ensures Receive(p, num, data, s, EventBody(len), 0) == []
    ensures EventsKept(p, num, data, s, len, max, 0) == [] && EventsEnd(p, num, data, s, len, 0) == Some(s)
  {
  }

  /** What the payload reader takes; without room it is not called for. */
  function Taken(actual: int, room: nat): nat {
    if room == 0 then 0 else CmdTaken(actual, room)
  }

  /** A command response: `argLen` bytes of arguments in whole words, then the payload, if
      the caller has room for one and the response has one. For a payload the stream is left
      at the next message, or the last word of this one is left over. */
  method ReadResponse(l: Link, temp: array<bv8>, args: array<bv8>, argLen: nat, ext: CmdExt, tail: array<bv8>,
                      actual: seq<bv8> -> int, ghost f: nat, ghost m: nat) returns (ok: bool)
    requires l.Valid() && temp.Length == 12 && tail.Length == 4
    requires args.Length == Align4(argLen)
    requires temp != args && temp != tail && args != tail
    requires ext.rxPayload != temp && ext.rxPayload != args && ext.rxPayload != tail
    requires ext.rxPayloadLen < 0x8000 && ext.rxPayloadLen <= ext.rxPayload.Length
    requires Framed(l.pattern, l.txSeqNum, l.data, l.pos, f, m) && !Lost(l.data, l.pos, f, m)
    requires -0x8000 <= actual(HeaderBytes(l.data, l.pos, f, m)) < 0x8000
    modifies l`pos, l`txSeqNum, temp, args, ext`rxPayloadLen, ext`actualRxPayloadLen, ext.rxPayload, tail
    ensures l.Valid()
    ensures var s := old(l.pos); var h := s + f + 4 * m; var room := old(ext.rxPayloadLen);
      var n := actual(HeaderBytes(l.data, s, f, m));
      && (ok <==> h + 8 + Align4(argLen) + Taken(n, room) <= |l.data|)
      && (ok ==>
           && l.txSeqNum == old(l.txSeqNum) + 1
           && l.pos == h + 8 + Align4(argLen) + Taken(n, room)
           && args[..] == l.data[h + 8..h + 8 + Align4(argLen)]
           && (room > 0 ==> ext.actualRxPayloadLen == n)
           && (room > 0 && n > 0 ==>
                && Stored(old(ext.rxPayload[..]), ext.rxPayload[..], 0, Min(n, room), l.data, h + 8 + Align4(argLen))
                && l.pos + (if n > room && (n - 1) % 4 < room % 4 then 4 else 0)
                   == Next(s, Frame(f, m, Align4(argLen) + Align4(n))))
           && (room == 0 || n <= 0 ==> ext.rxPayloadLen == 0 && ext.rxPayload[..] == old(ext.rxPayload[..])))
  {
    ghost var s, room := l.pos, ext.rxPayloadLen;
    hide Framed, Lost, CmdTaken, Stored;
    ok := ReadHeader(l, temp, f, m);
    var n := actual(temp[..8]);
    ok := l.Read(args, 0, Align4(argLen));
    if !ok { return; }
    assert args[..] == l.data[s + f + 4 * m + 8..l.pos];
    if room > 0 {
      CmdTakenIff(n, room);
    }
    ok := ReadCmdPayload(l, ext, n, tail);
  }

  /** After a command response the next message is found, whatever filler it has of its own:
      always where the last word of the response was left over, and else if and only if it
      is not lost to that filler. */
  lemma NextMessageFound(p: Pattern, num: bv8, data: seq<bv8>, s: nat, f: nat, m: nat, short: bool)
    requires s >= 4 && if short then Framed(p, num, data, s - 4, f + 4, m) else Framed(p, num, data, s, f, m)
    ensures HeaderAt(p, num, data, if short then s - 4 else s) == Some(s + f + 4 * m)
            <==> short || !Lost(data, s, f, m)
  {
    hide Framed, HeaderAt, Lost;
    if short {
      LeftoverIsFiller(p, num, data, s, f, m);
    } else {
      HeaderFoundIff(p, num, data, s, f, m);
    }
  }
}
