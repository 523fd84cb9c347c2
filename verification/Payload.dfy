/**
 The payload readers of _SlDrvMsgRead: how many bytes of the stream each takes and what it
 stores. Lengths keep the C widths: the remainders to read are 16 bits, unsigned.
 */
module Payload {
  import opened Align
  import opened Wire

  function Min(a: nat, b: nat): nat {
    if a < b then a else b
  }

  /** `buf` holds `n` bytes of the stream from `from` at index `at` and is otherwise as before. */
  ghost predicate Stored(was: seq<bv8>, now: seq<bv8>, at: nat, n: nat, data: seq<bv8>, from: nat) {
    && |was| == |now| && at + n <= |now| && from + n <= |data|
    && forall k: nat :: k < |now| ==> now[k] == if at <= k < at + n then data[from + k - at] else was[k]
  }

  /** Reads and drops words until `left` bytes are done. */
  method Drain(l: Link, tail: array<bv8>, left: nat) returns (ok: bool)
    requires l.Valid() && tail.Length == 4 && left < 0x1_0000 && left % 4 == 0
    modifies l`pos, tail
    ensures l.Valid()
    ensures ok <==> old(l.pos) + left <= |l.data|
    ensures ok ==> l.pos == old(l.pos) + left
  {
    var n := left;
    ok := true;
    while n > 0
      invariant ok && l.Valid() && 0 <= n <= left && n % 4 == 0 && l.pos == old(l.pos) + left - n
    {
      ok := l.Read(tail, 0, 4);
      if !ok { return; }
      n := n - 4;
    }
  }

  /** Reads `n` bytes to `buf` at `at`: whole words straight into the buffer, the odd 1 to 3
      bytes by way of the tail buffer. */
  method ReadExact(l: Link, buf: array<bv8>, at: nat, n: nat, tail: array<bv8>) returns (ok: bool)
    requires l.Valid() && tail.Length == 4 && tail != buf && at + n <= buf.Length
    modifies l`pos, buf, tail
    ensures l.Valid()
    ensures ok <==> old(l.pos) + Align4(n) <= |l.data|
    ensures ok ==> l.pos == old(l.pos) + Align4(n)
    ensures ok ==> Stored(old(buf[..]), buf[..], at, n, l.data, old(l.pos))
  {
    var odd := n % 4;
    var aligned := n - odd;
    ok := true;
    if aligned >= 4 {
      ok := l.Read(buf, at, aligned);
      if !ok { return; }
    }
    assert Stored(old(buf[..]), buf[..], at, aligned, l.data, old(l.pos));
    if odd > 0 {
      ok := l.Read(tail, 0, 4);
      if !ok { return; }
      forall k | 0 <= k < odd {
        buf[at + aligned + k] := tail[k];
      }
    }
  }

  // ------------------------------------------------------------------ command response

  /** Bytes taken for a response payload of `actual` bytes when the user has room for `room`. */
  function CmdTaken(actual: int, room: nat): nat {
    if actual <= 0 then 0
    else
      var stored := Min(actual, room);
      var rest := if stored % 4 > 0 then actual - 4 else actual;
      Align4(stored) + if rest > room then Align4(rest - room) else 0
  }

  /** The accounting is exact except for one family: the response is longer than the room
      and its last word, counted from the user's last byte, runs into the next. Then it
      stops exactly one word short. */
  lemma CmdTakenIff(actual: int, room: nat)
    requires room > 0
    ensures actual <= 0 ==> CmdTaken(actual, room) == 0
    ensures actual > 0 ==>
      CmdTaken(actual, room) == Align4(actual) - if actual > room && (actual - 1) % 4 < room % 4 then 4 else 0
  {
    if actual > room {
      if room % 4 > 0 {
        LongTaken(actual, room);
      } else {
        WholeTaken(actual, room);
      }
    }
  }

  lemma LongTaken(actual: nat, room: nat)
    requires 0 < room < actual && room % 4 > 0
    ensures CmdTaken(actual, room) == Align4(actual) - if (actual - 1) % 4 < room % 4 then 4 else 0
  {
    var q, t := room / 4, room % 4;
    var e := (actual - room - 1) / 4;
    var u := actual - room - 4 * e;
    Aligned(q, t);
    if e > 0 {
      Aligned(e - 1, u);
    }
    if t + u <= 4 {
      Aligned(q + e, t + u);
    } else {
      Aligned(q + e + 1, t + u - 4);
    }
  }

  lemma Aligned(k: nat, u: nat)
    requires 1 <= u <= 4
    ensures Align4(4 * k + u) == 4 * k + 4 && (4 * k + u - 1) % 4 == u - 1
  {
  }

  lemma WholeTaken(actual: nat, room: nat)
    requires 0 < room < actual && room % 4 == 0
    ensures CmdTaken(actual, room) == Align4(actual)
  {
  }

  /** So a room of whole words, or one the response fits in, keeps the stream aligned. */
  lemma CmdTakenExactly(room: nat)
    requires room > 0
    ensures (forall actual: nat :: CmdTaken(actual, room) == Align4(actual)) <==> room % 4 == 0
  {
    forall actual: nat
      ensures room % 4 == 0 ==> CmdTaken(actual, room) == Align4(actual)
    {
      CmdTakenIff(actual, room);
    }
    if room % 4 != 0 {
      var long := room - room % 4 + 5;
      CmdTakenIff(long, room);
      assert CmdTaken(long, room) != Align4(long);
    }
  }

  /** The caller's description of its response buffer (_SlCmdExt_t). */
  class CmdExt {
    var rxPayload: array<bv8>
    var rxPayloadLen: nat
    var actualRxPayloadLen: int

    constructor (rxPayload: array<bv8>, rxPayloadLen: nat)
      ensures this.rxPayload == rxPayload && this.rxPayloadLen == rxPayloadLen && actualRxPayloadLen == 0
    {
      this.rxPayload := rxPayload;
      this.rxPayloadLen := rxPayloadLen;
      actualRxPayloadLen := 0;
    }
  }

  /** The CMD_RESP_CLASS payload. `actual` is the announced length less the arguments. */
  method ReadCmdPayload(l: Link, ext: CmdExt, actual: int, tail: array<bv8>) returns (ok: bool)
    requires l.Valid() && tail.Length == 4 && tail != ext.rxPayload
    requires -0x8000 <= actual < 0x8000 && ext.rxPayloadLen < 0x8000 && ext.rxPayloadLen <= ext.rxPayload.Length
    modifies l`pos, ext`rxPayloadLen, ext`actualRxPayloadLen, ext.rxPayload, tail
    ensures l.Valid()
    ensures old(ext.rxPayloadLen) == 0 ==>
      ok && l.pos == old(l.pos) && ext.actualRxPayloadLen == old(ext.actualRxPayloadLen)
    ensures old(ext.rxPayloadLen) > 0 ==>
      && ext.actualRxPayloadLen == actual
      && (ok <==> old(l.pos) + CmdTaken(actual, old(ext.rxPayloadLen)) <= |l.data|)
      && (ok ==> l.pos == old(l.pos) + CmdTaken(actual, old(ext.rxPayloadLen)))
    ensures ext.rxPayloadLen == if actual <= 0 then 0 else old(ext.rxPayloadLen)
    ensures ok && old(ext.rxPayloadLen) > 0 && actual > 0 ==>
      Stored(old(ext.rxPayload[..]), ext.rxPayload[..], 0, Min(actual, old(ext.rxPayloadLen)), l.data, old(l.pos))
    ensures actual <= 0 || old(ext.rxPayloadLen) == 0 ==> ext.rxPayload[..] == old(ext.rxPayload[..])
  {
    hide Stored;
    ok := true;
    if ext.rxPayloadLen == 0 { return; }
    ext.actualRxPayloadLen := actual;
    if actual <= 0 {
      ext.rxPayloadLen := 0;
      return;
    }
    var room := ext.rxPayloadLen;
    var toStore := if actual > room then room else actual;
    ok := ReadExact(l, ext.rxPayload, 0, toStore, tail);
    if !ok { return; }
    var rest := if toStore % 4 > 0 then actual - 4 else actual;
    if rest > room {
      ok := Drain(l, tail, U16((rest + 3 - room) / 4 * 4));
    }
  }

  // ------------------------------------------------------------------ asynchronous event

  /** SL_ASYNC_MAX_PAYLOAD_LEN: whole words, and a message of that size has a 16-bit length. */
  predicate AsyncMaxOk(max: nat) {
    4 <= max && max % 4 == 0 && max + 8 < 0x1_0000
  }

  /** The ASYNC_EVT_CLASS payload of announced length `len`, into the zeroed message buffer
      behind its 8 byte header. Also for a length that rounds up to 65536 the remainder to
      drain fits its 16-bit variable. */
  method ReadAsync(l: Link, buf: array<bv8>, len: nat, max: nat, tail: array<bv8>) returns (ok: bool, msgLen: nat)
    requires l.Valid() && tail.Length == 4 && tail != buf
    requires AsyncMaxOk(max) && len < 0x1_0000 && buf.Length == 8 + max
    modifies l`pos, buf, tail
    ensures l.Valid()
    ensures ok <==> old(l.pos) + Align4(len) <= |l.data|
    ensures ok ==> l.pos == old(l.pos) + Align4(len)
    ensures ok ==> msgLen == 8 + Min(Align4(len), max)
    ensures ok ==> Stored(old(buf[..]), buf[..], 8, Min(Align4(len), max), l.data, old(l.pos))
  {
    ok, msgLen := true, 8;
    var aligned := U16(if Align4(len) <= max then Align4(len) else Align4(max));
    if len > 0 {
      ok := l.Read(buf, 8, aligned);
      if !ok { return; }
      msgLen := U16(msgLen + aligned);
    }
    if Align4(len) > max {
      ok := Drain(l, tail, U16(Align4(len) - max));
    }
  }

  // ------------------------------------------------------------------ receive response

  /** The argument block and data pointer a socket receive waits with (_SlArgsData_t). `data`
      is the memory from that pointer on, of which the caller meant the first `room` bytes;
      the code is given no room. */
  class RecvArgs {
    const args: array<bv8>
    const data: array<bv8>
    const room: nat

    constructor (args: array<bv8>, data: array<bv8>, room: nat)
      ensures this.args == args && this.data == data && this.room == room
    {
      this.args := args;
      this.data := data;
      this.room := room;
    }
  }

  datatype RecvResult = Aborted | NoWaiter | Received

  /** The RECV_RESP_CLASS path: 4 bytes of arguments tell the socket and the length; `known`
      is whether an active receive waits for that socket, `actual` the signed 16-bit length
      field. Exactly the announced bytes are stored, so what lies behind the caller's room is
      untouched as long as no more are announced. */
  method ReadRecv(l: Link, w: RecvArgs, argSize: nat, actual: seq<bv8> -> int, known: seq<bv8> -> bool,
                  temp: array<bv8>, tail: array<bv8>) returns (r: RecvResult)
    requires l.Valid() && tail.Length == 4 && temp.Length == 12
    requires w.args != w.data && temp != w.args && temp != w.data && tail != w.args && tail != w.data && tail != temp
    requires 4 <= argSize <= w.args.Length
    requires 0x8000 <= w.data.Length && w.room <= w.data.Length
    requires l.pos + 4 <= |l.data| ==> actual(l.data[l.pos..l.pos + 4]) < 0x8000
    modifies l`pos, w.args, w.data, temp, tail
    ensures l.Valid()
    ensures r.Aborted? <==>
      || old(l.pos) + 4 > |l.data|
      || (var first := l.data[old(l.pos)..old(l.pos) + 4];
          known(first) && old(l.pos) + argSize + (if actual(first) > 0 then Align4(actual(first)) else 0) > |l.data|)
    ensures r.NoWaiter? <==>
      old(l.pos) + 4 <= |l.data| && !known(l.data[old(l.pos)..old(l.pos) + 4])
    ensures r.NoWaiter? ==> l.pos == old(l.pos) + 4
    ensures r.Received? ==>
      var n := actual(l.data[old(l.pos)..old(l.pos) + 4]);
      && Stored(old(w.args[..]), w.args[..], 0, argSize, l.data, old(l.pos))
      && (n <= 0 ==> l.pos == old(l.pos) + argSize && w.data[..] == old(w.data[..]))
      && (n > 0 ==>
           && l.pos == old(l.pos) + argSize + Align4(n)
           && Stored(old(w.data[..]), w.data[..], 0, n, l.data, old(l.pos) + argSize)
           && (n <= w.room ==> w.data[w.room..] == old(w.data[w.room..])))
  {
    var ok := l.Read(temp, 4, 4);
    if !ok { return Aborted; }
    var first := temp[4..8];
    assert first == l.data[old(l.pos)..old(l.pos) + 4];
    if !known(first) { return NoWaiter; }
    ok := FillArgs(l, w, argSize, temp);
    if !ok { return Aborted; }
    if actual(first) > 0 {
      ok := ReadExact(l, w.data, 0, actual(first), tail);
      if !ok { return Aborted; }
    }
    return Received;
  }

  /** Copies the 4 argument bytes already read and reads the rest of the block. */
  method FillArgs(l: Link, w: RecvArgs, argSize: nat, temp: array<bv8>) returns (ok: bool)
    requires l.Valid() && temp.Length == 12 && temp != w.args && 4 <= argSize <= w.args.Length && l.pos >= 4
    requires temp[4..8] == l.data[l.pos - 4..l.pos]
    modifies l`pos, w.args
    ensures l.Valid()
    ensures ok ==> l.pos == old(l.pos) + argSize - 4
    ensures ok ==> Stored(old(w.args[..]), w.args[..], 0, argSize, l.data, old(l.pos) - 4)
    ensures ok <==> old(l.pos) + argSize - 4 <= |l.data|
  {
    ok := true;
    assert forall k: nat :: k < 4 ==> temp[4 + k] == temp[4..8][k];
    forall k | 0 <= k < 4 {
      w.args[k] := temp[4 + k];
    }
    if argSize > 4 {
      ok := l.Read(w.args, 4, argSize - 4);
    }
  }
}
