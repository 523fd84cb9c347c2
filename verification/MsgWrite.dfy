/**
 _SlDrvMsgWrite: one command goes out as a sequence of bus transactions. Two payload
 buffers are joined on the wire, by way of a 4 byte buffer at the seam.
 */
module MsgWrite {
  import opened Align

  datatype Tx =
    | SyncPattern
    | Header(opcode: nat, len: nat)
    | Bytes(b: seq<bv8>)

  datatype WriteResult = Written | ProtocolError

  /** What the payload transactions put on the wire. */
  function Wire(log: seq<Tx>): seq<bv8> {
    if log == [] then []
    else Wire(log[..|log| - 1]) + (var t := log[|log| - 1]; if t.Bytes? then t.b else [])
  }

  lemma WireOne(log: seq<Tx>, b: seq<bv8>)
    ensures Wire(log + [Bytes(b)]) == Wire(log) + b
  {
    assert (log + [Bytes(b)])[..|log|] == log;
  }

  lemma {:induction false} WireAppend(a: seq<Tx>, b: seq<Tx>)
    ensures Wire(a + b) == Wire(a) + Wire(b)
    decreases |b|
  {
    if b == [] {
      assert a + b == a;
    } else {
      var m := |b| - 1;
      assert (a + b)[..|a| + m] == a + b[..m];
      WireAppend(a, b[..m]);
    }
  }

  /** The bus is word based: every payload transaction is a multiple of 4 bytes. */
  ghost predicate WholeWords(log: seq<Tx>) {
    forall k :: 0 <= k < |log| && log[k].Bytes? ==> |log[k].b| % 4 == 0
  }

  /** `wire` is the message `msg` and less than a word of padding. */
  predicate PaddedTo(wire: seq<bv8>, msg: seq<bv8>) {
    msg <= wire && |wire| == Align4(|msg|)
  }

  /** The caller's payload buffers: the memory at each pointer, of which the first `len`
      bytes are the payload. Whole words are read from it, so it must reach that far. */
  datatype Payloads = Payloads(mem1: seq<bv8>, len1: nat, mem2: seq<bv8>, len2: nat) {
    predicate Valid() {
      Align4(len1) <= |mem1| && len2 + 3 <= |mem2|
    }

    function Message(): seq<bv8>
      requires Valid()
    {
      mem1[..len1] + mem2[..len2]
    }
  }

  /** How many bytes of the second payload complete the last word of the first. */
  function Borrowed(len1: nat): nat {
    if len1 % 4 == 0 then 0 else 4 - len1 % 4
  }

  /** The first buffer up to its last whole word, and the word at the seam if the first
      does not end on one. */
  function Head(v: Payloads): seq<Tx>
    requires v.Valid()
  {
    var whole := v.len1 - v.len1 % 4;
    if v.len1 % 4 == 0 then [Bytes(v.mem1[..whole])]
    else [Bytes(v.mem1[..whole]), Bytes(v.mem1[whole..v.len1] + v.mem2[..Borrowed(v.len1)])]
  }

  /** What is left of the second. */
  function Tail(v: Payloads): seq<Tx>
    requires v.Valid()
  {
    var off := Borrowed(v.len1);
    if v.len2 > off then [Bytes(v.mem2[off..off + Align4(v.len2 - off)])] else []
  }

  /** Both buffers hold something. */
  function Joined(v: Payloads): seq<Tx>
    requires v.Valid()
  {
    Head(v) + Tail(v)
  }

  function Transactions(v: Payloads): seq<Tx>
    requires v.Valid()
  {
    if v.len1 > 0 && v.len2 > 0 then Joined(v)
    else if v.len1 > 0 then [Bytes(v.mem1[..Align4(v.len1)])]
    else if v.len2 > 0 then [Bytes(v.mem2[..Align4(v.len2)])]
    else []
  }

  lemma WireOf(b: seq<bv8>)
    ensures Wire([Bytes(b)]) == b
  {
    WireOne([], b);
    assert [] + [Bytes(b)] == [Bytes(b)];
  }

  lemma WireOfTwo(a: seq<bv8>, b: seq<bv8>)
    ensures Wire([Bytes(a), Bytes(b)]) == a + b
  {
    WireOf(a);
    WireOne([Bytes(a)], b);
    assert [Bytes(a)] + [Bytes(b)] == [Bytes(a), Bytes(b)];
  }

  lemma Rejoin(a: seq<bv8>, w: nat, n: nat, b: seq<bv8>)
    requires w <= n <= |a|
    ensures a[..w] + (a[w..n] + b) == a[..n] + b
  {
  }

  lemma HeadWire(v: Payloads)
    requires v.Valid()
    ensures WholeWords(Head(v)) && Wire(Head(v)) == v.mem1[..v.len1] + v.mem2[..Borrowed(v.len1)]
  {
    hide Wire;
    var whole := v.len1 - v.len1 % 4;
    if v.len1 % 4 == 0 {
      WireOf(v.mem1[..whole]);
      assert v.mem1[..whole] == v.mem1[..v.len1] + v.mem2[..0];
    } else {
      WireOfTwo(v.mem1[..whole], v.mem1[whole..v.len1] + v.mem2[..Borrowed(v.len1)]);
      Rejoin(v.mem1, whole, v.len1, v.mem2[..Borrowed(v.len1)]);
    }
  }

  /** Where the writer stops reading the second buffer. */
  function End(len1: nat, len2: nat): nat {
    var off := Borrowed(len1);
    if len2 > off then off + Align4(len2 - off) else off
  }

  lemma EndIs(len1: nat, len2: nat)
    requires len2 > 0
    ensures len2 <= End(len1, len2) <= len2 + 3 && len1 + End(len1, len2) == Align4(len1 + len2)
  {
  }

  lemma TailWire(v: Payloads)
    requires v.Valid() && v.len2 > 0 && End(v.len1, v.len2) <= |v.mem2|
    ensures WholeWords(Tail(v)) && Wire(Tail(v)) == v.mem2[Borrowed(v.len1)..End(v.len1, v.len2)]
  {
    hide Wire, Borrowed;
    if v.len2 > Borrowed(v.len1) {
      WireOf(v.mem2[Borrowed(v.len1)..End(v.len1, v.len2)]);
    } else {
      WireOfNone();
    }
  }

  lemma WireOfNone()
    ensures Wire([]) == []
  {
  }

  lemma Meet(a: seq<bv8>, b: seq<bv8>, off: nat, end: nat)
    requires off <= end <= |b|
    ensures a + b[..off] + b[off..end] == a + b[..end]
  {
  }

  lemma JoinedIsMessage(v: Payloads)
    requires v.Valid() && v.len1 > 0 && v.len2 > 0
    ensures WholeWords(Joined(v)) && PaddedTo(Wire(Joined(v)), v.Message())
  {
    var off, end := Borrowed(v.len1), End(v.len1, v.len2);
    EndIs(v.len1, v.len2);
    HeadWire(v);
    TailWire(v);
    hide Head, Tail, Wire, Align4, Borrowed;
    WireAppend(Head(v), Tail(v));
    Meet(v.mem1[..v.len1], v.mem2, off, end);
    Prefix(v.mem1[..v.len1], v.mem2, v.len2, end);
  }

  lemma Prefix(a: seq<bv8>, b: seq<bv8>, n: nat, m: nat)
    requires n <= m <= |b|
    ensures a + b[..n] <= a + b[..m]
  {
    assert b[..m][..n] == b[..n];
  }

  lemma OneBuffer(mem: seq<bv8>, n: nat)
    requires Align4(n) <= |mem|
    ensures WholeWords([Bytes(mem[..Align4(n)])])
    ensures PaddedTo(Wire([Bytes(mem[..Align4(n)])]), mem[..n])
  {
    WireOf(mem[..Align4(n)]);
    assert mem[..n] == mem[..Align4(n)][..n];
  }

  /** Whatever the two lengths, the transactions are whole words and put the first payload,
      directly followed by the second, and at most 3 bytes of padding on the wire; also
      when the second is shorter than what it lends to the seam. */
  lemma PayloadsAreJoined(v: Payloads)
    requires v.Valid()
    ensures WholeWords(Transactions(v))
    ensures PaddedTo(Wire(Transactions(v)), v.Message())
  {
    hide Joined, WholeWords, PaddedTo;
    if v.len1 > 0 && v.len2 > 0 {
      JoinedIsMessage(v);
    } else if v.len1 > 0 {
      OneBuffer(v.mem1, v.len1);
      assert v.Message() == v.mem1[..v.len1];
    } else if v.len2 > 0 {
      OneBuffer(v.mem2, v.len2);
      assert v.Message() == v.mem2[..v.len2];
    } else {
      NoBuffer();
      assert v.Message() == [];
    }
  }

  lemma NoBuffer()
    ensures WholeWords([]) && PaddedTo(Wire([]), [])
  {
  }

  /** What a command asks for (_SlCmdCtrl_t). */
  datatype CmdCtrl = CmdCtrl(opcode: nat, txDescLen: nat)

  /** The transactions before the payloads: the descriptors, and the receive buffer when its
      length was given as a negative number. */
  function Front(desc: seq<bv8>, rx: seq<bv8>): seq<Tx> {
    (if desc == [] then [] else [Bytes(desc)]) + if rx == [] then [] else [Bytes(rx)]
  }

  /** The length the protocol header announces; the variable is 16 bits wide. */
  function Announced(calcLen: nat, rxLen: int): nat {
    U16(U16(calcLen) + if rxLen < 0 then -rxLen else 0)
  }

  /** The caller's payloads (_SlCmdExt_t). */
  class CmdExt {
    const tx1: array<bv8>
    const tx2: array<bv8>
    const rx: array<bv8>
    var len1: nat
    var len2: nat
    var rxLen: int

    constructor (tx1: array<bv8>, len1: nat, tx2: array<bv8>, len2: nat, rx: array<bv8>, rxLen: int)
      ensures this.tx1 == tx1 && this.tx2 == tx2 && this.rx == rx
      ensures this.len1 == len1 && this.len2 == len2 && this.rxLen == rxLen
    {
      this.tx1, this.tx2, this.rx := tx1, tx2, rx;
      this.len1, this.len2, this.rxLen := len1, len2, rxLen;
    }

    function View(): Payloads
      reads this, tx1, tx2
    {
      Payloads(tx1[..], len1, tx2[..], len2)
    }

    /** What is sent of the receive buffer. */
    function RxSent(): seq<bv8>
      requires rxLen < 0 ==> Align4(-rxLen) <= rx.Length
      reads this, rx
    {
      if rxLen < 0 then rx[..Align4(-rxLen)] else []
    }
  }

  /** The transmit side of the link: the transactions so far. */
  class Bus {
    var log: seq<Tx>

    constructor ()
      ensures log == []
    {
      log := [];
    }

    method Write(t: Tx)
      modifies this
      ensures log == old(log) + [t]
    {
      log := log + [t];
    }

    /** The caller's first length is rounded down on the way. */
    method WriteJoined(ext: CmdExt)
      requires ext.View().Valid()
      modifies this, ext`len1
      ensures ext.len1 == old(ext.len1) - old(ext.len1) % 4
      ensures log == old(log) + Joined(old(ext.View()))
    {
      var reminder := ext.len1 % 4;
      var offset := 0;
      ext.len1 := ext.len1 - reminder;
      Write(Bytes(ext.tx1[..][..ext.len1]));
      if reminder != 0 {
        offset := 4 - reminder;
        Write(Bytes(ext.tx1[..][ext.len1..ext.len1 + reminder] + ext.tx2[..][..offset]));
      }
      if ext.len2 > offset {
        Write(Bytes(ext.tx2[..][offset..offset + Align4(ext.len2 - offset)]));
      }
    }

    /** The payloads of a command, whichever are there. */
    method WritePayloads(ext: CmdExt)
      requires ext.View().Valid()
      modifies this, ext`len1
      ensures log == old(log) + Transactions(old(ext.View()))
      ensures ext.len1 == if old(ext.len1) > 0 && ext.len2 > 0 then old(ext.len1) - old(ext.len1) % 4 else old(ext.len1)
    {
      if ext.len1 > 0 && ext.len2 > 0 {
        WriteJoined(ext);
      } else if ext.len1 > 0 {
        Write(Bytes(ext.tx1[..][..Align4(ext.len1)]));
      } else if ext.len2 > 0 {
        Write(Bytes(ext.tx2[..][..Align4(ext.len2)]));
      }
    }
  }

  /** The whole writer. `calcLen` is the length computed for the descriptors and the two
      payloads. A command with payloads whose descriptors are not whole words is refused,
      but only after they have been written. */
  method MsgWrite(bus: Bus, ctrl: CmdCtrl, desc: array<bv8>, calcLen: nat, ext: CmdExt?) returns (r: WriteResult)
    requires Align4(ctrl.txDescLen) <= desc.Length
    requires ext != null ==> ext.View().Valid() && (ext.rxLen < 0 ==> Align4(-ext.rxLen) <= ext.rx.Length)
    modifies bus, if ext == null then {} else {ext}
    ensures r.ProtocolError? <==> ext != null && ctrl.txDescLen % 4 != 0
    ensures bus.log == old(bus.log)
      + [SyncPattern, Header(ctrl.opcode, Announced(calcLen, old(if ext == null then 0 else ext.rxLen)))]
      + Front(desc[..Align4(ctrl.txDescLen)], old(if ext == null then [] else ext.RxSent()))
      + if ext != null && r.Written? then Transactions(old(ext.View())) else []
    ensures ext != null ==>
      && ext.rxLen == (if old(ext.rxLen) < 0 then -old(ext.rxLen) else old(ext.rxLen))
      && ext.len2 == old(ext.len2)
      && ext.len1 == old(ext.len1) - if r.Written? && old(ext.len1) > 0 && ext.len2 > 0 then old(ext.len1) % 4 else 0
    ensures var extra := Extra(old(if ext == null then 0 else ext.rxLen));
      r.Written? && calcLen + extra < 0x1_0000
        && calcLen == Computed(ctrl.txDescLen, if ext == null then 0 else old(ext.len1 + ext.len2))
      ==> (HeaderCounts(bus.log[old(|bus.log|)..]) <==> extra % 4 == 0)
  {
    hide Transactions, HeaderCounts, Announced, Front, Align4;
    ghost var was, rxLen := bus.log, if ext == null then 0 else ext.rxLen;
    ghost var rx := if ext == null then [] else ext.RxSent();
    ghost var v := if ext == null then NoPayloads() else ext.View();
    WriteFront(bus, ctrl, desc, calcLen, ext);
    if ext != null && ctrl.txDescLen % 4 != 0 { return ProtocolError; }
    if ext == null {
      NoneToSend();
    } else {
      bus.WritePayloads(ext);
    }
    AlignedIff(0);
    SentCounts(was, bus.log, ctrl, desc[..Align4(ctrl.txDescLen)], rx, v, calcLen, rxLen);
    r := Written;
  }

  function NoPayloads(): (v: Payloads)
    ensures v.Valid() && v.len1 == v.len2 == 0
  {
    Payloads([], 0, [0, 0, 0], 0)
  }

  lemma NoneToSend()
    ensures Transactions(NoPayloads()) == []
  {
  }

  lemma SentCounts(was: seq<Tx>, now: seq<Tx>, ctrl: CmdCtrl, desc: seq<bv8>, rx: seq<bv8>, v: Payloads, calcLen: nat,
                   rxLen: int)
    requires v.Valid() && |desc| == Align4(ctrl.txDescLen) && |rx| == Align4(Extra(rxLen))
    requires now == was + [SyncPattern, Header(ctrl.opcode, Announced(calcLen, rxLen))] + Front(desc, rx)
                    + Transactions(v)
    ensures calcLen + Extra(rxLen) < 0x1_0000 && calcLen == Computed(ctrl.txDescLen, v.len1 + v.len2) ==>
      (HeaderCounts(now[|was|..]) <==> Extra(rxLen) % 4 == 0)
  {
    hide Transactions, HeaderCounts, Front, Align4;
    if calcLen + Extra(rxLen) < 0x1_0000 && calcLen == Computed(ctrl.txDescLen, v.len1 + v.len2) {
      assert now[|was|..]
          == [SyncPattern, Header(ctrl.opcode, Announced(calcLen, rxLen))] + Front(desc, rx) + Transactions(v);
      HeaderCountsIff(ctrl, desc, rx, v, calcLen, rxLen);
    }
  }

  /** The length computed for `desc` bytes of descriptors and `payload` bytes of payloads. */
  function Computed(desc: nat, payload: nat): nat {
    Align4(desc) + Align4(payload)
  }

  /** A receive buffer that is sent as well. */
  function Extra(rxLen: int): nat {
    if rxLen < 0 then -rxLen else 0
  }

  /** Of a command as sent, from its sync pattern on: the header announces exactly the bytes
      that follow it. */
  ghost predicate HeaderCounts(sent: seq<Tx>) {
    |sent| >= 2 && sent[1].Header? && sent[1].len == |Wire(sent[2..])|
  }

  lemma HeaderCountsIff(ctrl: CmdCtrl, desc: seq<bv8>, rx: seq<bv8>, v: Payloads, calcLen: nat, rxLen: int)
    requires v.Valid() && |desc| == Align4(ctrl.txDescLen) && |rx| == Align4(Extra(rxLen))
    requires calcLen == Computed(ctrl.txDescLen, v.len1 + v.len2) && calcLen + Extra(rxLen) < 0x1_0000
    ensures HeaderCounts([SyncPattern, Header(ctrl.opcode, Announced(calcLen, rxLen))] + Front(desc, rx)
                         + Transactions(v))
            <==> Extra(rxLen) % 4 == 0
  {
    hide Transactions, Front, Wire, Align4, Announced;
    var len := Announced(calcLen, rxLen);
    var sent := [SyncPattern, Header(ctrl.opcode, len)] + Front(desc, rx) + Transactions(v);
    assert sent[2..] == Front(desc, rx) + Transactions(v);
    WireLength(desc, rx, v, ctrl.txDescLen, Extra(rxLen));
    AnnouncedIs(calcLen, rxLen);
    AlignedIff(Extra(rxLen));
  }

  lemma AnnouncedIs(calcLen: nat, rxLen: int)
    requires calcLen + Extra(rxLen) < 0x1_0000
    ensures Announced(calcLen, rxLen) == calcLen + Extra(rxLen)
  {
  }

  lemma AlignedIff(n: nat)
    ensures Align4(n) % 4 == 0 && (Align4(n) == n <==> n % 4 == 0)
  {
  }

  lemma WireLength(desc: seq<bv8>, rx: seq<bv8>, v: Payloads, d: nat, x: nat)
    requires v.Valid() && |desc| == Align4(d) && |rx| == Align4(x)
    ensures |Wire(Front(desc, rx) + Transactions(v))| == Align4(d) + Align4(x) + Align4(v.len1 + v.len2)
  {
    hide Transactions, Front, Wire, Align4;
    AlignedIff(d);
    AlignedIff(x);
    CommandOnTheWire(desc, rx, v);
    Align4Add(|desc| + |rx|, v.len1 + v.len2);
    MessageLength(v);
  }

  lemma MessageLength(v: Payloads)
    requires v.Valid()
    ensures |v.Message()| == v.len1 + v.len2
  {
  }

  /** Everything before the payloads. */
  method WriteFront(bus: Bus, ctrl: CmdCtrl, desc: array<bv8>, calcLen: nat, ext: CmdExt?)
    requires Align4(ctrl.txDescLen) <= desc.Length
    requires ext != null && ext.rxLen < 0 ==> Align4(-ext.rxLen) <= ext.rx.Length
    modifies bus
    modifies if ext == null then {} else {ext}
    ensures bus.log == old(bus.log)
      + [SyncPattern, Header(ctrl.opcode, Announced(calcLen, old(if ext == null then 0 else ext.rxLen)))]
      + Front(desc[..Align4(ctrl.txDescLen)], old(if ext == null then [] else ext.RxSent()))
    ensures ext != null ==>
      && ext.rxLen == (if old(ext.rxLen) < 0 then -old(ext.rxLen) else old(ext.rxLen))
      && ext.len1 == old(ext.len1) && ext.len2 == old(ext.len2)
  {
    var sendRx := ext != null && ext.rxLen < 0;
    var len := U16(calcLen);
    if sendRx {
      ext.rxLen := -ext.rxLen;
      len := U16(len + ext.rxLen);
    }
    bus.Write(SyncPattern);
    bus.Write(Header(ctrl.opcode, len));
    if ctrl.txDescLen > 0 {
      bus.Write(Bytes(desc[..Align4(ctrl.txDescLen)]));
    }
    if sendRx {
      bus.Write(Bytes(ext.rx[..Align4(ext.rxLen)]));
    }
  }

  /** What the device receives of an accepted command: descriptors, then the receive buffer
      if it is sent, then both payloads without a gap, and the whole of it in whole words. */
  lemma CommandOnTheWire(desc: seq<bv8>, rx: seq<bv8>, v: Payloads)
    requires v.Valid() && |desc| % 4 == 0 && |rx| % 4 == 0
    ensures WholeWords(Front(desc, rx) + Transactions(v))
    ensures PaddedTo(Wire(Front(desc, rx) + Transactions(v)), desc + rx + v.Message())
  {
    hide Transactions, Wire, PaddedTo, Front;
    var w := Wire(Transactions(v));
    PayloadsAreJoined(v);
    FrontWire(desc, rx);
    WireAppend(Front(desc, rx), Transactions(v));
    assert |desc + rx| % 4 == 0;
    PadAfter(desc + rx, w, v.Message());
  }

  lemma PadAfter(front: seq<bv8>, wire: seq<bv8>, msg: seq<bv8>)
    requires |front| % 4 == 0 && PaddedTo(wire, msg)
    ensures PaddedTo(front + wire, front + msg)
  {
    hide Align4;
    Align4Add(|front|, |msg|);
  }

  lemma FrontWire(desc: seq<bv8>, rx: seq<bv8>)
    ensures Wire(Front(desc, rx)) == desc + rx
    ensures |desc| % 4 == 0 && |rx| % 4 == 0 ==> WholeWords(Front(desc, rx))
  {
    hide Wire;
    if desc != [] && rx != [] {
      WireOfTwo(desc, rx);
      assert [Bytes(desc)] + [Bytes(rx)] == [Bytes(desc), Bytes(rx)];
    } else if desc != [] {
      WireOf(desc);
      assert [Bytes(desc)] + [] == [Bytes(desc)] && desc + rx == desc;
    } else if rx != [] {
      WireOf(rx);
      assert [] + [Bytes(rx)] == [Bytes(rx)] && [] + rx == rx;
    } else {
      WireOfNone();
    }
  }
}
