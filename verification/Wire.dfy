/**
 The byte stream from the network processor and the sync pattern that frames it. `data` is
 everything the device will ever send, `pos` how much of it the host has read; a read that
 asks for more than is left does not complete, and its caller aborts.
 */
module Wire {

  /** N2H_SYNC_PATTERN, lowest byte first as it lies in memory. */
  datatype Pattern = Pattern(b0: bv8, b1: bv8, b2: bv8, b3: bv8)

  /** The pattern itself carries no sequence number: its bit 2 is clear. */
  predicate PatternOk(p: Pattern) {
    p.b0 & 4 == 0
  }

  function Untagged(p: Pattern): bv8 {
    p.b0 & 0x7F
  }

  /** The low byte that announces sequence number `num`. */
  function Tagged(p: Pattern, num: bv8): bv8 {
    (p.b0 & 0x7F & 0xF8) | 4 | (num & 3)
  }

  /** N2H_SYNC_PATTERN_MATCH: bits 7, 15 and 31 of the word are SPI error bits and ignored;
      bit 2 says whether the two lowest bits are a sequence number to be checked. */
  predicate IsSync(p: Pattern, num: bv8, w: seq<bv8>)
    requires |w| == 4
  {
    && w[1] & 0x7F == p.b1 & 0x7F
    && w[2] == p.b2
    && w[3] & 0x7F == p.b3 & 0x7F
    && if w[0] & 4 != 0 then w[0] & 0x7F == Tagged(p, num) else w[0] & 0x7F == Untagged(p)
  }

  /** What the device puts on the wire: the pattern tagged with its own count `sent`, with
      any of the SPI error bits set by the bus. */
  predicate TaggedSync(p: Pattern, sent: bv8, w: seq<bv8>) {
    && |w| == 4
    && w[0] & 0x7F == Tagged(p, sent) && w[1] & 0x7F == p.b1 & 0x7F && w[2] == p.b2 && w[3] & 0x7F == p.b3 & 0x7F
  }

  /** A tagged sync is accepted exactly when the two ends agree on the count modulo 4. */
  lemma TagIsCheckedModFour(p: Pattern, sent: bv8, num: bv8, w: seq<bv8>)
    requires TaggedSync(p, sent, w)
    ensures IsSync(p, num, w) <==> sent % 4 == num % 4
  {
    assert sent % 4 == sent & 3 && num % 4 == num & 3;
    TagBits(w[0], sent & 3, p.b0 & 0x7F & 0xF8);
    TagBits(Tagged(p, num), num & 3, p.b0 & 0x7F & 0xF8);
  }

  /** Backward support: an untagged copy of the pattern is accepted whatever the count, for
      every count exactly when the pattern's own bit 2 is clear. */
  lemma UntaggedIsAcceptedIff(p: Pattern, w: seq<bv8>)
    requires |w| == 4 && w[1] & 0x7F == p.b1 & 0x7F && w[2] == p.b2 && w[3] & 0x7F == p.b3 & 0x7F
    requires w[0] & 0x7F == p.b0 & 0x7F
    ensures (forall num :: IsSync(p, num, w)) <==> PatternOk(p)
  {
    UntaggedBits(w[0], p.b0);
    if !PatternOk(p) {
      assert !IsSync(p, (p.b0 & 3) ^ 1, w);
    }
  }

  lemma UntaggedBits(b: bv8, p0: bv8)
    requires b & 0x7F == p0 & 0x7F
    ensures b & 4 == p0 & 4
    ensures b & 4 != 0 ==> b & 0x7F != (p0 & 0x7F & 0xF8) | 4 | (((p0 & 3) ^ 1) & 3)
  {
  }

  lemma TagBits(b: bv8, n: bv8, high: bv8)
    requires n <= 3 && high & 7 == 0 && b & 0x7F == high | 4 | n
    ensures b & 4 != 0 && b & 3 == n
  {
  }

  /** Byte `k` of the pattern, and its bits that every accepted sync agrees on. */
  function Byte(p: Pattern, k: nat): bv8
    requires k < 4
  {
    if k == 0 then p.b0 else if k == 1 then p.b1 else if k == 2 then p.b2 else p.b3
  }

  function Fixed(k: nat): bv8
    requires k < 4
  {
    if k == 0 then 0x78 else if k == 2 then 0xFF else 0x7F
  }

  lemma SyncByte(p: Pattern, num: bv8, w: seq<bv8>, k: nat)
    requires |w| == 4 && k < 4
    ensures IsSync(p, num, w) ==> w[k] & Fixed(k) == Byte(p, k) & Fixed(k)
  {
    if !IsSync(p, num, w) {
    } else if k == 0 {
      LowByte(w[0], p.b0, num);
    } else if k == 2 {
    } else {
      assert w[k] & 0x7F == Byte(p, k) & 0x7F;
    }
  }

  lemma LowByte(b: bv8, p0: bv8, num: bv8)
    requires b & 0x7F == (p0 & 0x7F & 0xF8) | 4 | (num & 3) || b & 0x7F == p0 & 0x7F
    ensures b & 0x78 == p0 & 0x78
  {
  }

  /** The pattern differs from itself shifted by `d` bytes, in a bit nobody ignores. */
  predicate DiffersShifted(p: Pattern, d: nat, k: nat)
    requires 0 < d < 4 && k < 4
  {
    (Byte(p, k) ^ Byte(p, (k + d) % 4)) & Fixed(k) & Fixed((k + d) % 4) != 0
  }

  /** No shift of the pattern can be taken for the pattern. */
  ghost predicate Separated(p: Pattern) {
    ShiftShows(p, 1) && ShiftShows(p, 2) && ShiftShows(p, 3)
  }

  ghost predicate ShiftShows(p: Pattern, d: nat)
    requires 0 < d < 4
  {
    exists k: nat :: k < 4 && DiffersShifted(p, d, k)
  }

  /** Between two consecutive syncs of any tag no window in between looks like a sync. */
  lemma NoSyncAcrossSyncs(p: Pattern, num: bv8, u: seq<bv8>, v: seq<bv8>, d: nat)
    requires |u| == |v| == 4 && IsSync(p, num, u) && IsSync(p, num, v)
    requires 0 < d < 4 && Separated(p)
    ensures !IsSync(p, num, u[d..] + v[..d])
  {
    hide IsSync, DiffersShifted;
    assert ShiftShows(p, d);
    var k: nat :| k < 4 && DiffersShifted(p, d, k);
    DifferenceShows(p, num, u, v, d, k);
  }

  lemma DifferenceShows(p: Pattern, num: bv8, u: seq<bv8>, v: seq<bv8>, d: nat, k: nat)
    requires |u| == |v| == 4 && IsSync(p, num, u) && IsSync(p, num, v)
    requires 0 < d < 4 && k < 4 && DiffersShifted(p, d, k)
    ensures !IsSync(p, num, u[d..] + v[..d])
  {
    var w := u[d..] + v[..d];
    var j := (k + d) % 4;
    assert w[k] == if k + d < 4 then u[j] else v[j];
    SyncByte(p, num, u, j);
    SyncByte(p, num, v, j);
    SyncByte(p, num, w, k);
    SameFixed(w[k], Byte(p, k), Byte(p, j), Fixed(k), Fixed(j));
  }

  lemma SameFixed(b: bv8, x: bv8, y: bv8, m: bv8, n: bv8)
    ensures b & m == x & m && b & n == y & n ==> (x ^ y) & m & n == 0
  {
  }

  /** The receive side of the link: the stream, and the transmit sequence number the
      expected sync is tagged with. */
  class Link {
    const pattern: Pattern
    const data: seq<bv8>
    var pos: nat
    var txSeqNum: bv8

    constructor (pattern: Pattern, data: seq<bv8>)
      ensures this.pattern == pattern && this.data == data && pos == 0 && txSeqNum == 0
    {
      this.pattern := pattern;
      this.data := data;
      pos := 0;
      txSeqNum := 0;
    }

    predicate Valid()
      reads this
    {
      pos <= |data|
    }

    /** Reads `n` bytes into `buf` from index `at`. */
    method Read(buf: array<bv8>, at: nat, n: nat) returns (ok: bool)
      requires Valid() && at + n <= buf.Length
      modifies this`pos, buf
      ensures Valid()
      ensures ok == (old(pos) + n <= |data|)
      ensures pos == if ok then old(pos) + n else |data|
      ensures forall k :: 0 <= k < buf.Length ==>
        buf[k] == if ok && at <= k < at + n then data[old(pos) + k - at] else old(buf[k])
    {
      ok := pos + n <= |data|;
      if ok {
        forall i | 0 <= i < n {
          buf[at + i] := data[pos + i];
        }
        pos := pos + n;
      } else {
        pos := |data|;
      }
    }
  }
}
