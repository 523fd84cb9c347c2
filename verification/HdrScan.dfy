/**
 The resynchronising header reader of driver.c: it hunts for the sync pattern at any byte
 offset, skips repeated syncs and returns the 8 bytes that follow.
 */
module HdrScan {
  import opened Wire

  datatype Offset = None | Some(value: nat)

  function Word(b: seq<bv8>, k: nat): (w: seq<bv8>)
    requires k + 4 <= |b|
    ensures |w| == 4
  {
    b[k..k + 4]
  }

  /** A sync window starts at offset `i` of the stream. */
  predicate SyncAt(p: Pattern, num: bv8, data: seq<bv8>, i: nat) {
    i + 4 <= |data| && IsSync(p, num, Word(data, i))
  }

  lemma EqualWords(data: seq<bv8>, s: nat)
    requires s + 8 <= |data|
    ensures Word(data, s) == Word(data, s + 4) <==> forall i :: s <= i < s + 4 ==> data[i] == data[i + 4]
  {
    if Word(data, s) == Word(data, s + 4) {
      forall i | s <= i < s + 4
        ensures data[i] == data[i + 4]
      {
        assert Word(data, s)[i - s] == Word(data, s + 4)[i - s];
      }
    }
  }

  /** The first loop: from `s` slide by whole words while two neighbours are equal. */
  function SkipEqual(data: seq<bv8>, s: nat): (r: Offset)
    ensures r.Some? ==> s <= r.value && r.value + 8 <= |data| && (r.value - s) % 4 == 0
    ensures r.Some? ==> Word(data, r.value) != Word(data, r.value + 4)
    ensures r.Some? ==> forall i :: s <= i < r.value ==> data[i] == data[i + 4]
    decreases |data| - s
  {
    if s + 8 > |data| then None
    else if Word(data, s) != Word(data, s + 4) then Some(s)
    else
      EqualWords(data, s);
      SkipEqual(data, s + 4)
  }

  /** The first sync window at or after `s`. */
  function FirstSync(p: Pattern, num: bv8, data: seq<bv8>, s: nat): (r: Offset)
    ensures r.Some? ==> s <= r.value && SyncAt(p, num, data, r.value)
    ensures forall i :: s <= i && SyncAt(p, num, data, i) ==> r.Some? && r.value <= i
    decreases |data| - s
  {
    if s + 4 > |data| then None
    else if SyncAt(p, num, data, s) then Some(s)
    else FirstSync(p, num, data, s + 1)
  }

  /** The first word at or after `s`, word by word, that is not a sync. */
  function SkipSyncs(p: Pattern, num: bv8, data: seq<bv8>, s: nat): (r: Offset)
    ensures r.Some? ==> s <= r.value && r.value + 4 <= |data| && !SyncAt(p, num, data, r.value)
    ensures r.Some? ==> (r.value - s) % 4 == 0
    decreases |data| - s
  {
    if s + 4 > |data| then None
    else if !SyncAt(p, num, data, s) then Some(s)
    else SkipSyncs(p, num, data, s + 4)
  }

  /** Where the header lies that a reader starting at `s` finds, if it finds one. */
  function HeaderAt(p: Pattern, num: bv8, data: seq<bv8>, s: nat): (r: Offset)
    ensures r.Some? ==> s + 4 <= r.value && r.value + 8 <= |data|
  {
    var a := SkipEqual(data, s);
    if a.None? then None
    else
      var q := FirstSync(p, num, data, a.value);
      if q.None? then None
      else
        var h := SkipSyncs(p, num, data, q.value + 4);
        if h.None? || h.value + 8 > |data| then None else h
  }

  // ------------------------------------------------------------------ the reader

  /** The first `n` bytes of `b` are those of the stream from `w`. */
  ghost predicate Window(b: seq<bv8>, n: nat, data: seq<bv8>, w: int) {
    && n <= |b| && 0 <= w && w + n <= |data|
    && forall k: nat :: k < n ==> b[k] == data[w + k]
  }

  lemma WindowWord(b: seq<bv8>, n: nat, data: seq<bv8>, w: nat, k: nat)
    requires Window(b, n, data, w) && k + 4 <= n
    ensures Word(b, k) == Word(data, w + k)
  {
    assert forall j: nat :: j < 4 ==> Word(b, k)[j] == Word(data, w + k)[j];
  }

  lemma WindowIs(b: seq<bv8>, n: nat, data: seq<bv8>, w: nat)
    requires Window(b, n, data, w)
    ensures b[..n] == data[w..w + n]
  {
  }

  /** One turn of the first loop. */
  lemma SkipTurn(b: seq<bv8>, data: seq<bv8>, w: nat)
    requires Window(b, 8, data, w)
    ensures SkipEqual(data, w) == if Word(b, 0) == Word(b, 4) then SkipEqual(data, w + 4) else Some(w)
    ensures w + 12 > |data| ==> SkipEqual(data, w + 4).None?
  {
    WindowWord(b, 8, data, w, 0);
    WindowWord(b, 8, data, w, 4);
  }

  lemma SkipShort(data: seq<bv8>, w: nat)
    ensures w + 8 > |data| ==> SkipEqual(data, w).None?
  {
  }

  /** Fills the 8 byte window and slides it past equal words. */
  method SkipEqualWords(l: Link, buf: array<bv8>) returns (ok: bool)
    requires l.Valid() && buf.Length == 12
    modifies l`pos, buf
    ensures l.Valid()
    ensures ok <==> SkipEqual(l.data, old(l.pos)).Some?
    ensures ok ==> l.pos == SkipEqual(l.data, old(l.pos)).value + 8 && Window(buf[..], 8, l.data, l.pos - 8)
  {
    hide SkipEqual, Word;
    SkipShort(l.data, l.pos);
    ok := l.Read(buf, 0, 8);
    if !ok { return; }
    while Word(buf[..], 0) == Word(buf[..], 4)
      invariant ok && l.Valid() && l.pos >= 8 && Window(buf[..], 8, l.data, l.pos - 8)
      invariant SkipEqual(l.data, old(l.pos)) == SkipEqual(l.data, l.pos - 8)
      decreases |l.data| - l.pos
    {
      SkipTurn(buf[..], l.data, l.pos - 8);
      ok := ReadSecond(l, buf);
      if !ok { return; }
    }
    SkipTurn(buf[..], l.data, l.pos - 8);
  }

  lemma SameHalves(b: seq<bv8>)
    requires |b| >= 8 && Word(b, 0) == Word(b, 4)
    ensures forall k: nat :: k < 4 ==> b[k] == b[k + 4]
  {
    assert forall k: nat :: k < 4 ==> Word(b, 0)[k] == b[k] && Word(b, 4)[k] == b[k + 4];
  }

  /** The second word is equal to the first: the next word read over it is its neighbour. */
  method ReadSecond(l: Link, buf: array<bv8>) returns (ok: bool)
    requires l.Valid() && buf.Length == 12 && l.pos >= 8 && Window(buf[..], 8, l.data, l.pos - 8)
    requires Word(buf[..], 0) == Word(buf[..], 4)
    modifies l`pos, buf
    ensures l.Valid()
    ensures ok <==> old(l.pos) + 4 <= |l.data|
    ensures ok ==> l.pos == old(l.pos) + 4 && Window(buf[..], 8, l.data, l.pos - 8)
  {
    SameHalves(buf[..]);
    ok := l.Read(buf, 4, 4);
  }

  /** The shifts below `n` of the window at `w` hold no sync. */
  ghost predicate NoSyncBelow(p: Pattern, num: bv8, data: seq<bv8>, w: nat, n: nat) {
    forall k: nat :: w <= k < w + n ==> !SyncAt(p, num, data, k)
  }

  /** One pass over the window: the smallest shift at which it holds a sync, or 5. */
  method FindShift(l: Link, buf: array<bv8>) returns (shift: nat)
    requires buf.Length == 12 && l.pos >= 8 && Window(buf[..], 8, l.data, l.pos - 8)
    ensures shift <= 5
    ensures shift <= 4 ==> SyncAt(l.pattern, l.txSeqNum, l.data, l.pos - 8 + shift)
    ensures NoSyncBelow(l.pattern, l.txSeqNum, l.data, l.pos - 8, shift)
  {
    hide IsSync;
    shift := 0;
    while shift <= 4
      invariant shift <= 5
      invariant NoSyncBelow(l.pattern, l.txSeqNum, l.data, l.pos - 8, shift)
    {
      WindowWord(buf[..], 8, l.data, l.pos - 8, shift);
      if IsSync(l.pattern, l.txSeqNum, Word(buf[..], shift)) { return; }
      shift := shift + 1;
    }
  }

  /** Hunts for the sync pattern; leaves in buf[..4] the word that follows it. */
  method HuntSync(l: Link, buf: array<bv8>) returns (ok: bool)
    requires l.Valid() && buf.Length == 12 && l.pos >= 8 && Window(buf[..], 8, l.data, l.pos - 8)
    modifies l`pos, buf
    ensures l.Valid()
    ensures ok <==> HuntEnds(l.pattern, l.txSeqNum, l.data, old(l.pos) - 8)
    ensures ok ==> l.pos == FirstSync(l.pattern, l.txSeqNum, l.data, old(l.pos) - 8).value + 8
    ensures ok ==> Window(buf[..], 4, l.data, l.pos - 4)
  {
    hide SyncAt, FirstSync, HuntEnds;
    while true
      invariant l.Valid() && l.pos >= 8 && Window(buf[..], 8, l.data, l.pos - 8)
      invariant FirstSync(l.pattern, l.txSeqNum, l.data, old(l.pos) - 8)
             == FirstSync(l.pattern, l.txSeqNum, l.data, l.pos - 8)
      invariant HuntEnds(l.pattern, l.txSeqNum, l.data, old(l.pos) - 8)
            <==> HuntEnds(l.pattern, l.txSeqNum, l.data, l.pos - 8)
      decreases |l.data| - l.pos
    {
      var shift := FindShift(l, buf);
      if shift <= 4 {
        HuntStops(l.pattern, l.txSeqNum, l.data, l.pos - 8, shift);
        ok := TakeFollowing(l, buf, shift);
        return;
      }
      HuntGoesOn(l.pattern, l.txSeqNum, l.data, l.pos - 8);
      forall k | 0 <= k < 4 {
        buf[k] := buf[k + 4];
      }
      ok := l.Read(buf, 4, 4);
      if !ok { return; }
    }
  }

  /** There is a sync from `w` on and the 4 bytes after it. */
  ghost predicate HuntEnds(p: Pattern, num: bv8, data: seq<bv8>, w: nat) {
    var q := FirstSync(p, num, data, w);
    q.Some? && q.value + 8 <= |data|
  }

  lemma HuntStops(p: Pattern, num: bv8, data: seq<bv8>, w: nat, shift: nat)
    requires SyncAt(p, num, data, w + shift) && NoSyncBelow(p, num, data, w, shift)
    ensures FirstSync(p, num, data, w) == Some(w + shift)
    ensures HuntEnds(p, num, data, w) <==> w + shift + 8 <= |data|
  {
  }

  lemma HuntGoesOn(p: Pattern, num: bv8, data: seq<bv8>, w: nat)
    requires w + 8 <= |data| && NoSyncBelow(p, num, data, w, 5)
    ensures FirstSync(p, num, data, w) == FirstSync(p, num, data, w + 4)
    ensures HuntEnds(p, num, data, w) <==> HuntEnds(p, num, data, w + 4)
    ensures w + 12 > |data| ==> !HuntEnds(p, num, data, w)
  {
    hide SyncAt;
    FirstSyncFrom(p, num, data, w, w + 4);
  }

  lemma {:induction false} FirstSyncFrom(p: Pattern, num: bv8, data: seq<bv8>, w: nat, v: nat)
    requires w <= v <= |data|
    requires forall k: nat :: w <= k < v ==> !SyncAt(p, num, data, k)
    ensures FirstSync(p, num, data, w) == FirstSync(p, num, data, v)
    decreases v - w
  {
    hide SyncAt;
    if w < v {
      assert !SyncAt(p, num, data, w);
      FirstSyncFrom(p, num, data, w + 1, v);
    }
  }

  /** The sync is at `shift`: move what follows it to the front and complete the word. */
  method TakeFollowing(l: Link, buf: array<bv8>, shift: nat) returns (ok: bool)
    requires l.Valid() && buf.Length == 12 && l.pos >= 8 && Window(buf[..], 8, l.data, l.pos - 8) && shift <= 4
    modifies l`pos, buf
    ensures l.Valid()
    ensures ok <==> old(l.pos) + shift <= |l.data|
    ensures ok ==> l.pos == old(l.pos) + shift && Window(buf[..], 4, l.data, l.pos - 4)
  {
    ok := true;
    forall k | 0 <= k < 4 {
      buf[k] := buf[k + shift + 4];
    }
    if shift != 0 {
      ok := l.Read(buf, 4 - shift, shift);
    }
  }

  /** Skips repeated syncs, a word at a time. */
  method SkipDoubles(l: Link, buf: array<bv8>) returns (ok: bool)
    requires l.Valid() && buf.Length == 12 && l.pos >= 4 && Window(buf[..], 4, l.data, l.pos - 4)
    modifies l`pos, buf
    ensures l.Valid()
    ensures ok <==> SkipSyncs(l.pattern, l.txSeqNum, l.data, old(l.pos) - 4).Some?
    ensures ok ==> l.pos == SkipSyncs(l.pattern, l.txSeqNum, l.data, old(l.pos) - 4).value + 4
    ensures ok ==> Window(buf[..], 4, l.data, l.pos - 4)
  {
    hide IsSync;
    ok := true;
    WindowWord(buf[..], 4, l.data, l.pos - 4, 0);
    while IsSync(l.pattern, l.txSeqNum, Word(buf[..], 0))
      invariant ok && l.Valid() && l.pos >= 4 && Window(buf[..], 4, l.data, l.pos - 4)
      invariant Word(buf[..], 0) == Word(l.data, l.pos - 4)
      invariant SkipSyncs(l.pattern, l.txSeqNum, l.data, old(l.pos) - 4)
             == SkipSyncs(l.pattern, l.txSeqNum, l.data, l.pos - 4)
      decreases |l.data| - l.pos
    {
      ok := l.Read(buf, 0, 4);
      if !ok { return; }
      WindowWord(buf[..], 4, l.data, l.pos - 4, 0);
    }
  }

  lemma HeaderParts(p: Pattern, num: bv8, data: seq<bv8>, s: nat, a: nat, q: nat)
    requires SkipEqual(data, s) == Some(a) && FirstSync(p, num, data, a) == Some(q)
    ensures var h := SkipSyncs(p, num, data, q + 4);
      HeaderAt(p, num, data, s) == if h.None? || h.value + 8 > |data| then None else h
  {
  }

  lemma NoHeader(p: Pattern, num: bv8, data: seq<bv8>, s: nat)
    requires var a := SkipEqual(data, s); a.Some? ==> !HuntEnds(p, num, data, a.value)
    ensures HeaderAt(p, num, data, s).None?
  {
  }

  /** The rest of the header: 4 bytes behind the word in buf[..4]. */
  method ReadSpecific(l: Link, buf: array<bv8>) returns (ok: bool)
    requires l.Valid() && buf.Length == 12 && l.pos >= 4 && Window(buf[..], 4, l.data, l.pos - 4)
    modifies l`pos, buf
    ensures l.Valid()
    ensures ok <==> old(l.pos) + 4 <= |l.data|
    ensures ok ==> l.pos == old(l.pos) + 4 && buf[..8] == l.data[l.pos - 8..l.pos]
  {
    ok := l.Read(buf, 4, 4);
    if ok {
      WindowIs(buf[..], 8, l.data, l.pos - 8);
      assert buf[..8] == buf[..][..8];
    }
  }

  /** _SlDrvRxHdrRead: the caller's buffer has 8 bytes; the copy at shift 4 reads the 4
      bytes behind them, which the completing read overwrites. */
  method RxHdrRead(l: Link, buf: array<bv8>) returns (ok: bool)
    requires l.Valid() && buf.Length == 12
    modifies l`pos, l`txSeqNum, buf
    ensures l.Valid()
    ensures ok <==> HeaderAt(l.pattern, old(l.txSeqNum), l.data, old(l.pos)).Some?
    ensures ok ==>
      && l.pos == HeaderAt(l.pattern, old(l.txSeqNum), l.data, old(l.pos)).value + 8
      && buf[..8] == l.data[l.pos - 8..l.pos]
      && l.txSeqNum == old(l.txSeqNum) + 1
  {
    hide SkipEqual, FirstSync, SkipSyncs, HeaderAt, Window, IsSync;
    ghost var p, num, data, s := l.pattern, l.txSeqNum, l.data, l.pos;
    ok := SkipEqualWords(l, buf);
    if !ok {
      NoHeader(p, num, data, s);
      return;
    }
    ghost var a := l.pos - 8;
    ok := HuntSync(l, buf);
    if !ok {
      NoHeader(p, num, data, s);
      return;
    }
    HeaderParts(p, num, data, s, a, l.pos - 8);
    ok := SkipDoubles(l, buf);
    if !ok { return; }
    l.txSeqNum := l.txSeqNum + 1;
    ok := ReadSpecific(l, buf);
  }
}
