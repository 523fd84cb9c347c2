/**
 What the header reader returns on a well formed stream: filler, one or more syncs, an
 8 byte header, a body, and so on. It is exact except for one family of fillers, which the
 loop over equal words skips together with the syncs.
 */
module Frames {
  import opened Wire
  import opened HdrScan

  /** From `s`: `f` bytes of filler, `m` syncs, then a header word that is not a sync. The
      only windows up to the last sync that look like a sync are the syncs themselves. */
  ghost predicate Framed(p: Pattern, num: bv8, data: seq<bv8>, s: nat, f: nat, m: nat) {
    && m >= 1 && s + f + 4 * m + 8 <= |data|
    && (forall i: nat :: i < m ==> SyncAt(p, num, data, s + f + 4 * i))
    && (forall o: nat :: s <= o <= s + f + 4 * m - 4 && SyncAt(p, num, data, o) ==> s + f <= o && (o - s - f) % 4 == 0)
    && !SyncAt(p, num, data, s + f + 4 * m)
  }

  /** The words from `s` are equal up to and including word `m`. */
  ghost predicate Periodic(data: seq<bv8>, s: nat, m: nat) {
    s + 4 * m + 4 <= |data| && forall i: nat :: s <= i < s + 4 * m ==> data[i] == data[i + 4]
  }

  /** The fillers that cost the message: 1 to 3 bytes that complete the syncs to a run of
      equal words. */
  ghost predicate Lost(data: seq<bv8>, s: nat, f: nat, m: nat) {
    1 <= f <= 3 && Periodic(data, s, m)
  }

  /** The first loop slides to word `n` or further. */
  ghost predicate SlidesTo(data: seq<bv8>, s: nat, n: nat) {
    var a := SkipEqual(data, s);
    a.None? || a.value >= s + 4 * n
  }

  lemma {:induction false} SlidesIff(data: seq<bv8>, s: nat, n: nat)
    requires s + 4 * n + 4 <= |data|
    ensures SlidesTo(data, s, n) <==> Periodic(data, s, n)
    decreases n
  {
    if n > 0 {
      EqualWords(data, s);
      if Word(data, s) == Word(data, s + 4) {
        SlidesIff(data, s + 4, n - 1);
        SplitPeriod(data, s, n);
      } else {
        var i: nat :| s <= i < s + 4 && data[i] != data[i + 4];
        assert !Periodic(data, s, n);
      }
    }
  }

  lemma SplitPeriod(data: seq<bv8>, s: nat, n: nat)
    requires n > 0 && s + 4 * n + 4 <= |data|
    requires forall i: nat :: s <= i < s + 4 ==> data[i] == data[i + 4]
    ensures Periodic(data, s, n) <==> Periodic(data, s + 4, n - 1)
  {
    if Periodic(data, s + 4, n - 1) {
      forall i: nat | s <= i < s + 4 * n
        ensures data[i] == data[i + 4]
      {
        if i >= s + 4 {
          assert s + 4 <= i < s + 4 + 4 * (n - 1);
        }
      }
    }
  }

  /** Equal bytes make equal windows. */
  lemma SameWindow(p: Pattern, num: bv8, data: seq<bv8>, o: nat)
    requires o + 8 <= |data| && forall i: nat :: o <= i < o + 4 ==> data[i] == data[i + 4]
    ensures SyncAt(p, num, data, o) == SyncAt(p, num, data, o + 4)
  {
    hide IsSync;
    EqualWords(data, o);
  }

  /** Sliding past the last sync happens for the lost fillers only. */
  lemma SlidesPastSyncs(p: Pattern, num: bv8, data: seq<bv8>, s: nat, f: nat, m: nat)
    requires Framed(p, num, data, s, f, m)
    ensures m >= 1
    ensures f == 0 ==> !SlidesTo(data, s, m)
    ensures f >= 4 ==> !SlidesTo(data, s, (f + 3) / 4)
    ensures 1 <= f <= 3 ==> (SlidesTo(data, s, m) <==> Lost(data, s, f, m))
  {
    hide SyncAt, SlidesTo;
    SlidesIff(data, s, m);
    assert SyncAt(p, num, data, s + f + 4 * 0);
    if f >= 4 {
      SlidesIff(data, s, (f + 3) / 4);
      if Periodic(data, s, (f + 3) / 4) {
        SameWindow(p, num, data, s + f - 4);
      }
    }
    if f == 0 && Periodic(data, s, m) {
      SameWindow(p, num, data, s + f + 4 * (m - 1));
    }
  }

  /** The first sync found from within the run of syncs, or before it, is one of them, and
      the header follows the last. */
  lemma {:induction false} SyncsSkipped(p: Pattern, num: bv8, data: seq<bv8>, s: nat, f: nat, m: nat, i: nat)
    requires Framed(p, num, data, s, f, m) && i <= m
    ensures SkipSyncs(p, num, data, s + f + 4 * i) == Some(s + f + 4 * m)
    decreases m - i
  {
    hide SyncAt;
    if i < m {
      assert SyncAt(p, num, data, s + f + 4 * i);
      SyncsSkipped(p, num, data, s, f, m, i + 1);
    }
  }

  lemma FoundFrom(p: Pattern, num: bv8, data: seq<bv8>, s: nat, f: nat, m: nat, a: nat)
    requires Framed(p, num, data, s, f, m) && SkipEqual(data, s) == Some(a)
    requires s <= a <= s + f + 4 * m - 4
    ensures HeaderAt(p, num, data, s) == Some(s + f + 4 * m)
  {
    hide SyncAt, SkipEqual, FirstSync, SkipSyncs;
    assert SyncAt(p, num, data, s + f + 4 * (m - 1));
    var q := FirstSync(p, num, data, a).value;
    assert s + f <= q <= s + f + 4 * m - 4 && (q - s - f) % 4 == 0;
    SyncsSkipped(p, num, data, s, f, m, (q - s - f) / 4 + 1);
  }

  lemma NotFoundBefore(p: Pattern, num: bv8, data: seq<bv8>, s: nat)
    ensures var h := HeaderAt(p, num, data, s);
      h.Some? ==> SkipEqual(data, s).Some? && h.value >= SkipEqual(data, s).value + 4
  {
    hide SyncAt;
  }

  /** Header resynchronisation is exact: from any byte offset and past any filler and any
      number of syncs the header that follows is found, if and only if the filler is not
      one of the lost ones. */
  lemma HeaderFoundIff(p: Pattern, num: bv8, data: seq<bv8>, s: nat, f: nat, m: nat)
    requires Framed(p, num, data, s, f, m)
    ensures HeaderAt(p, num, data, s) == Some(s + f + 4 * m) <==> !Lost(data, s, f, m)
  {
    hide Framed, HeaderAt, Lost, SlidesTo, SkipEqual;
    SlidesPastSyncs(p, num, data, s, f, m);
    NoSuchLoss(data, s, f, m);
    if Lost(data, s, f, m) {
      FoundTooFar(p, num, data, s, m);
    } else {
      WordsBetween(data, s, f, m);
      FoundFrom(p, num, data, s, f, m, SkipEqual(data, s).value);
    }
  }

  lemma FoundTooFar(p: Pattern, num: bv8, data: seq<bv8>, s: nat, m: nat)
    requires SlidesTo(data, s, m)
    ensures var h := HeaderAt(p, num, data, s); h.None? || h.value >= s + 4 * m + 4
  {
    hide SkipEqual;
    NotFoundBefore(p, num, data, s);
  }

  lemma NoSuchLoss(data: seq<bv8>, s: nat, f: nat, m: nat)
    ensures Lost(data, s, f, m) ==> 1 <= f <= 3
  {
  }

  /** The window slides in whole words, so short of a bound it stops a word before it. */
  lemma WordsBetween(data: seq<bv8>, s: nat, f: nat, m: nat)
    requires m >= 1
    requires f < 4 ==> !SlidesTo(data, s, m)
    requires f >= 4 ==> !SlidesTo(data, s, (f + 3) / 4)
    ensures SkipEqual(data, s).Some? && SkipEqual(data, s).value <= s + f + 4 * m - 4
  {
    var a := SkipEqual(data, s);
    hide SkipEqual;
    var d := a.value - s;
    if f >= 4 {
      assert d <= 4 * ((f + 3) / 4) - 4 <= f - 1;
    } else {
      assert d <= 4 * m - 4;
    }
  }

  /** Syncs back to back from `s` on, at any byte offset of the stream: no assumption about
      false syncs is needed when no shift of the pattern looks like the pattern. */
  lemma BackToBackFound(p: Pattern, num: bv8, data: seq<bv8>, s: nat, m: nat)
    requires Separated(p) && m >= 1 && s + 4 * m + 8 <= |data| && !SyncAt(p, num, data, s + 4 * m)
    requires forall i: nat :: i < m ==> SyncAt(p, num, data, s + 4 * i)
    ensures HeaderAt(p, num, data, s) == Some(s + 4 * m)
  {
    forall o: nat | s <= o <= s + 4 * m - 4 && (o - s) % 4 != 0
      ensures !SyncAt(p, num, data, o)
    {
      Between(p, num, data, s, m, o);
    }
    HeaderFoundIff(p, num, data, s, 0, m);
  }

  lemma Between(p: Pattern, num: bv8, data: seq<bv8>, s: nat, m: nat, o: nat)
    requires Separated(p) && s + 4 * m <= |data| && s <= o <= s + 4 * m - 4 && (o - s) % 4 != 0
    requires forall i: nat :: i < m ==> SyncAt(p, num, data, s + 4 * i)
    ensures !SyncAt(p, num, data, o)
  {
    hide IsSync, Separated;
    var i, d := (o - s) / 4, (o - s) % 4;
    var a := s + 4 * i;
    assert SyncAt(p, num, data, a) && SyncAt(p, num, data, s + 4 * (i + 1));
    NoSyncAcrossSyncs(p, num, Word(data, a), Word(data, a + 4), d);
    assert Word(data, a)[d..] + Word(data, a + 4)[..d] == Word(data, o);
  }

  /** The lost fillers exist for every such pattern: the tail of a sync, a sync, and a
      header that begins with the same byte as the sync. */
  lemma LostStream(p: Pattern, num: bv8, w: seq<bv8>, h: seq<bv8>) returns (data: seq<bv8>)
    requires Separated(p) && |w| == 4 && IsSync(p, num, w)
    requires |h| == 8 && !IsSync(p, num, h[..4]) && h[0] == w[0]
    ensures data == w[1..] + w + h && Framed(p, num, data, 0, 3, 1)
    ensures HeaderAt(p, num, data, 0) != Some(7)
  {
    hide IsSync, Separated;
    data := w[1..] + w + h;
    assert Word(data, 3) == w && Word(data, 7) == h[..4];
    forall o: nat | o < 3
      ensures !SyncAt(p, num, data, o)
    {
      NoSyncAcrossSyncs(p, num, w, w, o + 1);
      assert Word(data, o) == w[o + 1..] + w[..o + 1];
    }
    HeaderFoundIff(p, num, data, 0, 3, 1);
  }

  // ------------------------------------------------------------------ a stream of messages

  /** A message on the wire: filler, syncs, and how many bytes follow its header. */
  datatype Frame = Frame(filler: nat, syncs: nat, body: nat)

  function HdrPos(s: nat, fr: Frame): nat {
    s + fr.filler + 4 * fr.syncs
  }

  function Next(s: nat, fr: Frame): nat {
    HdrPos(s, fr) + 8 + fr.body
  }

  /** The stream from `s` is the messages `frs`, the sequence number stepping by one, and
      `body` is what the payload reader takes for each header. */
  ghost predicate Stream(p: Pattern, num: bv8, data: seq<bv8>, s: nat, body: seq<bv8> -> nat, frs: seq<Frame>)
    decreases |frs|
  {
    frs != [] ==>
    && Framed(p, num, data, s, frs[0].filler, frs[0].syncs)
    && Next(s, frs[0]) <= |data|
    && body(data[HdrPos(s, frs[0])..HdrPos(s, frs[0]) + 8]) == frs[0].body
    && Stream(p, num + 1, data, Next(s, frs[0]), body, frs[1..])
  }

  function Headers(s: nat, frs: seq<Frame>): seq<nat>
    decreases |frs|
  {
    if frs == [] then [] else [HdrPos(s, frs[0])] + Headers(Next(s, frs[0]), frs[1..])
  }

  ghost predicate NoneLost(data: seq<bv8>, s: nat, frs: seq<Frame>)
    decreases |frs|
  {
    frs == [] ||
    (!Lost(data, s, frs[0].filler, frs[0].syncs) && NoneLost(data, Next(s, frs[0]), frs[1..]))
  }

  /** The driver reading `n` messages: a header, then its body, and on. */
  function Receive(p: Pattern, num: bv8, data: seq<bv8>, s: nat, body: seq<bv8> -> nat, n: nat): seq<nat>
    decreases n
  {
    if n == 0 then []
    else
      var h := HeaderAt(p, num, data, s);
      if h.None? then []
      else
        var next := h.value + 8 + body(data[h.value..h.value + 8]);
        if next > |data| then [] else [h.value] + Receive(p, num + 1, data, next, body, n - 1)
  }

  /** Over a stream of any number of messages the driver reads exactly their headers, in
      order and to the last, if and only if none of them is lost. */
  lemma {:induction false} StreamReceivedIff(p: Pattern, num: bv8, data: seq<bv8>, s: nat, body: seq<bv8> -> nat,
                                             frs: seq<Frame>)
    requires Stream(p, num, data, s, body, frs)
    ensures Receive(p, num, data, s, body, |frs|) == Headers(s, frs) <==> NoneLost(data, s, frs)
    decreases |frs|
  {
    hide Framed, HeaderAt, Lost;
    if frs != [] {
      HeaderFoundIff(p, num, data, s, frs[0].filler, frs[0].syncs);
      var h := HeaderAt(p, num, data, s);
      if h == Some(HdrPos(s, frs[0])) {
        StreamReceivedIff(p, num + 1, data, Next(s, frs[0]), body, frs[1..]);
        var rest := Receive(p, num + 1, data, Next(s, frs[0]), body, |frs| - 1);
        assert [h.value] + rest == Headers(s, frs) <==> rest == Headers(Next(s, frs[0]), frs[1..]) by {
          SameTail(h.value, rest, Headers(Next(s, frs[0]), frs[1..]));
        }
      } else {
        assert Headers(s, frs)[0] == HdrPos(s, frs[0]);
      }
    }
  }

  lemma SameTail(x: nat, a: seq<nat>, b: seq<nat>)
    ensures [x] + a == [x] + b <==> a == b
  {
    assert ([x] + a)[1..] == a && ([x] + b)[1..] == b;
  }

  /** A stream whose fillers are whole words is always received. */
  lemma {:induction false} AlignedStreamReceived(p: Pattern, num: bv8, data: seq<bv8>, s: nat, body: seq<bv8> -> nat,
                                                 frs: seq<Frame>)
    requires Stream(p, num, data, s, body, frs)
    requires forall k :: 0 <= k < |frs| ==> frs[k].filler % 4 == 0
    ensures Receive(p, num, data, s, body, |frs|) == Headers(s, frs)
  {
    StreamReceivedIff(p, num, data, s, body, frs);
    AlignedNoneLost(data, s, frs);
  }

  lemma {:induction false} AlignedNoneLost(data: seq<bv8>, s: nat, frs: seq<Frame>)
    requires forall k :: 0 <= k < |frs| ==> frs[k].filler % 4 == 0
    ensures NoneLost(data, s, frs)
    decreases |frs|
  {
    hide Periodic;
    if frs != [] {
      AlignedNoneLost(data, Next(s, frs[0]), frs[1..]);
    }
  }

  /** A reader that stopped 4 bytes short leaves them as filler, and more filler of whole
      words never costs a message: the next header is still found. */
  lemma LeftoverIsFiller(p: Pattern, num: bv8, data: seq<bv8>, s: nat, f: nat, m: nat)
    requires s >= 4 && Framed(p, num, data, s - 4, f + 4, m)
    ensures HeaderAt(p, num, data, s - 4) == Some(s + f + 4 * m)
  {
    HeaderFoundIff(p, num, data, s - 4, f + 4, m);
    NoSuchLoss(data, s - 4, f + 4, m);
  }
}
