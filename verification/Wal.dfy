/** The write-ahead log: staged appends, spills that may fail part-way, sync, replay and truncation. */
module Wals {
  import opened Options

  type Byte = b: nat | b < 256
  type U32 = n: nat | n < 0x1_0000_0000

  /** CRC-32 is any fixed function of the eight payload bytes. */
  type Crc = seq<Byte> -> U32

  datatype EdgeRecord = EdgeRecord(src: U32, dst: U32)

  const HEADER_LEN: nat := 16
  const RECORD_LEN: nat := 12
  const BUF_CAPACITY: nat := 0x10_0000
  const VERSION: U32 := 1

  function Magic(): (m: seq<Byte>)
    ensures |m| == 8
  {
    [65, 71, 87, 65, 76, 0, 0, 0]
  }

  function Header(): (h: seq<Byte>)
    ensures |h| == HEADER_LEN
  {
    Magic() + ToLE(VERSION) + [0, 0, 0, 0]
  }

  function ToLE(n: U32): (b: seq<Byte>)
    ensures |b| == 4
  {
    [n % 256, n / 0x100 % 256, n / 0x1_0000 % 256, n / 0x100_0000]
  }

  function FromLE(b: seq<Byte>): U32
    requires |b| == 4
  {
    var d := [b[0] as nat, b[1] as nat, b[2] as nat, b[3] as nat];
    d[0] + 0x100 * d[1] + 0x1_0000 * d[2] + 0x100_0000 * d[3]
  }

  lemma LERoundTrip(n: U32)
    ensures FromLE(ToLE(n)) == n
  {
    var a := n / 0x100;
    var b := a / 0x100;
    assert n / 0x1_0000 == b && n / 0x100_0000 == b / 0x100;
  }

  predicate GoodHeader(h: seq<Byte>)
    requires |h| == HEADER_LEN
  {
    h[..8] == Magic() && FromLE(h[8..12]) == VERSION
  }

  function EncodeOne(crc: Crc, r: EdgeRecord): (b: seq<Byte>)
    ensures |b| == RECORD_LEN
  {
    var payload := ToLE(r.src) + ToLE(r.dst);
    payload + ToLE(crc(payload))
  }

  ghost function Encode(crc: Crc, rs: seq<EdgeRecord>): (b: seq<Byte>)
    ensures |b| == RECORD_LEN * |rs|
  {
    if rs == [] then [] else EncodeOne(crc, rs[0]) + Encode(crc, rs[1..])
  }

  predicate CleanRecord(crc: Crc, b: seq<Byte>)
    requires |b| == RECORD_LEN
  {
    FromLE(b[8..12]) == crc(b[..8])
  }

  function DecodeOne(b: seq<Byte>): EdgeRecord
    requires |b| == RECORD_LEN
  {
    EdgeRecord(FromLE(b[..4]), FromLE(b[4..8]))
  }

  /** The records before the first short or mismatching one. */
  ghost function CleanRecords(crc: Crc, b: seq<Byte>): (rs: seq<EdgeRecord>)
    ensures RECORD_LEN * |rs| <= |b|
  {
    if |b| < RECORD_LEN || !CleanRecord(crc, b[..RECORD_LEN]) then []
    else [DecodeOne(b[..RECORD_LEN])] + CleanRecords(crc, b[RECORD_LEN..])
  }

  // -- Encoding and replay ------------------------------------------------------

  lemma RecordRoundTrip(crc: Crc, r: EdgeRecord)
    ensures CleanRecord(crc, EncodeOne(crc, r)) && DecodeOne(EncodeOne(crc, r)) == r
  {
    var b := EncodeOne(crc, r);
    var payload := ToLE(r.src) + ToLE(r.dst);
    assert b[..8] == payload && b[8..12] == ToLE(crc(payload));
    assert b[..4] == ToLE(r.src) && b[4..8] == ToLE(r.dst);
    LERoundTrip(r.src);
    LERoundTrip(r.dst);
    LERoundTrip(crc(payload));
  }

  // -- The layout, in bytes -------------------------------------------------------

  /** The four bytes from `at` on, the lowest first. */
  ghost function Num(b: seq<Byte>, at: nat): nat
    requires at + 4 <= |b|
  {
    (b[at] as nat) + 256 * (b[at + 1] as nat) + 65536 * (b[at + 2] as nat) + 16777216 * (b[at + 3] as nat)
  }

  /** Twelve bytes from `at` on: source, destination, and the checksum of those eight bytes. */
  ghost predicate RecordAt(crc: Crc, b: seq<Byte>, at: nat, r: EdgeRecord) {
    at + 12 <= |b| && Num(b, at) == r.src && Num(b, at + 4) == r.dst && Num(b, at + 8) == crc(b[at..at + 8])
  }

  /** The records from `at` on, one after the other. */
  ghost predicate RecordsAt(crc: Crc, b: seq<Byte>, at: nat, rs: seq<EdgeRecord>) {
    forall i :: 0 <= i < |rs| ==> RecordAt(crc, b, at + 12 * i, rs[i])
  }

  /** Sixteen bytes: the magic, and version 1. */
  ghost predicate HeaderAt(b: seq<Byte>) {
    |b| >= 16 && b[..8] == [65, 71, 87, 65, 76, 0, 0, 0] && Num(b, 8) == 1
  }

  lemma NumSlice(b: seq<Byte>, at: nat)
    requires at + 4 <= |b|
    ensures FromLE(b[at..at + 4]) == Num(b, at)
  {
  }

  lemma CleanLayout(crc: Crc, b: seq<Byte>, at: nat)
    requires at + RECORD_LEN <= |b|
    ensures var x := b[at..at + RECORD_LEN];
      (CleanRecord(crc, x) <==> Num(b, at + 8) == crc(b[at..at + 8])) && (CleanRecord(crc, x) ==> RecordAt(crc, b, at, DecodeOne(x)))
  {
    hide FromLE, Num;
    Inner(b, at, 0, 4);
    Inner(b, at, 4, 8);
    Inner(b, at, 8, 12);
    Inner(b, at, 0, 8);
    NumSlice(b, at);
    NumSlice(b, at + 4);
    NumSlice(b, at + 8);
  }

  lemma Inner(b: seq<Byte>, at: nat, i: nat, j: nat)
    requires at + RECORD_LEN <= |b| && i <= j <= RECORD_LEN
    ensures b[at..at + RECORD_LEN][i..j] == b[at + i..at + j]
  {
    var x := b[at..at + RECORD_LEN];
    assert |x[i..j]| == j - i == |b[at + i..at + j]|;
    assert forall k :: 0 <= k < j - i ==> x[i..j][k] == x[i + k] == b[at + i + k] == b[at + i..at + j][k];
  }

  lemma EncodeOneLayout(crc: Crc, r: EdgeRecord)
    ensures RecordAt(crc, EncodeOne(crc, r), 0, r)
  {
    var b := EncodeOne(crc, r);
    RecordRoundTrip(crc, r);
    CleanLayout(crc, b, 0);
    assert b[0..0 + RECORD_LEN] == b;
    hide EncodeOne, CleanRecord, DecodeOne;
  }

  lemma RecordMoved(crc: Crc, a: seq<Byte>, b: seq<Byte>, c: seq<Byte>, at: nat, r: EdgeRecord)
    requires RecordAt(crc, b, at, r)
    ensures RecordAt(crc, a + b + c, |a| + at, r)
  {
    var d := a + b + c;
    assert d[|a| + at..|a| + at + 8] == b[at..at + 8];
    assert forall i :: 0 <= i < |b| ==> d[|a| + i] == b[i];
  }

  /** An encoded log is its records, laid out one after the other. */
  lemma {:induction false} EncodeLayout(crc: Crc, rs: seq<EdgeRecord>)
    ensures RecordsAt(crc, Encode(crc, rs), 0, rs)
  {
    if rs != [] {
      var first, rest := EncodeOne(crc, rs[0]), Encode(crc, rs[1..]);
      EncodeLayout(crc, rs[1..]);
      EncodeOneLayout(crc, rs[0]);
      hide EncodeOne, RecordAt;
      RecordMoved(crc, [], first, rest, 0, rs[0]);
      assert [] + first + rest == first + rest;
      forall i | 0 <= i < |rs| ensures RecordAt(crc, first + rest, 12 * i, rs[i]) {
        if i > 0 {
          assert RecordAt(crc, rest, 12 * (i - 1), rs[1..][i - 1]);
          RecordMoved(crc, first, rest, [], 12 * (i - 1), rs[i]);
          assert first + rest + [] == first + rest;
        }
      }
    }
  }

  /** The same behind other bytes. */
  lemma StagedLayout(crc: Crc, a: seq<Byte>, rs: seq<EdgeRecord>)
    ensures RecordsAt(crc, a + Encode(crc, rs), |a|, rs)
  {
    EncodeLayout(crc, rs);
    hide Encode, RecordAt;
    forall i | 0 <= i < |rs| ensures RecordAt(crc, a + Encode(crc, rs), |a| + 12 * i, rs[i]) {
      assert RecordAt(crc, Encode(crc, rs), 0 + 12 * i, rs[i]);
      RecordMoved(crc, a, Encode(crc, rs), [], 12 * i, rs[i]);
      assert a + Encode(crc, rs) + [] == a + Encode(crc, rs);
    }
  }

  lemma HeaderLayout(h: seq<Byte>)
    requires |h| >= HEADER_LEN
    ensures GoodHeader(h[..HEADER_LEN]) <==> HeaderAt(h)
    ensures FromLE(h[8..12]) == Num(h, 8)
  {
    var x := h[..HEADER_LEN];
    assert x[..8] == h[..8] && x[8..12] == h[8..12];
    NumSlice(h, 8);
  }

  lemma OwnHeader()
    ensures HeaderAt(Header()) && Num(Header(), 12) == 0
  {
    LERoundTrip(VERSION);
    assert Header()[..8] == Magic() && Header()[8..12] == ToLE(VERSION);
    assert Header()[..HEADER_LEN] == Header();
    HeaderLayout(Header());
  }

  lemma {:induction false} EncodeConcat(crc: Crc, a: seq<EdgeRecord>, b: seq<EdgeRecord>)
    ensures Encode(crc, a + b) == Encode(crc, a) + Encode(crc, b)
  {
    if a == [] {
      assert a + b == b;
    } else {
      EncodeConcat(crc, a[1..], b);
      assert (a + b)[1..] == a[1..] + b;
      ConcatAssoc(EncodeOne(crc, a[0]), Encode(crc, a[1..]), Encode(crc, b));
    }
  }

  lemma ConcatAssoc(a: seq<Byte>, b: seq<Byte>, c: seq<Byte>)
    ensures (a + b) + c == a + (b + c)
  {
  }

  lemma EncodeSingle(crc: Crc, r: EdgeRecord)
    ensures Encode(crc, [r]) == EncodeOne(crc, r)
  {
    assert [r][1..] == [];
  }

  lemma CleanStep(crc: Crc, x: seq<Byte>, rest: seq<Byte>)
    requires |x| == RECORD_LEN && CleanRecord(crc, x)
    ensures CleanRecords(crc, x + rest) == [DecodeOne(x)] + CleanRecords(crc, rest)
  {
    hide CleanRecord, DecodeOne;
    assert (x + rest)[..RECORD_LEN] == x && (x + rest)[RECORD_LEN..] == rest;
  }

  /** Whatever bytes follow an encoded log, replay delivers all of that log first. */
  lemma {:induction false} ReplayStartsWith(crc: Crc, rs: seq<EdgeRecord>, junk: seq<Byte>)
    ensures CleanRecords(crc, Encode(crc, rs) + junk) == rs + CleanRecords(crc, junk)
  {
    hide CleanRecords, CleanRecord, EncodeOne, DecodeOne;
    if rs == [] {
      assert Encode(crc, rs) + junk == junk;
    } else {
      var first, rest := EncodeOne(crc, rs[0]), Encode(crc, rs[1..]);
      RecordRoundTrip(crc, rs[0]);
      ConcatAssoc(first, rest, junk);
      CleanStep(crc, first, rest + junk);
      ReplayStartsWith(crc, rs[1..], junk);
      assert rs == [rs[0]] + rs[1..];
    }
  }

  lemma CutInside(a: seq<Byte>, b: seq<Byte>, len: nat)
    requires |a| <= len <= |a| + |b|
    ensures (a + b)[..len] == a + b[..len - |a|]
  {
  }

  lemma ShortReplay(crc: Crc, b: seq<Byte>)
    requires |b| < RECORD_LEN
    ensures CleanRecords(crc, b) == []
  {
  }

  /** Cutting an encoded log at any byte leaves exactly the records that fit before the cut. */
  lemma ReplayOfPrefix(crc: Crc, rs: seq<EdgeRecord>, len: nat)
    requires len <= RECORD_LEN * |rs|
    ensures CleanRecords(crc, Encode(crc, rs)[..len]) == rs[..len / RECORD_LEN]
  {
    hide Encode, CleanRecord, CleanRecords;
    var k := len / RECORD_LEN;
    EncodeConcat(crc, rs[..k], rs[k..]);
    assert rs[..k] + rs[k..] == rs;
    CutInside(Encode(crc, rs[..k]), Encode(crc, rs[k..]), len);
    var junk := Encode(crc, rs[k..])[..len - RECORD_LEN * k];
    ReplayStartsWith(crc, rs[..k], junk);
    ShortReplay(crc, junk);
  }

  /** Truncating any log, however corrupt, at the end of its clean records changes nothing on the next replay. */
  lemma {:induction false} TruncateKeeps(crc: Crc, b: seq<Byte>)
    ensures CleanRecords(crc, b[..RECORD_LEN * |CleanRecords(crc, b)|]) == CleanRecords(crc, b)
  {
    if |b| >= RECORD_LEN && CleanRecord(crc, b[..RECORD_LEN]) {
      var rest := b[RECORD_LEN..];
      var n := |CleanRecords(crc, rest)|;
      TruncateKeeps(crc, rest);
      var cut := b[..RECORD_LEN * (n + 1)];
      assert cut[..RECORD_LEN] == b[..RECORD_LEN];
      assert cut[RECORD_LEN..] == rest[..RECORD_LEN * n];
    }
  }

  /** A crash keeps some bytes of a log: replay finds exactly the records that fit in them. */
  lemma CrashReplay(crc: Crc, header: seq<Byte>, rs: seq<EdgeRecord>, image: seq<Byte>)
    requires |header| == HEADER_LEN <= |image|
    requires image <= header + Encode(crc, rs)
    ensures image[..HEADER_LEN] == header
    ensures (|image| - HEADER_LEN) / RECORD_LEN <= |rs|
    ensures CleanRecords(crc, image[HEADER_LEN..]) == rs[..(|image| - HEADER_LEN) / RECORD_LEN]
  {
    hide Encode, CleanRecords;
    HeaderCut(header, Encode(crc, rs), image);
    ReplayOfPrefix(crc, rs, |image| - HEADER_LEN);
  }

  /** The durable part of a log survives, followed by bytes of any kind: replay delivers it first. */
  lemma CrashWithJunk(crc: Crc, header: seq<Byte>, rs: seq<EdgeRecord>, kept: nat, image: seq<Byte>)
    requires |header| == HEADER_LEN && kept <= |rs|
    requires header + Encode(crc, rs[..kept]) <= image
    ensures image[..HEADER_LEN] == header
    ensures rs[..kept] <= CleanRecords(crc, image[HEADER_LEN..])
  {
    hide Encode, CleanRecords;
    var junk := JunkAfter(header, Encode(crc, rs[..kept]), image);
    ReplayStartsWith(crc, rs[..kept], junk);
  }

  lemma HeaderCut(h: seq<Byte>, body: seq<Byte>, image: seq<Byte>)
    requires |h| <= |image| && image <= h + body
    ensures image[..|h|] == h && image[|h|..] == body[..|image| - |h|]
  {
  }

  lemma JunkAfter(h: seq<Byte>, a: seq<Byte>, image: seq<Byte>) returns (junk: seq<Byte>)
    requires h + a <= image
    ensures |h| <= |image| && image[..|h|] == h && image[|h|..] == a + junk
  {
    junk := image[|h| + |a|..];
    assert image == (h + a) + junk;
  }

  lemma AppendOne(crc: Crc, rs: seq<EdgeRecord>, r: EdgeRecord)
    ensures Encode(crc, rs + [r]) == Encode(crc, rs) + EncodeOne(crc, r)
  {
    hide EncodeOne;
    EncodeConcat(crc, rs, [r]);
    EncodeSingle(crc, r);
  }

  // -- Environment --------------------------------------------------------------

  /** What one write(2) of the file answers. */
  datatype WriteOutcome = Wrote(n: nat) | Interrupted | Failed

  datatype WalError = Io | BadMagic(found: seq<Byte>) | UnknownVersion(version: U32)

  datatype Outcome<T> = Ok(value: T) | Err(error: WalError)

  /** Every answer takes at least a byte. */
  predicate Accepting(io: seq<WriteOutcome>) {
    forall i :: 0 <= i < |io| ==> io[i].Wrote? && io[i].n > 0
  }

  /** Some answer is a failure. */
  predicate Refusing(io: seq<WriteOutcome>) {
    exists i :: 0 <= i < |io| && (io[i] == Failed || io[i] == Wrote(0))
  }

  function EdgesOf(src: U32, dsts: seq<U32>): (rs: seq<EdgeRecord>)
    ensures |rs| == |dsts| && forall i :: 0 <= i < |dsts| ==> rs[i] == EdgeRecord(src, dsts[i])
  {
    seq(|dsts|, i requires 0 <= i < |dsts| => EdgeRecord(src, dsts[i]))
  }

  function Min(a: nat, b: nat): nat { if a < b then a else b }

  class WalWriter {
    /** The bytes of the file, whose write position is always its end. */
    var file: seq<Byte>
    var buf: seq<Byte>
    var pending: nat
    const crc: Crc
    /** The header found or written at opening; its last four bytes are never looked at. */
    ghost const header: seq<Byte>

    /** Every record in the log: those found when it was opened, then every successful append. */
    ghost var records: seq<EdgeRecord>
    /** File length when opened, and the length known to survive a crash. */
    ghost var base: nat
    ghost var durable: nat

    ghost predicate Valid()
      reads this
    {
      && |header| == HEADER_LEN && GoodHeader(header)
      && file + buf == header + Encode(crc, records)
      && HEADER_LEN <= base <= |file| + |buf| - pending <= |file|
      && HEADER_LEN <= durable <= |file| + |buf| - pending
      && (durable == |file| + |buf| - pending || base == |file| + |buf| - pending)
    }

    /** Nothing appended since opening that a crash could still lose. */
    ghost predicate Settled()
      reads this
    {
      buf == [] && (durable == |file| || |file| == base)
    }

    constructor (crc: Crc, file: seq<Byte>, ghost header: seq<Byte>, ghost records: seq<EdgeRecord>, ghost durable: nat)
      requires |header| == HEADER_LEN && GoodHeader(header)
      requires file == header + Encode(crc, records)
      requires HEADER_LEN <= durable <= |file|
      ensures Valid() && Settled()
      ensures this.crc == crc && this.file == file && this.header == header && this.records == records && this.durable == durable
      ensures base == |file| && buf == [] && pending == 0
    {
      this.crc := crc;
      this.header := header;
      this.file := file;
      this.buf := [];
      this.pending := 0;
      this.records := records;
      this.base := |file|;
      this.durable := durable;
    }

    /**
     * Hand the staged bytes to the file. The answers come from `io`, one a write; a script that
     * runs out fails. Bytes accepted before a failure leave the buffer.
     */
    method FlushBuf(io: seq<WriteOutcome>) returns (ok: bool, rest: seq<WriteOutcome>)
      requires Valid()
      modifies this`file, this`buf
      ensures Valid()
      ensures file + buf == old(file + buf) && old(file) <= file
      ensures ok ==> buf == []
      ensures !ok ==> Refusing(io) || rest == []
      ensures Accepting(io) && |io| >= |old(buf)| ==> ok
    {
      hide Encode;
      var written := 0;
      rest := io;
      assert rest == io[|io| - |rest|..];
      ghost var file0, buf0 := file, buf;
      assert buf0[0..] == buf0;
      assert file0 + buf0[..0] == file0;
      ok := true;
      while ok && written < |buf|
        invariant 0 <= written <= |buf|
        invariant buf == buf0 && file == file0 + buf0[..written]
        invariant |rest| <= |io| && rest == io[|io| - |rest|..]
        invariant !ok ==> Refusing(io) || rest == []
        invariant Accepting(io) && |io| >= |buf0| ==> ok && |io| - |rest| <= written
        decreases |rest|, ok
      {
        var answer := if rest == [] then Failed else rest[0];
        rest := if rest == [] then [] else rest[1..];
        match answer
        case Interrupted =>
        case Failed =>
          ok := false;
        case Wrote(n) =>
          var m := Min(n, |buf| - written);
          if m == 0 {
            ok := false;
          } else {
            SlideCut(file0, buf0, written, m);
            file := file + buf[written..written + m];
            written := written + m;
          }
      }
      SlideEnd(file0, buf0, written);
      buf := buf[written..];
      return ok, rest;
    }

    /** One record per destination, all or nothing: room is made before anything is staged. */
    method AppendEdges(src: U32, dsts: seq<U32>, io: seq<WriteOutcome>) returns (ok: bool, rest: seq<WriteOutcome>)
      requires Valid()
      modifies this`file, this`buf, this`pending, this`records
      ensures Valid()
      ensures old(file) <= file
      ensures ok ==> records == old(records) + EdgesOf(src, dsts)
      ensures ok ==> file + buf == old(file + buf) + Encode(crc, EdgesOf(src, dsts))
      ensures ok ==> |file + buf| == |old(file + buf)| + 12 * |dsts|
      ensures ok ==> RecordsAt(crc, file + buf, |old(file + buf)|, EdgesOf(src, dsts))
      ensures !ok ==> records == old(records) && file + buf == old(file + buf) && pending == old(pending)
      ensures |old(buf)| + RECORD_LEN * |dsts| <= BUF_CAPACITY ==> ok && file == old(file)
      ensures ok && old(buf) != [] && |old(buf)| + RECORD_LEN * |dsts| > BUF_CAPACITY ==> file == old(file + buf)
      ensures !ok ==> Refusing(io) || rest == []
    {
      hide Encode, EncodeOne, RecordsAt;
      var need := |dsts| * RECORD_LEN;
      rest := io;
      if buf != [] && |buf| + need > BUF_CAPACITY {
        ok, rest := FlushBuf(rest);
        if !ok {
          return;
        }
      }
      var edges := EdgesOf(src, dsts);
      ghost var staged := buf;
      EncodeNone(crc);
      assert edges[..0] == [];
      for i := 0 to |dsts|
        modifies this`buf
        invariant buf == staged + Encode(crc, edges[..i])
      {
        AppendOne(crc, edges[..i], edges[i]);
        assert edges[..i + 1] == edges[..i] + [edges[i]];
        ConcatAssoc(staged, Encode(crc, edges[..i]), EncodeOne(crc, edges[i]));
        buf := buf + EncodeOne(crc, EdgeRecord(src, dsts[i]));
      }
      assert edges[..|dsts|] == edges;
      pending := pending + need;
      ConcatAssoc(file, staged, Encode(crc, edges));
      ConcatAssoc(header, Encode(crc, records), Encode(crc, edges));
      EncodeConcat(crc, records, edges);
      StagedLayout(crc, file + staged, edges);
      records := records + edges;
      ok := true;
    }

    /** Portable commit: write what is staged, then the durability barrier, which `synced` says worked. */
    method Sync(io: seq<WriteOutcome>, synced: bool) returns (ok: bool, rest: seq<WriteOutcome>)
      requires Valid()
      modifies this`file, this`buf, this`pending, this`durable
      ensures Valid()
      ensures file + buf == old(file + buf) && old(file) <= file
      ensures ok ==> Settled() && pending == 0
      ensures ok && old(pending) > 0 ==> durable == HEADER_LEN + RECORD_LEN * |records|
      ensures !ok ==> pending == old(pending) > 0 && (!synced || Refusing(io) || rest == [])
      ensures synced && Accepting(io) && |io| >= |old(buf)| ==> ok
      ensures durable >= old(durable)
    {
      rest := io;
      if pending == 0 {
        return true, rest;
      }
      ok, rest := FlushBuf(rest);
      if !ok || !synced {
        return false, rest;
      }
      pending := 0;
      durable := |file|;
    }

    /**
     * The panic path: forget what the file has not seen. The file stays a prefix of the log, and
     * keeps every record that was durable.
     */
    method DiscardPending()
      requires Valid()
      modifies this`buf, this`pending
      ensures buf == [] && pending == 0
      ensures file <= header + Encode(crc, records) && durable <= |file|
    {
      buf := [];
      pending := 0;
    }
  }

  // -- Sequence facts the methods use ---------------------------------------------

  lemma EncodeNone(crc: Crc)
    ensures Encode(crc, []) == []
  {
  }

  lemma SlideCut(file: seq<Byte>, buf: seq<Byte>, w: nat, m: nat)
    requires w + m <= |buf|
    ensures (file + buf[..w]) + buf[w..w + m] == file + buf[..w + m]
  {
  }

  lemma SlideEnd(file: seq<Byte>, buf: seq<Byte>, w: nat)
    requires w <= |buf|
    ensures (file + buf[..w]) + buf[w..] == file + buf
    ensures w == |buf| ==> buf[w..] == []
  {
  }

  // -- Replay and opening -----------------------------------------------------------

  lemma NoRecords(crc: Crc, log: seq<Byte>)
    ensures RecordsAt(crc, log, 16, [])
  {
  }

  lemma OneMore(crc: Crc, log: seq<Byte>, recs: seq<EdgeRecord>, r: EdgeRecord)
    requires RecordsAt(crc, log, 16, recs) && RecordAt(crc, log, 16 + 12 * |recs|, r)
    ensures RecordsAt(crc, log, 16, recs + [r])
  {
    hide RecordAt;
  }

  /** Walk the records of a log past its header, up to the first short or mismatching one. */
  method ReplayRecords(crc: Crc, log: seq<Byte>) returns (recs: seq<EdgeRecord>, truncateTo: Option<nat>)
    requires |log| >= HEADER_LEN
    ensures recs == CleanRecords(crc, log[HEADER_LEN..])
    ensures truncateTo == if HEADER_LEN + RECORD_LEN * |recs| == |log| then None
                          else Some(HEADER_LEN + RECORD_LEN * |recs|)
    ensures RecordsAt(crc, log, 16, recs)
    ensures var end := 16 + 12 * |recs|; end <= |log| && (end + 12 <= |log| ==> Num(log, end + 8) != crc(log[end..end + 8]))
  {
    hide CleanRecord, DecodeOne, RecordAt, Num, RecordsAt;
    NoRecords(crc, log);
    recs := [];
    var offset := HEADER_LEN;
    while true
      invariant HEADER_LEN <= offset <= |log| && offset == HEADER_LEN + RECORD_LEN * |recs|
      invariant CleanRecords(crc, log[HEADER_LEN..]) == recs + CleanRecords(crc, log[offset..]) && RecordsAt(crc, log, 16, recs)
      decreases |log| - offset
    {
      if |log| - offset < RECORD_LEN {
        assert CleanRecords(crc, log[offset..]) == [];
        return recs, if offset != |log| then Some(offset) else None;
      }
      var record := log[offset..offset + RECORD_LEN];
      CleanLayout(crc, log, offset);
      assert log[offset..][..RECORD_LEN] == record;
      assert log[offset..][RECORD_LEN..] == log[offset + RECORD_LEN..];
      if !CleanRecord(crc, record) {
        assert CleanRecords(crc, log[offset..]) == [];
        return recs, Some(offset);
      }
      OneMore(crc, log, recs, DecodeOne(record));
      recs := recs + [DecodeOne(record)];
      offset := offset + RECORD_LEN;
    }
  }

  /**
   * What a file holds once it has been opened: its own bytes when they start with a good header,
   * a fresh header when there were too few to make one.
   */
  method CreateOrOpen(image: seq<Byte>, io: seq<WriteOutcome>, synced: bool) returns (file: seq<Byte>, error: Option<WalError>)
    ensures |image| >= HEADER_LEN ==> file == image
    ensures |image| >= HEADER_LEN ==> (error == None <==> GoodHeader(image[..HEADER_LEN]))
    ensures |image| >= 16 ==> (error == None <==> HeaderAt(image))
    ensures |image| >= 16 && error.Some? ==>
      if image[..8] == [65, 71, 87, 65, 76, 0, 0, 0] then error.value.UnknownVersion? && error.value.version == Num(image, 8)
      else error.value == BadMagic(image[..8])
    ensures |image| < 16 && error == None ==> |file| == 16 && HeaderAt(file) && Num(file, 12) == 0
    ensures |image| < HEADER_LEN ==> file <= Header() && (error == None ==> file == Header())
    ensures |image| < HEADER_LEN && error.Some? ==> error.value == Io
    ensures |image| < HEADER_LEN && synced && Accepting(io) && |io| >= HEADER_LEN ==> error == None
  {
    OwnHeader();
    if |image| < HEADER_LEN {
      file := [];
      var rest, header := io, Header();
      while |file| < HEADER_LEN
        invariant |file| <= HEADER_LEN && file == header[..|file|]
        invariant |rest| <= |io| && rest == io[|io| - |rest|..]
        invariant Accepting(io) && |io| >= HEADER_LEN ==> |io| - |rest| <= |file|
        decreases |rest| + HEADER_LEN - |file|
      {
        if rest == [] || rest[0] == Failed || rest[0] == Wrote(0) {
          return file, Some(Io);
        }
        if rest[0].Wrote? {
          var m := Min(rest[0].n, HEADER_LEN - |file|);
          SlideCut([], header, |file|, m);
          file := file + header[|file|..|file| + m];
        }
        rest := rest[1..];
      }
      return file, if synced then None else Some(Io);
    }
    var header := image[..HEADER_LEN];
    HeaderLayout(image);
    assert header[..8] == image[..8] && header[8..12] == image[8..12];
    if header[..8] != Magic() {
      return image, Some(BadMagic(header[..8]));
    }
    if FromLE(header[8..12]) != VERSION {
      return image, Some(UnknownVersion(FromLE(header[8..12])));
    }
    return image, None;
  }

  /**
   * Drop the torn tail that replay found and stand at the end of the file. The cut is made
   * durable before anything can be appended after it.
   */
  method Resume(crc: Crc, file: seq<Byte>, recs: seq<EdgeRecord>, truncateTo: Option<nat>, synced: bool, ghost durable: nat)
      returns (w: Option<WalWriter>, disk: seq<Byte>)
    requires HEADER_LEN <= durable <= |file| && GoodHeader(file[..HEADER_LEN])
    requires recs == CleanRecords(crc, file[HEADER_LEN..])
    requires truncateTo == if HEADER_LEN + RECORD_LEN * |recs| == |file| then None
                           else Some(HEADER_LEN + RECORD_LEN * |recs|)
    ensures disk == file[..HEADER_LEN + RECORD_LEN * |recs|]
    ensures w == None ==> truncateTo != None && !synced
    ensures w.Some? ==> fresh(w.value) && w.value.Valid() && w.value.Settled()
    ensures w.Some? ==> w.value.crc == crc && w.value.records == recs && w.value.file == disk
    ensures w.Some? && truncateTo.Some? ==> w.value.durable == |disk|
    ensures w.Some? && truncateTo.None? ==> w.value.durable == durable
  {
    hide CleanRecords, Encode;
    var cut := HEADER_LEN + RECORD_LEN * |recs|;
    CleanEncode(crc, file[HEADER_LEN..]);
    assert file[..cut] == file[..HEADER_LEN] + file[HEADER_LEN..][..cut - HEADER_LEN];
    disk := file[..cut];
    if truncateTo.Some? && !synced {
      return None, disk;
    }
    var writer := new WalWriter(crc, disk, file[..HEADER_LEN], recs, if truncateTo.Some? then cut else durable);
    w := Some(writer);
  }

  lemma FromToLE(b: seq<Byte>)
    requires |b| == 4
    ensures ToLE(FromLE(b)) == b
  {
    var n := FromLE(b);
    var a: nat := b[1] as nat + 0x100 * b[2] as nat + 0x1_0000 * b[3] as nat;
    var c: nat := b[2] as nat + 0x100 * b[3] as nat;
    assert n == b[0] as nat + 0x100 * a && a == b[1] as nat + 0x100 * c;
    assert n / 0x100 == a && a / 0x100 == c;
    assert n / 0x1_0000 == c && n / 0x100_0000 == b[3];
  }

  /** A clean record is the encoding of what it decodes to. */
  lemma CleanIsEncoded(crc: Crc, b: seq<Byte>)
    requires |b| == RECORD_LEN && CleanRecord(crc, b)
    ensures EncodeOne(crc, DecodeOne(b)) == b
  {
    FromToLE(b[..4]);
    FromToLE(b[4..8]);
    FromToLE(b[8..12]);
    assert b[..4] + b[4..8] == b[..8];
    assert b[..8] + b[8..12] == b;
  }

  /** The clean part of any log is byte for byte the encoding of its records. */
  lemma {:induction false} CleanEncode(crc: Crc, b: seq<Byte>)
    ensures b[..RECORD_LEN * |CleanRecords(crc, b)|] == Encode(crc, CleanRecords(crc, b))
  {
    hide CleanRecord, EncodeOne, DecodeOne;
    if |b| >= RECORD_LEN && CleanRecord(crc, b[..RECORD_LEN]) {
      var rest := b[RECORD_LEN..];
      var n := RECORD_LEN * |CleanRecords(crc, rest)|;
      CleanEncode(crc, rest);
      CleanIsEncoded(crc, b[..RECORD_LEN]);
      assert b[..RECORD_LEN + n] == b[..RECORD_LEN] + rest[..n];
      assert CleanRecords(crc, b)[1..] == CleanRecords(crc, rest);
    }
  }

  /**
   * Recovery after a crash. Whatever part of the file survives beyond the durable length, replay
   * finds a prefix of the appended records that holds every durable one, and the truncated file
   * replays the same records with nothing left to cut.
   */
  lemma CrashRecovery(crc: Crc, header: seq<Byte>, records: seq<EdgeRecord>, kept: nat, image: seq<Byte>)
      returns (found: seq<EdgeRecord>)
    requires |header| == HEADER_LEN && kept <= |records|
    requires HEADER_LEN + RECORD_LEN * kept <= |image|
    requires image <= header + Encode(crc, records)
    ensures image[..HEADER_LEN] == header && found == CleanRecords(crc, image[HEADER_LEN..])
    ensures records[..kept] <= found <= records
    ensures |image| == HEADER_LEN + RECORD_LEN * |records| ==> found == records
    ensures HEADER_LEN + RECORD_LEN * |found| <= |image|
    ensures CleanRecords(crc, image[..HEADER_LEN + RECORD_LEN * |found|][HEADER_LEN..]) == found
  {
    hide Encode, CleanRecords;
    CrashReplay(crc, header, records, image);
    var body := image[HEADER_LEN..];
    found := CleanRecords(crc, body);
    TruncateKeeps(crc, body);
    var cut := RECORD_LEN * |found|;
    CutBody(image, cut);
    assert kept <= |found|;
  }

  lemma CutBody(image: seq<Byte>, cut: nat)
    requires HEADER_LEN + cut <= |image|
    ensures image[..HEADER_LEN + cut][HEADER_LEN..] == image[HEADER_LEN..][..cut]
  {
  }
}
