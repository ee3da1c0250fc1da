/** Opening a graph from its log, and what a crash at any moment leaves of the edges. */
module Recovery {
  import opened Options
  import opened Trees
  import opened Arenas
  import opened CTrees
  import opened Ownership
  import opened RootTables
  import opened Wals
  import opened Graphs

  datatype OpenError = LogError(error: WalError) | RecordOutOfRange(record: EdgeRecord) | ReplayArenaFull | ReplayPanicked

  lemma RecordAgain(records: seq<EdgeRecord>, trees: seq<Option<Tree>>, r: EdgeRecord)
    requires Recorded(records, trees) && HasEdge(trees, r.src, r.dst)
    ensures Recorded(records + [r], trees)
  {
  }

  lemma RecordNew(records: seq<EdgeRecord>, trees: seq<Option<Tree>>, r: EdgeRecord, t: Option<Tree>)
    requires Recorded(records, trees) && r.src < |trees| && Gains(trees[r.src], t, [r.dst])
    ensures Recorded(records + [r], trees[r.src := t])
  {
    hide Gains, Recorded;
    RecordedUpdate(records, trees, r.src, t, [r.dst]);
    assert EdgesOf(r.src, [r.dst]) == [r];
  }

  /** Some record asks for a rebuild that overruns its traversal. */
  ghost predicate Toppled(g: Graph, recs: seq<EdgeRecord>)
    reads g`trees
  {
    exists r :: r in recs && g.Topples(r.src, r.dst)
  }

  /** A region of the arena can hand out nothing, or a record's path is longer than a descent records. */
  ghost predicate NoRoom(g: Graph, recs: seq<EdgeRecord>)
    reads g, g.arena
  {
    g.arena.Exhausted() || exists r :: r in recs && r.src < |g.trees| && Deep(g.trees[r.src], r.dst)
  }

  /** Apply replayed records to a fresh graph, under one guard opened at the first of them. */
  method Apply(g: Graph, recs: seq<EdgeRecord>) returns (error: Option<OpenError>)
    requires g.Valid() && g.wal == null && !g.guarded && !g.poisoned && g.Current()
    requires forall v :: 0 <= v < |g.trees| ==> g.trees[v] == None
    modifies g, g.arena, g.log
    ensures g.arena == old(g.arena) && g.wal == null && (error != Some(ReplayPanicked) ==> g.Valid())
    ensures error == Some(ReplayPanicked) ==> g.Whole() && g.guarded && Toppled(g, recs)
    ensures error == None ==> Recorded(recs, g.trees) && g.guarded == (recs != []) && !g.poisoned && (g.guarded ==> !g.walFailed)
    ensures recs == [] ==> error == None && g.Current()
    ensures error == None ==> forall i :: 0 <= i < |recs| ==> recs[i].src < g.numVertices && recs[i].dst < g.numVertices
    ensures error.Some? && error.value.RecordOutOfRange? ==>
      error.value.record in recs && (error.value.record.src >= g.numVertices || error.value.record.dst >= g.numVertices)
    ensures error.Some? ==> !error.value.LogError?
    ensures error == Some(ReplayArenaFull) ==> NoRoom(g, recs)
  {
    hide g.Valid, g.Whole, Recorded, RElems, Gains, Arena.Exhausted, Deep, Overruns;
    var k := 0;
    NoRecords(g.trees);
    while k < |recs|
      invariant 0 <= k <= |recs|
      invariant g.Valid() && g.arena == old(g.arena) && g.wal == null && !g.poisoned
      invariant g.guarded == (k > 0) && (k > 0 ==> !g.walFailed)
      invariant k == 0 ==> g.Current()
      invariant Recorded(recs[..k], g.trees)
      invariant forall i :: 0 <= i < k ==> recs[i].src < g.numVertices && recs[i].dst < g.numVertices
    {
      if k == 0 {
        var _ := g.OpenGuard(0);
      }
      ghost var trees := g.trees;
      var r := g.InsertEdge(recs[k].src, recs[k].dst);
      assert recs[..k + 1] == recs[..k] + [recs[k]];
      match r {
        case OutOfRange(_, _) => return Some(RecordOutOfRange(recs[k]));
        case Full => return Some(ReplayArenaFull);
        case WalAppend => assert false;
        case Panicked => return Some(ReplayPanicked);
        case Done(isNew) =>
          if isNew {
            RecordNew(recs[..k], trees, recs[k], g.trees[recs[k].src]);
          } else {
            RecordAgain(recs[..k], g.trees, recs[k]);
          }
      }
      k := k + 1;
    }
    assert recs[..k] == recs;
    error := None;
  }

  lemma NoRecords(trees: seq<Option<Tree>>)
    requires forall v :: 0 <= v < |trees| ==> trees[v] == None
    ensures Recorded([], trees)
  {
  }

  /**
   * Open a graph backed by a log: replay its records under one guard, cut a torn tail, attach the
   * log. `io` answers the writes of a fresh header, `synced` each durability barrier in turn.
   */
  method OpenWithWal(crc: Crc, image: seq<Byte>, numVertices: nat, bytes: nat, epoch: nat, io: seq<WriteOutcome>,
                     headerSynced: bool, cutSynced: bool, readers: nat -> Answer, ghost durable: nat)
      returns (g: Graph, error: Option<OpenError>)
    requires numVertices <= MAX_VERTICES && INTERIOR_SLOT <= bytes <= MAX_CAPACITY
    requires |image| >= HEADER_LEN ==> HEADER_LEN <= durable <= |image|
    ensures error == None ==>
      && g.Valid() && !g.guarded && !g.poisoned && g.wal != null && g.Current()
      && Recorded(g.wal.records, g.trees)
      && g.wal.records == if |image| < HEADER_LEN then [] else CleanRecords(crc, image[HEADER_LEN..])
    ensures error == None && |image| >= HEADER_LEN ==>
      g.wal.file == image[..HEADER_LEN + RECORD_LEN * |g.wal.records|] && g.wal.durable >= Min(durable, |g.wal.file|)
    ensures error == Some(ReplayArenaFull) ==> |image| >= HEADER_LEN && NoRoom(g, CleanRecords(crc, image[HEADER_LEN..]))
    ensures error == Some(ReplayPanicked) ==> |image| >= HEADER_LEN && g.Whole() && Toppled(g, CleanRecords(crc, image[HEADER_LEN..]))
    ensures error.Some? && error.value.LogError? && cutSynced ==>
      if |image| < HEADER_LEN then !(headerSynced && Accepting(io) && |io| >= HEADER_LEN) else !GoodHeader(image[..HEADER_LEN])
    ensures error.Some? && error.value.RecordOutOfRange? ==>
      && |image| >= HEADER_LEN && error.value.record in CleanRecords(crc, image[HEADER_LEN..])
      && (error.value.record.src >= numVertices || error.value.record.dst >= numVertices)
  {
    hide CleanRecords, Encode, Recorded, GoodHeader, Accepting, Arena.Exhausted, WalWriter.Valid, Graph.Valid, Graph.Whole, Toppled, Graph.Current, Header;
    g := new Graph(numVertices, bytes, epoch, readers);
    var file, failed := CreateOrOpen(image, io, headerSynced);
    if failed.Some? {
      return g, Some(LogError(failed.value));
    }
    FreshLog(crc);
    var recs, truncateTo := ReplayRecords(crc, file);
    error := Apply(g, recs);
    if error.Some? {
      return;
    }
    var w, disk := Resume(crc, file, recs, truncateTo, cutSynced, if |image| < HEADER_LEN then HEADER_LEN else durable);
    if w.None? {
      return g, Some(LogError(Io));
    }
    if g.guarded {
      CommitReplay(g);
    }
    Attach(g, w.value);
  }

  lemma FreshLog(crc: Crc)
    ensures GoodHeader(Header()[..HEADER_LEN]) && CleanRecords(crc, Header()[HEADER_LEN..]) == []
  {
    var h := Header();
    assert h[..HEADER_LEN] == h;
    assert h[..8] == Magic() && h[8..12] == ToLE(VERSION);
    LERoundTrip(VERSION);
  }

  /** Nothing can go wrong when a guard without a log commits. */
  method CommitReplay(g: Graph)
    requires g.Valid() && g.guarded && g.wal == null && !g.walFailed
    modifies g, g.arena, g.log
    ensures g.Valid() && !g.guarded && !g.poisoned && g.wal == null && g.trees == old(g.trees) && g.Current()
  {
    hide Graph.Valid, Graph.Current;
    g.Commit([], true, 0);
  }

  method Attach(g: Graph, w: WalWriter)
    requires g.Valid() && g.wal == null && !g.guarded && g.Current() && w.Valid() && Recorded(w.records, g.trees)
    modifies g`wal
    ensures g.Valid() && g.wal == w && g.Current()
  {
    hide Arena.Valid, WalWriter.Valid, Recorded, State, Meaning, TableMatches, RetireLog.Contents, Shape, Get, EdgeTotal;
    g.wal := w;
  }

  /**
   * Crash recovery of the edge set. Any part of the log's file that a crash leaves, if it keeps the
   * durable length, recovers edges the graph had, and every edge that was durable.
   */
  lemma CrashKeepsEdges(w: WalWriter, trees: seq<Option<Tree>>, image: seq<Byte>, kept: nat, found: seq<EdgeRecord>,
                        trees': seq<Option<Tree>>)
    requires w.Valid() && Recorded(w.records, trees)
    requires kept <= |w.records| && HEADER_LEN + RECORD_LEN * kept <= |image|
    requires image <= w.file
    requires found == CleanRecords(w.crc, image[HEADER_LEN..]) && Recorded(found, trees')
    ensures found <= w.records && (|image| == HEADER_LEN + RECORD_LEN * |w.records| ==> found == w.records)
    ensures forall s: U32, d: U32 :: HasEdge(trees', s, d) ==> HasEdge(trees, s, d)
    ensures forall i :: 0 <= i < kept ==> HasEdge(trees', w.records[i].src, w.records[i].dst)
  {
    hide Encode, CleanRecords, HasEdge, Recorded;
    FileBelow(w.file, w.buf, w.header, Encode(w.crc, w.records), image);
    var again := CrashRecovery(w.crc, w.header, w.records, kept, image);
    SameEdges(w.records, trees, found, trees', kept);
  }

  /** A guard that appended and then committed cleanly loses none of the graph's edges to a later crash. */
  lemma CommittedSurvives(g: Graph, image: seq<Byte>, found: seq<EdgeRecord>, trees': seq<Option<Tree>>)
    requires g.wal != null && g.wal.Valid() && Recorded(g.wal.records, g.trees) && g.wal.Settled()
    requires g.wal.base < |g.wal.file| && g.wal.durable <= |image| && image <= g.wal.file
    requires found == CleanRecords(g.wal.crc, image[HEADER_LEN..]) && Recorded(found, trees')
    ensures forall s: U32, d: U32 :: HasEdge(trees', s, d) <==> HasEdge(g.trees, s, d)
  {
    hide CleanRecords, HasEdge;
    var w := g.wal;
    assert w.file + w.buf == w.file;
    CrashKeepsEdges(w, g.trees, image, |w.records|, found, trees');
    forall s: U32, d: U32 ensures HasEdge(trees', s, d) <==> HasEdge(g.trees, s, d) {
      assert EdgeRecord(s, d) in found <==> EdgeRecord(s, d) in w.records;
    }
  }

  lemma FileBelow(file: seq<Byte>, buf: seq<Byte>, header: seq<Byte>, body: seq<Byte>, image: seq<Byte>)
    requires file + buf == header + body && image <= file
    ensures image <= header + body
  {
  }

  lemma SameEdges(records: seq<EdgeRecord>, trees: seq<Option<Tree>>, found: seq<EdgeRecord>, trees': seq<Option<Tree>>, kept: nat)
    requires Recorded(records, trees) && Recorded(found, trees') && kept <= |records|
    requires records[..kept] <= found <= records
    ensures forall s: U32, d: U32 :: HasEdge(trees', s, d) ==> HasEdge(trees, s, d)
    ensures forall i :: 0 <= i < kept ==> HasEdge(trees', records[i].src, records[i].dst)
  {
    hide HasEdge;
    forall s: U32, d: U32 | HasEdge(trees', s, d)
      ensures HasEdge(trees, s, d)
    {
      var r := EdgeRecord(s, d);
      assert r in found;
      assert r in records;
    }
    forall i | 0 <= i < kept ensures HasEdge(trees', records[i].src, records[i].dst) {
      assert records[i] == found[i];
      assert records[i] in found;
    }
  }
}
