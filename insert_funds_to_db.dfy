/** The batched, change-aware upsert of parsed funds into the `MutualFund`
    collection: the funds are cut into batches, each batch is compared with
    the stored NAV and NAV date of its ISINs, and one bulk write per batch
    upserts the funds that are new or changed. Batches run one after the
    other here; `now` is the single timestamp taken at the start of a call. */
module InsertFundsToDB {
  import opened Wrappers
  import opened Js
  import opened MutualFundModel

  /** The default `batchSize` of `upsertMutualFundsInBatches`. */
  const DefaultBatchSize: nat := 1000

  // ---------------------------------------------------------------------------
  // chunkArray

  function Flatten<T>(chunks: seq<seq<T>>): seq<T>
    decreases |chunks|
  {
    if chunks == [] then [] else chunks[0] + Flatten(chunks[1..])
  }

  lemma {:induction false} FlattenSnoc<T>(chunks: seq<seq<T>>, c: seq<T>)
    ensures Flatten(chunks + [c]) == Flatten(chunks) + c
    decreases |chunks|
  {
    if chunks == [] {
      assert [c][1..] == [];
      assert Flatten([c]) == c + Flatten([c][1..]);
    } else {
      assert (chunks + [c])[1..] == chunks[1..] + [c];
      FlattenSnoc(chunks[1..], c);
    }
  }

  /** `chunkArray(a, size)`: the first `size` elements, then the chunks of
      the rest; the whole input when it is no longer than `size`. */
  function Chunked<T>(a: seq<T>, size: nat): (chunks: seq<seq<T>>)
    requires size >= 1
    decreases |a|
  {
    if a == [] then []
    else if |a| <= size then [a]
    else [a[..size]] + Chunked(a[size..], size)
  }

  /** The chunks are consecutive pieces of the input that concatenate back
      to it; every piece is non-empty and at most `size` long, and every
      piece but the last is exactly `size` long. */
  lemma {:induction false} ChunkedSpec<T>(a: seq<T>, size: nat)
    requires size >= 1
    ensures Flatten(Chunked(a, size)) == a
    ensures forall i | 0 <= i < |Chunked(a, size)| :: 1 <= |Chunked(a, size)[i]| <= size
    ensures forall i | 0 <= i < |Chunked(a, size)| - 1 :: |Chunked(a, size)[i]| == size
    decreases |a|
  {
    if a == [] {
    } else if |a| <= size {
      assert [a][1..] == [];
    } else {
      var rest := Chunked(a[size..], size);
      ChunkedSpec(a[size..], size);
      assert ([a[..size]] + rest)[1..] == rest;
      assert a == a[..size] + a[size..];
    }
  }

  /** What the loop of `chunkArray` has still to cut once `i` has advanced. */
  function Remaining<T>(a: seq<T>, i: nat): seq<T> {
    a[(if i < |a| then i else |a|)..]
  }

  /** One step of the loop: the piece `slice(i, i + size)` is the first chunk
      of what remains at `i`, and what remains after it is what remains at
      `i + size`. */
  lemma ChunkedStep<T>(a: seq<T>, i: nat, size: nat)
    requires size >= 1 && i < |a|
    ensures Chunked(Remaining(a, i), size) == [Slice(a, i, i + size)] + Chunked(Remaining(a, i + size), size)
  {
    var rest := a[i..];
    if |rest| <= size {
      assert Slice(a, i, i + size) == rest;
      assert Remaining(a, i + size) == [];
    } else {
      assert Slice(a, i, i + size) == rest[..size];
      assert rest[size..] == a[i + size..];
    }
  }

  /** The loop's invariant: the chunks pushed so far, followed by the chunks
      of what remains, are the chunks of the whole input. */
  ghost predicate Covers<T>(a: seq<T>, i: nat, size: nat, done: seq<seq<T>>)
    requires size >= 1
  {
    done + Chunked(Remaining(a, i), size) == Chunked(a, size)
  }

  lemma ChunkLoopStep<T>(a: seq<T>, i: nat, size: nat, done: seq<seq<T>>)
    requires size >= 1 && i < |a|
    requires Covers(a, i, size, done)
    ensures Covers(a, i + size, size, done + [Slice(a, i, i + size)])
  {
    ChunkedStep(a, i, size);
    var piece, later := Slice(a, i, i + size), Chunked(Remaining(a, i + size), size);
    assert done + ([piece] + later) == (done + [piece]) + later;
  }

  lemma ChunkLoopDone<T>(a: seq<T>, i: nat, size: nat, done: seq<seq<T>>)
    requires size >= 1 && i >= |a|
    requires Covers(a, i, size, done)
    ensures done == Chunked(a, size)
  {
    assert Remaining(a, i) == [];
    assert done + [] == done;
  }

  /** The loop of `chunkArray`: `i` steps by `size`, pushing `slice(i, i + size)`. */
  method ChunkArray<T>(a: seq<T>, size: nat) returns (chunks: seq<seq<T>>)
    requires size >= 1
    ensures chunks == Chunked(a, size)
  {
    chunks := [];
    var i: nat := 0;
    assert Covers(a, 0, size, []) by {
      assert Remaining(a, 0) == a;
    }
    while i < |a|
      invariant Covers(a, i, size, chunks)
    {
      var piece := Slice(a, i, i + size);
      ChunkLoopStep(a, i, size, chunks);
      chunks, i := chunks + [piece], i + size;
    }
    ChunkLoopDone(a, i, size, chunks);
  }

  // ---------------------------------------------------------------------------
  // The per-batch diff

  /** The change test on an existing document, comparing NAV and NAV date by
      value. The category is not compared. */
  predicate Changed(existing: NavSnapshot, f: FundEntry) {
    existing.nav != f.nav || existing.navDate != f.navDate
  }

  /** A fund needs a write when its ISIN has no stored document, or when the
      stored NAV or NAV date differs. */
  predicate NeedsWrite(existing: map<string, NavSnapshot>, f: FundEntry) {
    f.isin !in existing || Changed(existing[f.isin], f)
  }

  /** The operation pushed for a fund: filtered on its ISIN, `$set` to all its
      fields, `createdAt: now` on insert, `upsert: true`. */
  function UpsertFor(f: FundEntry, now: int): UpsertOp {
    UpdateOne(f.isin, f, now, true)
  }

  /** The `ops` of one batch. Every operation is the upsert of a fund of the
      batch that needs a write, stamped with `now`. */
  function OpsFor(chunk: seq<FundEntry>, existing: map<string, NavSnapshot>, now: int): (ops: seq<UpsertOp>)
    ensures |ops| <= |chunk|
    ensures forall op | op in ops ::
              op.setFields in chunk && NeedsWrite(existing, op.setFields) && op == UpsertFor(op.setFields, now)
    decreases |chunk|
  {
    if chunk == [] then []
    else
      var pre, f := chunk[..|chunk| - 1], chunk[|chunk| - 1];
      assert forall g | g in pre :: g in chunk;
      OpsFor(pre, existing, now) + (if NeedsWrite(existing, f) then [UpsertFor(f, now)] else [])
  }

  /** The `for (const fund of chunk)` loop that pushes the operations. */
  method BuildOps(chunk: seq<FundEntry>, existing: map<string, NavSnapshot>, now: int) returns (ops: seq<UpsertOp>)
    ensures ops == OpsFor(chunk, existing, now)
  {
    ops := [];
    for i := 0 to |chunk|
      invariant ops == OpsFor(chunk[..i], existing, now)
    {
      assert chunk[..i + 1][..i] == chunk[..i];
      var fund := chunk[i];
      if fund.isin !in existing {
        ops := ops + [UpsertFor(fund, now)];
      } else {
        var stored := existing[fund.isin];
        if stored.nav != fund.nav || stored.navDate != fund.navDate {
          ops := ops + [UpsertFor(fund, now)];
        }
      }
    }
    assert chunk[..|chunk|] == chunk;
  }

  /** A fund has an operation exactly when it is in the batch and needs a write. */
  lemma {:induction false} OpsForMembership(chunk: seq<FundEntry>, existing: map<string, NavSnapshot>, now: int, f: FundEntry)
    ensures UpsertFor(f, now) in OpsFor(chunk, existing, now) <==> f in chunk && NeedsWrite(existing, f)
    decreases |chunk|
  {
    if chunk != [] {
      var pre, last := chunk[..|chunk| - 1], chunk[|chunk| - 1];
      OpsForMembership(pre, existing, now, f);
      assert chunk == pre + [last];
    }
  }

  /** In a batch of distinct ISINs, no two operations filter on the same ISIN:
      each fund needing a write has exactly one operation. */
  lemma {:induction false} OpsForDistinct(chunk: seq<FundEntry>, existing: map<string, NavSnapshot>, now: int)
    requires DistinctIsins(chunk)
    ensures DistinctFilters(OpsFor(chunk, existing, now))
    decreases |chunk|
  {
    if chunk != [] {
      var pre, f := chunk[..|chunk| - 1], chunk[|chunk| - 1];
      var prior := OpsFor(pre, existing, now);
      OpsForDistinct(pre, existing, now);
      forall op | op in prior ensures op.filterIsin != f.isin {
        var k :| 0 <= k < |pre| && pre[k] == op.setFields;
        assert chunk[k] == pre[k];
      }
      var ops := OpsFor(chunk, existing, now);
      assert ops == prior + (if NeedsWrite(existing, f) then [UpsertFor(f, now)] else []);
      forall i, j | 0 <= i < j < |ops| ensures ops[i].filterIsin != ops[j].filterIsin {
        if j >= |prior| {
          assert ops[i] in prior;
        } else {
          assert ops[i] == prior[i] && ops[j] == prior[j];
        }
      }
    }
  }

  /** No operations at all exactly when no fund of the batch needs a write. */
  lemma NoOpsIff(chunk: seq<FundEntry>, existing: map<string, NavSnapshot>, now: int)
    ensures OpsFor(chunk, existing, now) == [] <==> forall f | f in chunk :: !NeedsWrite(existing, f)
  {
    var ops := OpsFor(chunk, existing, now);
    if ops != [] {
      assert ops[0] in ops;
    } else {
      forall f | f in chunk ensures !NeedsWrite(existing, f) {
        OpsForMembership(chunk, existing, now, f);
      }
    }
  }

  // ---------------------------------------------------------------------------
  // Applying a batch to the collection

  /** `f` is stored under its ISIN with its own NAV and NAV date. */
  predicate Holds(docs: FundDocs, f: FundEntry) {
    f.isin in docs && SnapshotOf(docs[f.isin]) == NavSnapshot(f.nav, f.navDate)
  }

  /** The existing map of a batch is the stored NAV and date of its ISINs. */
  function ExistingFor(docs: FundDocs, chunk: seq<FundEntry>): map<string, NavSnapshot> {
    Snapshot(docs, Isins(chunk))
  }

  /** Against the batch's existing map, a fund of the batch needs a write
      exactly when the collection does not already hold its NAV and date. */
  lemma NeedsWriteIff(docs: FundDocs, chunk: seq<FundEntry>, f: FundEntry)
    requires f in chunk
    ensures NeedsWrite(ExistingFor(docs, chunk), f) <==> !Holds(docs, f)
  {
    var k :| 0 <= k < |chunk| && chunk[k] == f;
    assert f.isin in Isins(chunk);
  }

  /** The operations one batch issues against the collection as it stands. */
  function ChunkOps(docs: FundDocs, chunk: seq<FundEntry>, now: int): seq<UpsertOp> {
    OpsFor(chunk, ExistingFor(docs, chunk), now)
  }

  /** The collection after one batch: a bulk write when there are operations,
      no write otherwise. */
  function AfterChunk(docs: FundDocs, chunk: seq<FundEntry>, now: int): FundDocs {
    var ops := ChunkOps(docs, chunk, now);
    if |ops| > 0 then ApplyOps(docs, ops) else docs
  }

  /** After one batch of distinct ISINs, every fund of the batch is stored with
      its NAV and date; a fund that needed a write is stored exactly as the
      schema keeps its fields; documents of other ISINs are untouched. */
  lemma ChunkEffect(docs: FundDocs, chunk: seq<FundEntry>, now: int)
    requires DistinctIsins(chunk)
    ensures forall f | f in chunk :: Holds(AfterChunk(docs, chunk, now), f)
    ensures forall f | f in chunk && !Holds(docs, f) ::
              f.isin in AfterChunk(docs, chunk, now) && AfterChunk(docs, chunk, now)[f.isin]
              == Stored(f)
    ensures forall k | k !in Isins(chunk) ::
              (k in AfterChunk(docs, chunk, now) <==> k in docs)
              && (k in docs ==> AfterChunk(docs, chunk, now)[k] == docs[k])
  {
    var existing := ExistingFor(docs, chunk);
    var ops := ChunkOps(docs, chunk, now);
    var r := AfterChunk(docs, chunk, now);
    OpsForDistinct(chunk, existing, now);
    assert r == ApplyOps(docs, ops);
    forall k | k in OpIsins(ops) ensures k in Isins(chunk) {
      var i :| 0 <= i < |ops| && ops[i].filterIsin == k;
      assert ops[i] in ops;
      var j :| 0 <= j < |chunk| && chunk[j] == ops[i].setFields;
    }
    forall f | f in chunk ensures Holds(r, f) {
      NeedsWriteIff(docs, chunk, f);
      OpsForMembership(chunk, existing, now, f);
      if !Holds(docs, f) {
        var i :| 0 <= i < |ops| && ops[i] == UpsertFor(f, now);
        ApplyDistinctOpsAt(docs, ops, i);
      } else {
        forall i | 0 <= i < |ops| ensures ops[i].filterIsin != f.isin {
          assert ops[i] in ops;
          var g := ops[i].setFields;
          var a :| 0 <= a < |chunk| && chunk[a] == g;
          var b :| 0 <= b < |chunk| && chunk[b] == f;
          NeedsWriteIff(docs, chunk, g);
          assert a != b;
        }
        assert f.isin !in OpIsins(ops);
      }
    }
    forall f | f in chunk && !Holds(docs, f)
      ensures r[f.isin] == Stored(f)
    {
      NeedsWriteIff(docs, chunk, f);
      OpsForMembership(chunk, existing, now, f);
      var i :| 0 <= i < |ops| && ops[i] == UpsertFor(f, now);
      ApplyDistinctOpsAt(docs, ops, i);
    }
  }

  /** Re-running the diff of a batch whose funds the collection already holds
      yields no operations, so no write is issued. */
  lemma ChunkRerun(docs: FundDocs, chunk: seq<FundEntry>, now: int)
    requires forall f | f in chunk :: Holds(docs, f)
    ensures ChunkOps(docs, chunk, now) == []
    ensures AfterChunk(docs, chunk, now) == docs
  {
    var ops := ChunkOps(docs, chunk, now);
    if ops != [] {
      assert ops[0] in ops;
      NeedsWriteIff(docs, chunk, ops[0].setFields);
    }
  }

  // ---------------------------------------------------------------------------
  // All batches

  /** The collection after the batches, in order. */
  function AfterChunks(docs: FundDocs, chunks: seq<seq<FundEntry>>, now: int): FundDocs
    decreases |chunks|
  {
    if chunks == [] then docs
    else AfterChunk(AfterChunks(docs, chunks[..|chunks| - 1], now), chunks[|chunks| - 1], now)
  }

  /** The number of `bulkWrite` calls the batches issue: one per batch with
      at least one operation. */
  function BatchesWritten(docs: FundDocs, chunks: seq<seq<FundEntry>>, now: int): nat
    decreases |chunks|
  {
    if chunks == [] then 0
    else
      var pre := chunks[..|chunks| - 1];
      BatchesWritten(docs, pre, now)
      + (if ChunkOps(AfterChunks(docs, pre, now), chunks[|chunks| - 1], now) != [] then 1 else 0)
  }

  lemma DistinctIsinsAppend(a: seq<FundEntry>, b: seq<FundEntry>)
    requires DistinctIsins(a + b)
    ensures DistinctIsins(a) && DistinctIsins(b)
    ensures forall f, g | f in a && g in b :: f.isin != g.isin
  {
    var ab := a + b;
    assert forall i | 0 <= i < |a| :: ab[i] == a[i];
    assert forall i | 0 <= i < |b| :: ab[|a| + i] == b[i];
    forall f, g | f in a && g in b ensures f.isin != g.isin {
      var i :| 0 <= i < |a| && a[i] == f;
      var j :| 0 <= j < |b| && b[j] == g;
      assert ab[i] == f && ab[|a| + j] == g;
    }
  }

  /** After all batches of distinct ISINs, the collection holds the NAV and
      date of every fund, and documents of other ISINs are untouched. */
  lemma {:induction false} AllChunksEffect(docs: FundDocs, chunks: seq<seq<FundEntry>>, now: int)
    requires DistinctIsins(Flatten(chunks))
    ensures forall f | f in Flatten(chunks) :: Holds(AfterChunks(docs, chunks, now), f)
    ensures forall k | k !in Isins(Flatten(chunks)) ::
              (k in AfterChunks(docs, chunks, now) <==> k in docs)
              && (k in docs ==> AfterChunks(docs, chunks, now)[k] == docs[k])
    decreases |chunks|
  {
    if chunks != [] {
      var pre, last := chunks[..|chunks| - 1], chunks[|chunks| - 1];
      assert chunks == pre + [last];
      FlattenSnoc(pre, last);
      DistinctIsinsAppend(Flatten(pre), last);
      IsinsAppend(Flatten(pre), last);
      AllChunksEffect(docs, pre, now);
      var mid := AfterChunks(docs, pre, now);
      ChunkEffect(mid, last, now);
      assert forall f: FundEntry | f in Flatten(pre) :: f.isin !in Isins(last);
    }
  }

  /** When the collection already holds every fund, another pass over the
      batches changes nothing and issues no write. */
  lemma {:induction false} RerunWritesNothing(docs: FundDocs, chunks: seq<seq<FundEntry>>, now: int)
    requires forall f | f in Flatten(chunks) :: Holds(docs, f)
    ensures AfterChunks(docs, chunks, now) == docs
    ensures BatchesWritten(docs, chunks, now) == 0
    decreases |chunks|
  {
    if chunks != [] {
      var pre, last := chunks[..|chunks| - 1], chunks[|chunks| - 1];
      assert chunks == pre + [last];
      FlattenSnoc(pre, last);
      RerunWritesNothing(docs, pre, now);
      ChunkRerun(docs, last, now);
    }
  }

  /** Idempotence of the whole upsert: on funds with distinct ISINs, a second
      call (at any later time) neither changes the collection nor writes. */
  lemma SecondRunIsNoOp(docs: FundDocs, data: seq<FundEntry>, size: nat, now: int, later: int)
    requires size >= 1 && DistinctIsins(data)
    ensures var once := AfterChunks(docs, Chunked(data, size), now);
            AfterChunks(once, Chunked(data, size), later) == once
            && BatchesWritten(once, Chunked(data, size), later) == 0
  {
    var chunks := Chunked(data, size);
    ChunkedSpec(data, size);
    AllChunksEffect(docs, chunks, now);
    RerunWritesNothing(AfterChunks(docs, chunks, now), chunks, later);
  }

  /** Without distinct ISINs there is no idempotence. Two funds of one batch
      share an ISIN with different NAVs; the bulk write is unordered, and
      the two orders leave different documents. Either way the second run
      finds the other fund changed and issues a `bulkWrite` again. */
  lemma DuplicateIsinRewrittenOnRerun()
    ensures var a := FundEntry("INF000000001", "Fund", "10.5", "01-Jan-2024", NullCategory);
            var b := FundEntry("INF000000001", "Fund", "11.0", "01-Jan-2024", NullCategory);
            var ops := ChunkOps(map[], [a, b], 0);
            var once := AfterChunks(map[], Chunked([a, b], DefaultBatchSize), 0);
            ops == [UpsertFor(a, 0), UpsertFor(b, 0)]
            && ApplyOps(map[], ops) != ApplyOps(map[], [ops[1], ops[0]])
            && BatchesWritten(once, Chunked([a, b], DefaultBatchSize), 1) == 1
            && ChunkOps(ApplyOps(map[], [ops[1], ops[0]]), [a, b], 1) != []
  {
    var a := FundEntry("INF000000001", "Fund", "10.5", "01-Jan-2024", NullCategory);
    var b := FundEntry("INF000000001", "Fund", "11.0", "01-Jan-2024", NullCategory);
    var empty: FundDocs := map[];
    var ops := ChunkOps(empty, [a, b], 0);
    assert [a, b][..1] == [a];
    assert [a][..0] == [];
    var none: map<string, NavSnapshot> := map[];
    assert ExistingFor(empty, [a, b]) == none;
    assert OpsFor([a], none, 0) == [UpsertFor(a, 0)];
    assert ops == [UpsertFor(a, 0), UpsertFor(b, 0)];
    assert ops[..1] == [ops[0]];
    assert [ops[1], ops[0]][..1] == [ops[1]];
    var inOrder, reversed := ApplyOps(empty, ops), ApplyOps(empty, [ops[1], ops[0]]);
    assert inOrder == map[a.isin := Stored(b)];
    assert reversed == map[a.isin := Stored(a)];
    assert Chunked([a, b], DefaultBatchSize) == [[a, b]];
    assert [[a, b]][..0] == [];
    assert AfterChunks(empty, [], 0) == empty;
    var once := AfterChunks(empty, [[a, b]], 0);
    assert once == AfterChunk(empty, [a, b], 0);
    assert once == inOrder;
    assert Isins([a, b]) == {a.isin};
    var ex := ExistingFor(once, [a, b]);
    assert ex == map[a.isin := NavSnapshot(b.nav, b.navDate)];
    assert OpsFor([a], ex, 1) == [UpsertFor(a, 1)];
    assert ChunkOps(once, [a, b], 1) == [UpsertFor(a, 1)];
    var ex' := ExistingFor(reversed, [a, b]);
    assert ex' == map[a.isin := NavSnapshot(a.nav, a.navDate)];
    assert OpsFor([a], ex', 1) == [];
    assert ChunkOps(reversed, [a, b], 1) == [UpsertFor(b, 1)];
  }

  lemma AfterChunksStep(docs: FundDocs, chunks: seq<seq<FundEntry>>, j: nat, now: int)
    requires j < |chunks|
    ensures AfterChunks(docs, chunks[..j + 1], now) == AfterChunk(AfterChunks(docs, chunks[..j], now), chunks[j], now)
    ensures BatchesWritten(docs, chunks[..j + 1], now)
            == BatchesWritten(docs, chunks[..j], now)
               + (if ChunkOps(AfterChunks(docs, chunks[..j], now), chunks[j], now) != [] then 1 else 0)
  {
    assert chunks[..j + 1][..j] == chunks[..j];
  }

  // ---------------------------------------------------------------------------
  // upsertMutualFundsInBatches and insertFundsToDB

  /** One pass over the batches. The code returns nothing; the ghost result
      counts the `bulkWrite` calls issued (a batch without operations only
      logs "no changes"). */
  method UpsertMutualFundsInBatches(store: FundStore, data: seq<FundEntry>, batchSize: nat, now: int)
    returns (ghost batchesWritten: nat)
    requires batchSize >= 1
    modifies store
    ensures store.docs == AfterChunks(old(store.docs), Chunked(data, batchSize), now)
    ensures batchesWritten == BatchesWritten(old(store.docs), Chunked(data, batchSize), now)
  {
    var chunks := ChunkArray(data, batchSize);
    batchesWritten := 0;
    for j := 0 to |chunks|
      invariant store.docs == AfterChunks(old(store.docs), chunks[..j], now)
      invariant batchesWritten == BatchesWritten(old(store.docs), chunks[..j], now)
    {
      AfterChunksStep(old(store.docs), chunks, j, now);
      var chunk := chunks[j];
      var existingMap := ExistingFor(store.docs, chunk);
      var ops := BuildOps(chunk, existingMap, now);
      if |ops| > 0 {
        store.BulkWrite(ops);
        batchesWritten := batchesWritten + 1;
      }
    }
    assert chunks[..|chunks|] == chunks;
  }

  /** `insertFundsToDB`: nothing at all for an empty list, otherwise one pass
      with the default batch size. */
  method InsertFundsToDB(store: FundStore, funds: seq<FundEntry>, now: int) returns (ghost batchesWritten: nat)
    modifies store
    ensures funds == [] ==> store.docs == old(store.docs) && batchesWritten == 0
    ensures store.docs == AfterChunks(old(store.docs), Chunked(funds, DefaultBatchSize), now)
    ensures batchesWritten == BatchesWritten(old(store.docs), Chunked(funds, DefaultBatchSize), now)
  {
    if |funds| == 0 {
      return 0;
    }
    batchesWritten := UpsertMutualFundsInBatches(store, funds, DefaultBatchSize, now);
  }

  // ---------------------------------------------------------------------------
  // The change test as written

  /** `existing.navDate !== fund.navDate` as written: both sides are `Date`
      objects (the stored one from the driver, the incoming one from
      `new Date(date)`), and `!==` between two distinct objects compares
      identities, so it holds whatever dates they carry. */
  predicate NavDateObjectsDiffer(existing: NavSnapshot, f: FundEntry) {
    true
  }

  predicate NeedsWriteAsWritten(existing: map<string, NavSnapshot>, f: FundEntry) {
    f.isin !in existing || existing[f.isin].nav != f.nav || NavDateObjectsDiffer(existing[f.isin], f)
  }

  /** The batch's operations with the change test as written: one per fund,
      whatever is stored. */
  function OpsForAsWritten(chunk: seq<FundEntry>, existing: map<string, NavSnapshot>, now: int): (ops: seq<UpsertOp>)
    ensures |ops| == |chunk|
    ensures forall i | 0 <= i < |chunk| :: ops[i] == UpsertFor(chunk[i], now)
    decreases |chunk|
  {
    if chunk == [] then []
    else
      var pre, f := chunk[..|chunk| - 1], chunk[|chunk| - 1];
      OpsForAsWritten(pre, existing, now) + (if NeedsWriteAsWritten(existing, f) then [UpsertFor(f, now)] else [])
  }

  /** A fund already stored with the same NAV and date: the intended test
      issues nothing for it, the test as written re-issues its upsert. */
  lemma UnchangedFundRewrittenAsWritten()
    ensures var f := FundEntry("INF000000001", "Fund", "10.5", "01-Jan-2024", NullCategory);
            var docs := map[f.isin := Stored(f)];
            ChunkOps(docs, [f], 1) == []
            && OpsForAsWritten([f], ExistingFor(docs, [f]), 1) == [UpsertFor(f, 1)]
  {
    var f := FundEntry("INF000000001", "Fund", "10.5", "01-Jan-2024", NullCategory);
    var docs := map[f.isin := Stored(f)];
    ChunkRerun(docs, [f], 1);
  }
}
