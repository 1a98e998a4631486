/** The fund records that flow from the feed parsers into the `MutualFund`
    collection, and the collection itself as a map from ISIN to document
    (the schema declares `isin` unique). */
module MutualFundModel {
  import opened Wrappers

  /** The `category` field of a parsed fund: `null` in util/fetchMFData.js,
      a list of names (always empty when parsed) in index.js. */
  datatype Category = NullCategory | CategoryList(names: seq<string>)

  /** One parsed fund. `nav` and `navDate` keep the feed's text: the
      conversions `parseFloat(nav)` and `new Date(date)` are not modelled, so
      two texts compare equal exactly when they are the same text. */
  datatype FundEntry = FundEntry(isin: string, name: string, nav: string, navDate: string, category: Category)

  /** The projection `{isin: 1, nav: 1, navDate: 1}` of a stored document. */
  datatype NavSnapshot = NavSnapshot(nav: string, navDate: string)

  /** A `MutualFund` document as the schema stores it. The schema declares
      `isin`, `name`, `nav`, `navDate` and `categories`, and casting is
      strict: a fund's `category` and an update's `createdAt` are not
      schema paths and are dropped from every write. `categories` is never
      written on these paths and is not modelled. */
  datatype StoredFund = StoredFund(isin: string, name: string, nav: string, navDate: string)

  /** What a write of a fund's fields leaves in the document. */
  function Stored(f: FundEntry): StoredFund {
    StoredFund(f.isin, f.name, f.nav, f.navDate)
  }

  type FundDocs = map<string, StoredFund>

  /** `{updateOne: {filter: {isin}, update: {$set: {...fund},
      $setOnInsert: {createdAt: now}}, upsert}}` */
  datatype UpsertOp = UpdateOne(filterIsin: string, setFields: FundEntry, setOnInsertCreatedAt: int, upsert: bool)

  function Isins(fs: seq<FundEntry>): set<string> {
    set i | 0 <= i < |fs| :: fs[i].isin
  }

  predicate DistinctIsins(fs: seq<FundEntry>) {
    forall i, j | 0 <= i < j < |fs| :: fs[i].isin != fs[j].isin
  }

  lemma IsinsSnoc(fs: seq<FundEntry>, f: FundEntry)
    ensures Isins(fs + [f]) == Isins(fs) + {f.isin}
  {
    var g := fs + [f];
    assert g[|fs|] == f;
    assert forall i | 0 <= i < |fs| :: g[i] == fs[i];
  }

  lemma IsinsAppend(a: seq<FundEntry>, b: seq<FundEntry>)
    ensures Isins(a + b) == Isins(a) + Isins(b)
  {
    var g := a + b;
    assert forall i | 0 <= i < |a| :: g[i] == a[i];
    assert forall i | 0 <= i < |b| :: g[|a| + i] == b[i];
    forall k | k in Isins(g) ensures k in Isins(a) + Isins(b) {
      var i :| 0 <= i < |g| && g[i].isin == k;
      if i >= |a| {
        assert b[i - |a|] == g[i];
      }
    }
  }

  /** The stored `nav` and `navDate` of a document. */
  function SnapshotOf(s: StoredFund): NavSnapshot {
    NavSnapshot(s.nav, s.navDate)
  }

  /** `MutualFund.find({isin: {$in: isins}}, {isin: 1, nav: 1, navDate: 1})`
      turned into a map keyed by ISIN, as `existingMap` is built. */
  function Snapshot(docs: FundDocs, isins: set<string>): (m: map<string, NavSnapshot>)
    ensures m.Keys == docs.Keys * isins
    ensures forall k | k in m :: m[k] == SnapshotOf(docs[k])
  {
    map k | k in docs.Keys * isins :: SnapshotOf(docs[k])
  }

  /** What one `updateOne` does to the collection: a matching document gets
      the `$set` fields; with no match, an upsert inserts them and anything
      else adds nothing; no other document changes. The `$setOnInsert` time
      is dropped by the schema, so an inserted document and an updated one
      end up alike. */
  function ApplyOp(docs: FundDocs, op: UpsertOp): (r: FundDocs)
    ensures r.Keys == docs.Keys + (if op.upsert then {op.filterIsin} else {})
    ensures forall k | k in docs && k != op.filterIsin :: r[k] == docs[k]
    ensures op.filterIsin in r ==> r[op.filterIsin] == Stored(op.setFields)
  {
    if op.filterIsin in docs || op.upsert then docs[op.filterIsin := Stored(op.setFields)]
    else docs
  }

  function OpIsins(ops: seq<UpsertOp>): set<string> {
    set i | 0 <= i < |ops| :: ops[i].filterIsin
  }

  /** A bulk write applies its operations one after the other. Documents no
      operation filters on are left as they were. */
  function ApplyOps(docs: FundDocs, ops: seq<UpsertOp>): (r: FundDocs)
    ensures forall k | k !in OpIsins(ops) :: (k in r <==> k in docs) && (k in docs ==> r[k] == docs[k])
    ensures docs.Keys <= r.Keys
    decreases |ops|
  {
    if ops == [] then docs
    else
      var prefix := ops[..|ops| - 1];
      assert forall i | 0 <= i < |prefix| :: prefix[i] == ops[i];
      ApplyOp(ApplyOps(docs, prefix), ops[|ops| - 1])
  }

  lemma {:induction false} ApplyOpsAppend(docs: FundDocs, a: seq<UpsertOp>, b: seq<UpsertOp>)
    ensures ApplyOps(docs, a + b) == ApplyOps(ApplyOps(docs, a), b)
    decreases |b|
  {
    if b == [] {
      assert a + b == a;
    } else {
      var b' := b[..|b| - 1];
      assert (a + b)[..|a + b| - 1] == a + b';
      ApplyOpsAppend(docs, a, b');
    }
  }

  /** The ISINs of the operations that insert when nothing matches. */
  function UpsertIsins(ops: seq<UpsertOp>): set<string> {
    set i | 0 <= i < |ops| && ops[i].upsert :: ops[i].filterIsin
  }

  /** After a bulk write the collection holds the old ISINs and those of the
      upserts, and no others. */
  lemma {:induction false} ApplyOpsKeys(docs: FundDocs, ops: seq<UpsertOp>)
    ensures ApplyOps(docs, ops).Keys == docs.Keys + UpsertIsins(ops)
    decreases |ops|
  {
    if ops != [] {
      var pre, last := ops[..|ops| - 1], ops[|ops| - 1];
      ApplyOpsKeys(docs, pre);
      assert ops == pre + [last];
      assert UpsertIsins(ops) == UpsertIsins(pre) + (if last.upsert then {last.filterIsin} else {});
    }
  }

  predicate DistinctFilters(ops: seq<UpsertOp>) {
    forall i, j | 0 <= i < j < |ops| :: ops[i].filterIsin != ops[j].filterIsin
  }

  /** Among operations with distinct filters, an operation that matches a
      document or upserts leaves its ISIN in the collection, and whenever
      its ISIN is there it holds exactly the fields the operation sets. */
  lemma {:induction false} ApplyDistinctOpsAt(docs: FundDocs, ops: seq<UpsertOp>, i: nat)
    requires DistinctFilters(ops) && i < |ops|
    ensures ops[i].upsert || ops[i].filterIsin in docs ==> ops[i].filterIsin in ApplyOps(docs, ops)
    ensures ops[i].filterIsin in ApplyOps(docs, ops) ==> ApplyOps(docs, ops)[ops[i].filterIsin] == Stored(ops[i].setFields)
    decreases |ops|
  {
    var pre, last := ops[..|ops| - 1], ops[|ops| - 1];
    assert forall k | 0 <= k < |pre| :: pre[k] == ops[k];
    assert ApplyOps(docs, ops) == ApplyOp(ApplyOps(docs, pre), last);
    if i < |ops| - 1 {
      ApplyDistinctOpsAt(docs, pre, i);
    }
  }

  /** With distinct filters the order of the operations does not matter:
      two bulk writes of the same operations, in any order, leave the same
      collection. This is what makes `ordered: false` safe for them. */
  lemma BulkWriteOrderFree(docs: FundDocs, ops: seq<UpsertOp>, ops': seq<UpsertOp>)
    requires DistinctFilters(ops) && DistinctFilters(ops')
    requires forall op :: op in ops <==> op in ops'
    ensures ApplyOps(docs, ops) == ApplyOps(docs, ops')
  {
    var r, r' := ApplyOps(docs, ops), ApplyOps(docs, ops');
    ApplyOpsKeys(docs, ops);
    ApplyOpsKeys(docs, ops');
    SameUpsertIsins(ops, ops');
    forall k | k in r ensures r[k] == r'[k] {
      if k in OpIsins(ops) {
        var i :| 0 <= i < |ops| && ops[i].filterIsin == k;
        assert ops[i] in ops;
        var j :| 0 <= j < |ops'| && ops'[j] == ops[i];
        ApplyDistinctOpsAt(docs, ops, i);
        ApplyDistinctOpsAt(docs, ops', j);
      } else {
        assert k !in OpIsins(ops') by {
          forall j | 0 <= j < |ops'| ensures ops'[j].filterIsin != k {
            assert ops'[j] in ops';
            var i :| 0 <= i < |ops| && ops[i] == ops'[j];
          }
        }
      }
    }
  }

  lemma SameUpsertIsins(ops: seq<UpsertOp>, ops': seq<UpsertOp>)
    requires forall op :: op in ops <==> op in ops'
    ensures UpsertIsins(ops) == UpsertIsins(ops')
  {
    forall k | k in UpsertIsins(ops) ensures k in UpsertIsins(ops') {
      var i :| 0 <= i < |ops| && ops[i].upsert && ops[i].filterIsin == k;
      assert ops[i] in ops;
      var j :| 0 <= j < |ops'| && ops'[j] == ops[i];
    }
    forall k | k in UpsertIsins(ops') ensures k in UpsertIsins(ops) {
      var j :| 0 <= j < |ops'| && ops'[j].upsert && ops'[j].filterIsin == k;
      assert ops'[j] in ops';
      var i :| 0 <= i < |ops| && ops[i] == ops'[j];
    }
  }

  /** The `MutualFund` collection. */
  class FundStore {
    var docs: FundDocs

    constructor ()
      ensures docs == map[]
    {
      docs := map[];
    }

    /** `MutualFund.bulkWrite(ops, {ordered: false})`, applied in list
        order; for operations with distinct filters any other order gives
        the same collection (`BulkWriteOrderFree`). */
    method BulkWrite(ops: seq<UpsertOp>)
      modifies this
      ensures docs == ApplyOps(old(docs), ops)
    {
      var i := 0;
      while i < |ops|
        invariant 0 <= i <= |ops|
        invariant docs == ApplyOps(old(docs), ops[..i])
      {
        assert ops[..i + 1][..i] == ops[..i];
        docs := ApplyOp(docs, ops[i]);
        i := i + 1;
      }
      assert ops[..|ops|] == ops;
    }

    /** `MutualFund.create(fund)`: a new document under the fund's ISIN. */
    method Create(fund: FundEntry)
      requires fund.isin !in docs
      modifies this
      ensures docs == old(docs)[fund.isin := Stored(fund)]
    {
      docs := docs[fund.isin := Stored(fund)];
    }

    /** `MutualFund.updateOne({isin: fund.isin}, fund)`: the fund's fields
        overwrite the matching document's. */
    method UpdateOne(fund: FundEntry)
      requires fund.isin in docs
      modifies this
      ensures docs == old(docs)[fund.isin := Stored(fund)]
    {
      docs := docs[fund.isin := Stored(fund)];
    }
  }
}
