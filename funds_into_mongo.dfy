/** `insertFundsToMongo`: the older, one-fund-at-a-time path into the
    `MutualFund` collection. Each fund is looked up by ISIN, then updated in
    place when found and created otherwise, with a counter for each case. */
module FundsIntoMongo {
  import opened Wrappers
  import opened MutualFundModel

  /** The collection after one fund: whether `updateOne` found the
      document or `create` made it, the fund's ISIN now holds the fund's
      fields; every other document is untouched. */
  function CreateOrUpdate(docs: FundDocs, f: FundEntry): (r: FundDocs)
    ensures r.Keys == docs.Keys + {f.isin}
    ensures r[f.isin] == Stored(f)
    ensures forall k | k in docs && k != f.isin :: r[k] == docs[k]
  {
    docs[f.isin := Stored(f)]
  }

  /** The collection after the funds, in order. */
  function AfterAll(docs: FundDocs, funds: seq<FundEntry>): FundDocs
    decreases |funds|
  {
    if funds == [] then docs
    else CreateOrUpdate(AfterAll(docs, funds[..|funds| - 1]), funds[|funds| - 1])
  }

  /** How many of the funds find no document with their ISIN when their turn
      comes, and so are created. */
  function CreatedCount(docs: FundDocs, funds: seq<FundEntry>): nat
    decreases |funds|
  {
    if funds == [] then 0
    else
      var pre := funds[..|funds| - 1];
      CreatedCount(docs, pre) + (if funds[|funds| - 1].isin in AfterAll(docs, pre) then 0 else 1)
  }

  /** After the loop, documents whose ISIN no fund has are untouched, and
      the document of a fund's ISIN holds the fields of one of the funds
      with that ISIN: nothing of its earlier content survives. */
  lemma {:induction false} AfterAllFrame(docs: FundDocs, funds: seq<FundEntry>)
    ensures forall k | k in docs && k !in Isins(funds) :: k in AfterAll(docs, funds) && AfterAll(docs, funds)[k] == docs[k]
    ensures forall k | k in Isins(funds) ::
              k in AfterAll(docs, funds)
              && exists i | 0 <= i < |funds| :: funds[i].isin == k && AfterAll(docs, funds)[k] == Stored(funds[i])
    decreases |funds|
  {
    if funds != [] {
      var pre, f := funds[..|funds| - 1], funds[|funds| - 1];
      assert funds == pre + [f];
      IsinsSnoc(pre, f);
      AfterAllKeys(docs, pre);
      AfterAllFrame(docs, pre);
      var r := AfterAll(docs, funds);
      forall k | k in Isins(funds)
        ensures k in r && exists i | 0 <= i < |funds| :: funds[i].isin == k && r[k] == Stored(funds[i])
      {
        if k == f.isin {
          assert funds[|funds| - 1] == f;
        } else {
          var i :| 0 <= i < |pre| && pre[i].isin == k && AfterAll(docs, pre)[k] == Stored(pre[i]);
          assert funds[i] == pre[i];
        }
      }
    }
  }

  /** The last fund with a given ISIN is what its document ends up holding. */
  lemma {:induction false} LastWins(docs: FundDocs, funds: seq<FundEntry>, i: nat)
    requires i < |funds|
    requires forall j | i < j < |funds| :: funds[j].isin != funds[i].isin
    ensures funds[i].isin in AfterAll(docs, funds)
    ensures AfterAll(docs, funds)[funds[i].isin] == Stored(funds[i])
    decreases |funds|
  {
    var pre, f := funds[..|funds| - 1], funds[|funds| - 1];
    if i < |funds| - 1 {
      assert pre[i] == funds[i];
      LastWins(docs, pre, i);
    }
  }

  /** After the loop the collection holds exactly the old ISINs and those of
      the funds. */
  lemma {:induction false} AfterAllKeys(docs: FundDocs, funds: seq<FundEntry>)
    ensures AfterAll(docs, funds).Keys == docs.Keys + Isins(funds)
    decreases |funds|
  {
    if funds != [] {
      var pre, f := funds[..|funds| - 1], funds[|funds| - 1];
      assert funds == pre + [f];
      IsinsSnoc(pre, f);
      AfterAllKeys(docs, pre);
    }
  }

  lemma NewKeyCount(seen: set<string>, x: string, keys: set<string>)
    ensures x !in seen + keys ==> |(seen + {x}) - keys| == |seen - keys| + 1
    ensures x in seen + keys ==> (seen + {x}) - keys == seen - keys
  {
    if x !in seen + keys {
      assert (seen + {x}) - keys == (seen - keys) + {x};
    }
  }

  /** The created counter is the number of distinct ISINs among the funds that
      had no document before the loop: a repeated ISIN is created once and its
      later occurrences are updates. */
  lemma {:induction false} CreatedCountIsNewIsins(docs: FundDocs, funds: seq<FundEntry>)
    ensures CreatedCount(docs, funds) == |Isins(funds) - docs.Keys|
    decreases |funds|
  {
    if funds != [] {
      var pre, f := funds[..|funds| - 1], funds[|funds| - 1];
      assert funds == pre + [f];
      IsinsSnoc(pre, f);
      AfterAllKeys(docs, pre);
      CreatedCountIsNewIsins(docs, pre);
      NewKeyCount(Isins(pre), f.isin, docs.Keys);
    }
  }

  /** Never more creations than funds. */
  lemma {:induction false} CreatedCountBound(docs: FundDocs, funds: seq<FundEntry>)
    ensures CreatedCount(docs, funds) <= |funds|
    decreases |funds|
  {
    if funds != [] {
      CreatedCountBound(docs, funds[..|funds| - 1]);
    }
  }

  /** A second run with the same funds creates nothing: every fund then finds
      its document. */
  lemma SecondRunCreatesNothing(docs: FundDocs, funds: seq<FundEntry>)
    ensures CreatedCount(AfterAll(docs, funds), funds) == 0
  {
    AfterAllKeys(docs, funds);
    CreatedCountIsNewIsins(AfterAll(docs, funds), funds);
    assert Isins(funds) - AfterAll(docs, funds).Keys == {};
  }

  lemma AfterAllStep(docs: FundDocs, funds: seq<FundEntry>, i: nat)
    requires i < |funds|
    ensures AfterAll(docs, funds[..i + 1]) == CreateOrUpdate(AfterAll(docs, funds[..i]), funds[i])
    ensures CreatedCount(docs, funds[..i + 1])
            == CreatedCount(docs, funds[..i]) + (if funds[i].isin in AfterAll(docs, funds[..i]) then 0 else 1)
  {
    assert funds[..i + 1][..i] == funds[..i];
  }

  /** The loop: every fund increments exactly one of the two counters, so they
      add up to the number of funds, and `inserted` counts the ISINs that
      were new to the collection. */
  method InsertFundsToMongo(store: FundStore, funds: seq<FundEntry>) returns (inserted: nat, updated: nat)
    modifies store
    ensures store.docs == AfterAll(old(store.docs), funds)
    ensures inserted == CreatedCount(old(store.docs), funds) == |Isins(funds) - old(store.docs).Keys|
    ensures inserted + updated == |funds|
  {
    inserted, updated := 0, 0;
    for i := 0 to |funds|
      invariant store.docs == AfterAll(old(store.docs), funds[..i])
      invariant inserted == CreatedCount(old(store.docs), funds[..i])
      invariant inserted + updated == i
    {
      AfterAllStep(old(store.docs), funds, i);
      var fund := funds[i];
      if fund.isin in store.docs {
        store.UpdateOne(fund);
        updated := updated + 1;
      } else {
        store.Create(fund);
        inserted := inserted + 1;
      }
    }
    assert funds[..|funds|] == funds;
    CreatedCountIsNewIsins(old(store.docs), funds);
  }
}
