/** `insertAmfiCategories`: a find-or-create loop over a list of AMFI
    category names, with a tally of names created and names already present. */
module InsertCategoryToDB {
  import opened Wrappers
  import opened Js
  import opened CategoryModel

  /** One element of the input array: a string, or any other value. */
  datatype Item = Text(s: string) | NotText

  /** The argument: `null`/`undefined` (reading `.length` throws), another
      non-array value, or an array. */
  datatype CategoryArg = Nullish | NotArray | ArrayOf(items: seq<Item>)

  /** `{inserted, existing, total, errors}`; `errors` is `undefined` (None)
      when no name failed. */
  datatype Outcome = Outcome(inserted: nat, existing: nat, total: nat, errors: Option<seq<string>>)

  /** A name the loop processes: a string that is not blank after trimming. */
  predicate ValidItem(item: Item) {
    item.Text? && Trim(item.s) != ""
  }

  /** The trimmed names of the valid items. */
  function ValidNames(items: seq<Item>): set<string> {
    set i | 0 <= i < |items| && ValidItem(items[i]) :: Trim(items[i].s)
  }

  /** The number of valid items, repeats included. */
  function ValidCount(items: seq<Item>): nat
    decreases |items|
  {
    if items == [] then 0
    else ValidCount(items[..|items| - 1]) + (if ValidItem(items[|items| - 1]) then 1 else 0)
  }

  /** The names present after a prefix of the loop, and its two counters. */
  datatype Tally = Tally(known: set<string>, inserted: nat, existing: nat)

  /** The loop over the items, starting from the names already stored. */
  function TallyOf(known: set<string>, items: seq<Item>): Tally
    decreases |items|
  {
    if items == [] then Tally(known, 0, 0)
    else
      var t := TallyOf(known, items[..|items| - 1]);
      var item := items[|items| - 1];
      if !ValidItem(item) then t
      else if Trim(item.s) in t.known then t.(existing := t.existing + 1)
      else Tally(t.known + {Trim(item.s)}, t.inserted + 1, t.existing)
  }

  lemma ValidNamesSnoc(items: seq<Item>, item: Item)
    ensures ValidNames(items + [item]) == ValidNames(items) + (if ValidItem(item) then {Trim(item.s)} else {})
  {
    var s := items + [item];
    assert s[|items|] == item;
    assert forall i | 0 <= i < |items| :: s[i] == items[i];
  }

  /** After the loop the store holds the names it held and every valid
      trimmed name; no other name. */
  lemma {:induction false} TallyKnown(known: set<string>, items: seq<Item>)
    ensures TallyOf(known, items).known == known + ValidNames(items)
    decreases |items|
  {
    if items != [] {
      var pre, item := items[..|items| - 1], items[|items| - 1];
      assert items == pre + [item];
      ValidNamesSnoc(pre, item);
      TallyKnown(known, pre);
    }
  }

  /** Every valid item counts once, as inserted or as existing; invalid items
      count in neither. */
  lemma {:induction false} TallyTotal(known: set<string>, items: seq<Item>)
    ensures TallyOf(known, items).inserted + TallyOf(known, items).existing == ValidCount(items)
    decreases |items|
  {
    if items != [] {
      TallyTotal(known, items[..|items| - 1]);
    }
  }

  lemma NewNameCount(seen: set<string>, x: string, known: set<string>)
    ensures x !in known + seen ==> |(seen + {x}) - known| == |seen - known| + 1
    ensures x in known + seen ==> (seen + {x}) - known == seen - known
  {
    if x !in known + seen {
      assert (seen + {x}) - known == (seen - known) + {x};
    }
  }

  /** `inserted` is the number of distinct valid names that were not stored
      before: a name repeated in the input is inserted once and then counted
      as existing. */
  lemma {:induction false} TallyInserted(known: set<string>, items: seq<Item>)
    ensures TallyOf(known, items).inserted == |ValidNames(items) - known|
    decreases |items|
  {
    if items != [] {
      var pre, item := items[..|items| - 1], items[|items| - 1];
      assert items == pre + [item];
      ValidNamesSnoc(pre, item);
      TallyKnown(known, pre);
      TallyInserted(known, pre);
      var t := TallyOf(known, pre);
      if ValidItem(item) {
        var x := Trim(item.s);
        NewNameCount(ValidNames(pre), x, known);
        assert ValidNames(items) == ValidNames(pre) + {x};
        if x in t.known {
          assert TallyOf(known, items).inserted == t.inserted;
        } else {
          assert TallyOf(known, items).inserted == t.inserted + 1;
        }
      } else {
        assert TallyOf(known, items) == t;
        assert ValidNames(items) == ValidNames(pre);
      }
    }
  }

  /** A second run with the same input inserts nothing and leaves the names
      as they were. */
  lemma RerunInsertsNothing(known: set<string>, items: seq<Item>)
    ensures var once := TallyOf(known, items).known;
            TallyOf(once, items).inserted == 0 && TallyOf(once, items).known == once
  {
    var once := TallyOf(known, items).known;
    TallyKnown(known, items);
    TallyKnown(once, items);
    TallyInserted(once, items);
    assert ValidNames(items) - once == {};
  }

  /** One more item: the tally moves on as the loop body does. */
  lemma TallyStep(known: set<string>, items: seq<Item>, i: nat, t: Tally)
    requires i < |items| && TallyOf(known, items[..i]) == t
    ensures !ValidItem(items[i]) ==> TallyOf(known, items[..i + 1]) == t
    ensures ValidItem(items[i]) && Trim(items[i].s) in t.known ==>
              TallyOf(known, items[..i + 1]) == Tally(t.known, t.inserted, t.existing + 1)
    ensures ValidItem(items[i]) && Trim(items[i].s) !in t.known ==>
              TallyOf(known, items[..i + 1]) == Tally(t.known + {Trim(items[i].s)}, t.inserted + 1, t.existing)
  {
    assert items[..i + 1][..i] == items[..i];
  }

  /** The AMFI collection grew from `before` only by appending unset,
      unlinked categories, and kept its names unique if they were. */
  predicate GrownBy(before: seq<AmfiCategoryDoc>, docs: seq<AmfiCategoryDoc>) {
    before <= docs
    && (forall j | |before| <= j < |docs| :: docs[j].status == Unset && docs[j].instrumentCategory == None)
    && (NamesUnique(before) ==> NamesUnique(docs))
  }

  lemma GrownByAppend(before: seq<AmfiCategoryDoc>, docs: seq<AmfiCategoryDoc>, d: AmfiCategoryDoc)
    requires GrownBy(before, docs)
    requires d.name !in Names(docs) && d.status == Unset && d.instrumentCategory == None
    ensures GrownBy(before, docs + [d])
    ensures Names(docs + [d]) == Names(docs) + {d.name}
  {
    NamesSnoc(docs, d);
    var s := docs + [d];
    assert forall j | 0 <= j < |docs| :: s[j] == docs[j];
    assert s[|docs|] == d;
    forall i, j | 0 <= i < j < |s| && NamesUnique(docs) ensures s[i].name != s[j].name {
      if j == |docs| {
        assert s[i].name in Names(docs);
      }
    }
  }

  /** One turn of the loop for a valid name: `findOne({name})`, and a new
      unset category when there is none. `created` says which happened: a
      found name leaves the collection as it was, a missing one appends
      exactly one unset, unlinked document with the next id. */
  method FindOrCreate(store: CategoryStore, name: string) returns (created: bool)
    requires store.Valid()
    modifies store
    ensures store.Valid()
    ensures store.assetClasses == old(store.assetClasses) && store.routes == old(store.routes)
    ensures store.instrumentCategories == old(store.instrumentCategories)
    ensures created <==> name !in Names(old(store.amfiCategories))
    ensures Names(store.amfiCategories) == Names(old(store.amfiCategories)) + {name}
    ensures created ==>
              store.amfiCategories == old(store.amfiCategories) + [AmfiCategoryDoc(old(store.nextId), name, Unset, None)]
    ensures !created ==> store.amfiCategories == old(store.amfiCategories)
    ensures forall before | GrownBy(before, old(store.amfiCategories)) :: GrownBy(before, store.amfiCategories)
  {
    var existingCategory := FirstWhere(store.amfiCategories, (d: AmfiCategoryDoc) => d.name == name);
    if existingCategory.None? {
      ghost var docs := store.amfiCategories;
      assert name !in Names(docs);
      var doc := store.InsertAmfiCategory(name);
      forall before | GrownBy(before, docs) ensures GrownBy(before, store.amfiCategories) {
        GrownByAppend(before, docs, doc);
      }
      NamesSnoc(docs, doc);
      created := true;
    } else {
      assert name in Names(store.amfiCategories) by {
        assert store.amfiCategories[existingCategory.value].name == name;
      }
      created := false;
    }
  }

  /** One turn of the loop: a valid item is trimmed and found or created,
      and the matching counter goes up; any other item is skipped. The
      collection gains a document exactly when `inserted` goes up, and is
      otherwise unchanged. */
  method InsertItem(store: CategoryStore, ghost known: set<string>, items: seq<Item>, i: nat, insertedCount: nat, existingCount: nat)
    returns (inserted: nat, existing: nat)
    requires store.Valid() && i < |items|
    requires TallyOf(known, items[..i]) == Tally(Names(store.amfiCategories), insertedCount, existingCount)
    modifies store
    ensures store.Valid()
    ensures store.assetClasses == old(store.assetClasses) && store.routes == old(store.routes)
    ensures store.instrumentCategories == old(store.instrumentCategories)
    ensures TallyOf(known, items[..i + 1]) == Tally(Names(store.amfiCategories), inserted, existing)
    ensures inserted == insertedCount || inserted == insertedCount + 1
    ensures inserted == insertedCount ==> store.amfiCategories == old(store.amfiCategories)
    ensures inserted == insertedCount + 1 ==>
              items[i].Text? && store.amfiCategories
                == old(store.amfiCategories) + [AmfiCategoryDoc(old(store.nextId), Trim(items[i].s), Unset, None)]
    ensures forall before | GrownBy(before, old(store.amfiCategories)) :: GrownBy(before, store.amfiCategories)
  {
    TallyStep(known, items, i, Tally(Names(store.amfiCategories), insertedCount, existingCount));
    inserted, existing := insertedCount, existingCount;
    var item := items[i];
    if item.Text? && Trim(item.s) != "" {
      var created := FindOrCreate(store, Trim(item.s));
      if created {
        inserted := inserted + 1;
      } else {
        existing := existing + 1;
      }
    }
  }

  /** The loop over an array of names, counting the names created and the
      names already present. */
  method InsertNames(store: CategoryStore, items: seq<Item>) returns (insertedCount: nat, existingCount: nat)
    requires store.Valid()
    modifies store
    ensures store.Valid()
    ensures store.assetClasses == old(store.assetClasses) && store.routes == old(store.routes)
    ensures store.instrumentCategories == old(store.instrumentCategories)
    ensures TallyOf(Names(old(store.amfiCategories)), items) == Tally(Names(store.amfiCategories), insertedCount, existingCount)
    ensures |store.amfiCategories| == |old(store.amfiCategories)| + insertedCount
    ensures GrownBy(old(store.amfiCategories), store.amfiCategories)
  {
    ghost var before := store.amfiCategories;
    ghost var known := Names(before);
    insertedCount, existingCount := 0, 0;
    for i := 0 to |items|
      invariant store.Valid()
      invariant store.assetClasses == old(store.assetClasses) && store.routes == old(store.routes)
      invariant store.instrumentCategories == old(store.instrumentCategories)
      invariant TallyOf(known, items[..i]) == Tally(Names(store.amfiCategories), insertedCount, existingCount)
      invariant GrownBy(before, store.amfiCategories)
      invariant |store.amfiCategories| == |before| + insertedCount
    {
      insertedCount, existingCount := InsertItem(store, known, items, i, insertedCount, existingCount);
    }
    assert items[..|items|] == items;
  }

  /** `insertAmfiCategories(amfiCategories)`. Only AMFI categories are
      written, and nothing at all for a nullish, non-array or empty
      argument; the names before the loop stay, in order, the loop adds
      exactly `inserted` documents, each an unset, unlinked category; a
      store whose names were unique keeps them unique. */
  method InsertAmfiCategories(store: CategoryStore, arg: CategoryArg) returns (r: Result<Outcome>)
    requires store.Valid()
    modifies store
    ensures store.Valid()
    ensures store.assetClasses == old(store.assetClasses) && store.routes == old(store.routes)
    ensures store.instrumentCategories == old(store.instrumentCategories)
    ensures !arg.ArrayOf? ==> store.amfiCategories == old(store.amfiCategories)
    ensures arg.Nullish? ==> r.Err?
    ensures arg.NotArray? ==> r == Ok(Outcome(0, 0, 0, None))
    ensures arg.ArrayOf? ==>
              var t := TallyOf(Names(old(store.amfiCategories)), arg.items);
              r == Ok(Outcome(t.inserted, t.existing, t.inserted + t.existing, None))
              && Names(store.amfiCategories) == t.known
              && |store.amfiCategories| == |old(store.amfiCategories)| + t.inserted
    ensures arg.ArrayOf? && arg.items == [] ==> store.amfiCategories == old(store.amfiCategories)
    ensures GrownBy(old(store.amfiCategories), store.amfiCategories)
  {
    match arg
    case Nullish =>
      return Err("Cannot read properties of undefined (reading 'length')");
    case NotArray =>
      return Ok(Outcome(0, 0, 0, None));
    case ArrayOf(items) =>
      if |items| == 0 {
        return Ok(Outcome(0, 0, 0, None));
      }
      var insertedCount, existingCount := InsertNames(store, items);
      return Ok(Outcome(insertedCount, existingCount, insertedCount + existingCount, None));
  }
}
