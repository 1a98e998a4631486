/** controller/category/amfi-category.controller.js: the escaping of the
    search text, the pagination object of `listAmfiCategories`, and the
    endpoints that add, relink, re-status and rename AMFI categories. Every
    thrown error answers 500, so each endpoint is modelled by its status
    code and the store it leaves. */
module AmfiCategoryController {
  import opened Wrappers
  import opened Js
  import opened CategoryModel

  // ---------------------------------------------------------------------------
  // Escaping the search text

  /** The characters of the class `[.*+?^${}()|[\]\\]`. */
  predicate IsRegexMeta(c: char) {
    c in ".*+?^${}()|[]\\"
  }

  /** `search.replace(/[.*+?^${}()|[\]\\]/g, '\\$&')`: a backslash before
      each metacharacter, every other character as it is. */
  function Escape(s: string): string
    decreases |s|
  {
    if s == [] then []
    else (if IsRegexMeta(s[0]) then ['\\', s[0]] else [s[0]]) + Escape(s[1..])
  }

  /** The number of metacharacters in `s`. */
  function CountMeta(s: string): nat
    decreases |s|
  {
    if s == [] then 0 else (if IsRegexMeta(s[0]) then 1 else 0) + CountMeta(s[1..])
  }

  /** Reading an escaped text back: a backslash stands for the character
      after it. */
  function Unescape(t: string): string
    decreases |t|
  {
    if t == [] then []
    else if t[0] == '\\' && |t| >= 2 then [t[1]] + Unescape(t[2..])
    else [t[0]] + Unescape(t[1..])
  }

  /** Escaping adds exactly one character per metacharacter. */
  lemma {:induction false} EscapeLength(s: string)
    ensures |Escape(s)| == |s| + CountMeta(s)
    decreases |s|
  {
    if s != [] {
      EscapeLength(s[1..]);
    }
  }

  /** Removing the inserted backslashes gives back the search text. */
  lemma {:induction false} UnescapeEscape(s: string)
    ensures Unescape(Escape(s)) == s
    decreases |s|
  {
    if s != [] {
      UnescapeEscape(s[1..]);
      var t := Escape(s);
      if IsRegexMeta(s[0]) {
        assert t == ['\\', s[0]] + Escape(s[1..]);
        assert t[2..] == Escape(s[1..]);
      } else {
        assert t == [s[0]] + Escape(s[1..]);
        assert t[1..] == Escape(s[1..]);
      }
      assert s == [s[0]] + s[1..];
    }
  }

  /** A text without metacharacters is left as it is. */
  lemma {:induction false} EscapePlain(s: string)
    requires forall i | 0 <= i < |s| :: !IsRegexMeta(s[i])
    ensures Escape(s) == s
    decreases |s|
  {
    if s != [] {
      EscapePlain(s[1..]);
      assert s == [s[0]] + s[1..];
    }
  }

  /** Escaping works character by character: the escape of a concatenation
      is the concatenation of the escapes. */
  lemma {:induction false} EscapeAppend(a: string, b: string)
    ensures Escape(a + b) == Escape(a) + Escape(b)
    decreases |a|
  {
    if a == [] {
      assert a + b == b;
    } else {
      assert (a + b)[0] == a[0];
      assert (a + b)[1..] == a[1..] + b;
      EscapeAppend(a[1..], b);
    }
  }

  // ---------------------------------------------------------------------------
  // listAmfiCategories pagination

  /** The `pagination` object of `listAmfiCategories`. */
  datatype CategoryPagination =
    CategoryPagination(currentPage: int, totalPages: int, totalItems: nat, itemsPerPage: int, hasNextPage: bool, hasPrevPage: bool)

  /** `page = parseInt(q.page) || 1`, `limit = parseInt(q.limit) || 10`; the
      total is the `total` of the first count document, 0 when the count
      pipeline gives none. */
  function ListPagination(pageQuery: Option<int>, limitQuery: Option<int>, countResult: seq<nat>): CategoryPagination {
    var page := OrDefault(pageQuery, 1);
    var limit := OrDefault(limitQuery, 10);
    var total := if |countResult| > 0 then countResult[0] else 0;
    var totalPages := CeilDiv(total, limit);
    CategoryPagination(page, totalPages, total, limit, page < totalPages, page > 1)
  }

  /** The defaults are page 1 and 10 items; no count document means no
      items, no pages and, from page 0 on, no next page. With a positive
      page size, there is a next page exactly when items remain after this
      page (`page * limit < total`), and a previous page exactly when items
      are skipped: the rule of `listMutualFunds`, stated through
      `totalPages` instead. */
  lemma ListPaginationMeaning(pageQuery: Option<int>, limitQuery: Option<int>, countResult: seq<nat>)
    ensures pageQuery.None? ==> ListPagination(pageQuery, limitQuery, countResult).currentPage == 1
    ensures limitQuery.None? ==> ListPagination(pageQuery, limitQuery, countResult).itemsPerPage == 10
    ensures countResult == [] ==>
              var p := ListPagination(pageQuery, limitQuery, countResult);
              p.totalItems == 0 && p.totalPages == 0 && (p.currentPage >= 0 ==> !p.hasNextPage)
    ensures var p := ListPagination(pageQuery, limitQuery, countResult);
            p.itemsPerPage >= 1 ==>
              (p.hasNextPage <==> p.currentPage * p.itemsPerPage < p.totalItems)
              && (p.hasPrevPage <==> (p.currentPage - 1) * p.itemsPerPage > 0)
  {
    var p := ListPagination(pageQuery, limitQuery, countResult);
    if p.itemsPerPage >= 1 {
      BeforeLastPage(p.currentPage, p.itemsPerPage, p.totalItems);
      AfterFirstPage(p.currentPage, p.itemsPerPage);
    }
  }

  // ---------------------------------------------------------------------------
  // Lookups by id

  /** A request value JavaScript reads as true: present and not empty. */
  predicate Present(v: Option<string>) {
    v.Some? && v.value != ""
  }

  /** `AmfiCategory.findById(id)`: the position of the document with the id. */
  function FindAmfiById(docs: seq<AmfiCategoryDoc>, id: ObjectId): (r: Option<nat>)
    ensures r.Some? ==> r.value < |docs| && docs[r.value].id == id
    ensures r.None? ==> forall j | 0 <= j < |docs| :: docs[j].id != id
  {
    FirstWhere(docs, (d: AmfiCategoryDoc) => d.id == id)
  }

  /** `InstrumentCategory.findById(id)`. */
  function FindInstrumentById(docs: seq<InstrumentCategoryDoc>, id: ObjectId): (r: Option<nat>)
    ensures r.Some? ==> r.value < |docs| && docs[r.value].id == id
    ensures r.None? ==> forall j | 0 <= j < |docs| :: docs[j].id != id
  {
    FirstWhere(docs, (d: InstrumentCategoryDoc) => d.id == id)
  }

  /** The AMFI category a request id names, if the id casts and the
      document exists. */
  function AmfiIndexOf(docs: seq<AmfiCategoryDoc>, requestId: string): (r: Option<nat>)
    ensures r.Some? <==>
              ObjectIdOf(requestId).Some? && exists j | 0 <= j < |docs| :: docs[j].id == ObjectIdOf(requestId).value
    ensures r.Some? ==> r.value < |docs| && docs[r.value].id == ObjectIdOf(requestId).value
  {
    match ObjectIdOf(requestId)
    case None => None
    case Some(id) => FindAmfiById(docs, id)
  }

  /** A linked AMFI category has status `set`. */
  predicate LinkConsistent(docs: seq<AmfiCategoryDoc>) {
    forall i | 0 <= i < |docs| :: docs[i].instrumentCategory.Some? ==> docs[i].status == Set
  }

  // ---------------------------------------------------------------------------
  // addAmfiCategory

  /** `addAmfiCategory`: a missing or empty name, or a name some category
      already has exactly, answers 500 and changes nothing; any other name,
      untrimmed, becomes a new unset, unlinked category, answered with 201.
      So this path never creates a second category with a name. */
  method AddAmfiCategory(store: CategoryStore, name: Option<string>) returns (status: nat)
    requires store.Valid()
    modifies store
    ensures store.Valid()
    ensures store.assetClasses == old(store.assetClasses) && store.routes == old(store.routes)
    ensures store.instrumentCategories == old(store.instrumentCategories)
    ensures status == 500 <==> !Present(name) || name.value in Names(old(store.amfiCategories))
    ensures status == 201 <==> Present(name) && name.value !in Names(old(store.amfiCategories))
    ensures status == 500 ==> store.amfiCategories == old(store.amfiCategories)
    ensures status == 201 ==>
              store.amfiCategories == old(store.amfiCategories) + [AmfiCategoryDoc(old(store.nextId), name.value, Unset, None)]
    ensures NamesUnique(old(store.amfiCategories)) ==> NamesUnique(store.amfiCategories)
    ensures LinkConsistent(old(store.amfiCategories)) ==> LinkConsistent(store.amfiCategories)
  {
    if name.None? || name.value == "" {
      return 500;
    }
    var existingCategory := FirstWhere(store.amfiCategories, (d: AmfiCategoryDoc) => d.name == name.value);
    if existingCategory.Some? {
      assert store.amfiCategories[existingCategory.value].name == name.value;
      return 500;
    }
    ghost var docs := store.amfiCategories;
    assert name.value !in Names(docs);
    var doc := store.InsertAmfiCategory(name.value);
    AppendKeepsInvariants(docs, doc);
    return 201;
  }

  /** Appending a category with a new name that is unlinked keeps both
      invariants. */
  lemma AppendKeepsInvariants(docs: seq<AmfiCategoryDoc>, d: AmfiCategoryDoc)
    requires d.name !in Names(docs) && d.instrumentCategory == None
    ensures NamesUnique(docs) ==> NamesUnique(docs + [d])
    ensures LinkConsistent(docs) ==> LinkConsistent(docs + [d])
  {
    var s := docs + [d];
    assert forall j | 0 <= j < |docs| :: s[j] == docs[j];
    assert s[|docs|] == d;
    forall i, j | 0 <= i < j < |s| && NamesUnique(docs) ensures s[i].name != s[j].name {
      if j == |docs| {
        assert s[i].name in Names(docs);
      }
    }
  }

  // ---------------------------------------------------------------------------
  // updateAmfiCategoryStatus

  /** `['set', 'unset'].includes(status)`, read as a status. */
  function StatusOf(s: string): Option<Status> {
    if s == "set" then Some(Set) else if s == "unset" then Some(Unset) else None
  }

  /** `updateAmfiCategoryStatus`: both fields present, a status of `set` or
      `unset`, and an id naming a category give 200 with only that
      category's status changed; anything else answers 500 and changes
      nothing. */
  method UpdateAmfiCategoryStatus(store: CategoryStore, categoryId: Option<string>, status: Option<string>) returns (code: nat)
    requires store.Valid()
    modifies store
    ensures store.Valid()
    ensures store.assetClasses == old(store.assetClasses) && store.routes == old(store.routes)
    ensures store.instrumentCategories == old(store.instrumentCategories) && store.nextId == old(store.nextId)
    ensures code == 200 <==>
              Present(categoryId) && Present(status) && StatusOf(status.value).Some?
              && AmfiIndexOf(old(store.amfiCategories), categoryId.value).Some?
    ensures code != 200 ==> code == 500 && store.amfiCategories == old(store.amfiCategories)
    ensures code == 200 ==>
              var k := AmfiIndexOf(old(store.amfiCategories), categoryId.value).value;
              store.amfiCategories == old(store.amfiCategories)[k := old(store.amfiCategories)[k].(status := StatusOf(status.value).value)]
  {
    if categoryId.None? || categoryId.value == "" || status.None? || status.value == "" {
      return 500;
    }
    var newStatus := StatusOf(status.value);
    if newStatus.None? {
      return 500;
    }
    var k := AmfiIndexOf(store.amfiCategories, categoryId.value);
    if k.None? {
      return 500;
    }
    store.ReplaceAmfiCategory(k.value, store.amfiCategories[k.value].(status := newStatus.value));
    return 200;
  }

  /** What a status change does to the invariants: names stay unique, and
      on a store whose linked categories are `set`, the change keeps that
      exactly when the new status is `set` or the category is unlinked. So
      unsetting a linked category leaves it linked but `unset`: the status
      endpoint does not keep a link and its status in step. */
  lemma StatusChangeInvariants(docs: seq<AmfiCategoryDoc>, k: nat, st: Status)
    requires k < |docs|
    ensures NamesUnique(docs) ==> NamesUnique(docs[k := docs[k].(status := st)])
    ensures LinkConsistent(docs) ==>
              (LinkConsistent(docs[k := docs[k].(status := st)]) <==> st == Set || docs[k].instrumentCategory.None?)
  {
    var after := docs[k := docs[k].(status := st)];
    assert after[k].status == st && after[k].instrumentCategory == docs[k].instrumentCategory;
    assert forall j | 0 <= j < |docs| && j != k :: after[j] == docs[j];
  }

  // ---------------------------------------------------------------------------
  // linkInstrumentCategoryToAmfiCategory

  /** `linkInstrumentCategoryToAmfiCategory`: both ids present, an instrument
      category and an AMFI category with those ids give 200, and the AMFI
      category is linked to the instrument category with status `set`;
      anything else answers 500 and changes nothing. */
  method LinkInstrumentCategoryToAmfiCategory(store: CategoryStore, instrumentCategoryId: Option<string>, amfiCategoryId: Option<string>)
    returns (code: nat)
    requires store.Valid()
    modifies store
    ensures store.Valid()
    ensures store.assetClasses == old(store.assetClasses) && store.routes == old(store.routes)
    ensures store.instrumentCategories == old(store.instrumentCategories) && store.nextId == old(store.nextId)
    ensures code == 200 <==>
              Present(instrumentCategoryId) && Present(amfiCategoryId)
              && ObjectIdOf(instrumentCategoryId.value).Some?
              && FindInstrumentById(old(store.instrumentCategories), ObjectIdOf(instrumentCategoryId.value).value).Some?
              && AmfiIndexOf(old(store.amfiCategories), amfiCategoryId.value).Some?
    ensures code != 200 ==> code == 500 && store.amfiCategories == old(store.amfiCategories)
    ensures code == 200 ==>
              var k := AmfiIndexOf(old(store.amfiCategories), amfiCategoryId.value).value;
              var instrumentId := ObjectIdOf(instrumentCategoryId.value).value;
              store.amfiCategories
                == old(store.amfiCategories)[k := old(store.amfiCategories)[k].(instrumentCategory := Some(instrumentId), status := Set)]
    ensures LinkConsistent(old(store.amfiCategories)) ==> LinkConsistent(store.amfiCategories)
  {
    if instrumentCategoryId.None? || instrumentCategoryId.value == "" || amfiCategoryId.None? || amfiCategoryId.value == "" {
      return 500;
    }
    var instrumentId := ObjectIdOf(instrumentCategoryId.value);
    if instrumentId.None? {
      return 500;
    }
    var instrumentCategory := FindInstrumentById(store.instrumentCategories, instrumentId.value);
    if instrumentCategory.None? {
      return 500;
    }
    var k := AmfiIndexOf(store.amfiCategories, amfiCategoryId.value);
    if k.None? {
      return 500;
    }
    var linkedId := store.instrumentCategories[instrumentCategory.value].id;
    store.ReplaceAmfiCategory(k.value, store.amfiCategories[k.value].(instrumentCategory := Some(linkedId), status := Set));
    return 200;
  }

  // ---------------------------------------------------------------------------
  // updateAmfiCategory

  /** The request check of `updateAmfiCategory` on string fields: an id
      that is not blank and is 24 UTF-16 code units long, and a name that is
      not blank. */
  predicate RenameRequestValid(id: JsValue, name: JsValue) {
    id.Str? && Trim(id.s) != "" && Utf16Length(id.s) == 24 && name.Str? && Trim(name.s) != ""
  }

  /** The request check reaches `trim` on a field that is not a string: the
      id, or the name after an id that passed. */
  predicate RenameCheckThrows(id: JsValue, name: JsValue) {
    id.OtherValue? || (id.Str? && Trim(id.s) != "" && Utf16Length(id.s) == 24 && name.OtherValue?)
  }

  /** How the handler ends: a response with a status code, or a rejected
      promise that nothing handles, so no response is sent. */
  datatype Reply = Answered(code: nat) | Unhandled

  /** `updateAmfiCategory`. The request check runs outside the `try`: a
      field that is not a string makes `trim` throw and the handler answers
      nothing; a failed check answers 400. In the `try`, an id that does not
      cast (24 code units need not be 24 hexadecimal digits) or names no
      category answers 500; otherwise the category takes the name as sent
      (untrimmed) and status `unset`, keeps its link, and the answer is 200.
      Nothing else changes, and the name is not checked against the other
      categories. */
  method UpdateAmfiCategory(store: CategoryStore, id: JsValue, name: JsValue) returns (reply: Reply)
    requires store.Valid()
    modifies store
    ensures store.Valid()
    ensures store.assetClasses == old(store.assetClasses) && store.routes == old(store.routes)
    ensures store.instrumentCategories == old(store.instrumentCategories) && store.nextId == old(store.nextId)
    ensures reply == Unhandled <==> RenameCheckThrows(id, name)
    ensures reply == Answered(400) <==> !RenameCheckThrows(id, name) && !RenameRequestValid(id, name)
    ensures reply == Answered(500) <==> RenameRequestValid(id, name) && AmfiIndexOf(old(store.amfiCategories), id.s).None?
    ensures reply == Answered(200) <==> RenameRequestValid(id, name) && AmfiIndexOf(old(store.amfiCategories), id.s).Some?
    ensures reply != Answered(200) ==> store.amfiCategories == old(store.amfiCategories)
    ensures reply == Answered(200) ==>
              var k := AmfiIndexOf(old(store.amfiCategories), id.s).value;
              store.amfiCategories == old(store.amfiCategories)[k := old(store.amfiCategories)[k].(name := name.s, status := Unset)]
  {
    if id.FalsyValue? {
      return Answered(400);
    }
    if id.OtherValue? {
      return Unhandled;
    }
    if id.s == "" || Trim(id.s) == "" || Utf16Length(id.s) != 24 || name.FalsyValue? {
      return Answered(400);
    }
    if name.OtherValue? {
      return Unhandled;
    }
    if name.s == "" || Trim(name.s) == "" {
      return Answered(400);
    }
    var k := AmfiIndexOf(store.amfiCategories, id.s);
    if k.None? {
      return Answered(500);
    }
    store.ReplaceAmfiCategory(k.value, store.amfiCategories[k.value].(name := name.s, status := Unset));
    return Answered(200);
  }

  /** 22 hexadecimal digits and one character outside the Basic
      Multilingual Plane. */
  const AstralId: string := "0123456789abcdef012345" + "\U{1F600}"

  lemma AstralIdLength()
    ensures |AstralId| == 23 && Utf16Length(AstralId) == 24
  {
    var p := AstralId[..22];
    assert forall i | 0 <= i < |p| :: p[i] as int < 0x10000;
    Utf16LengthAppend(p, AstralId[22..]);
    assert p + AstralId[22..] == AstralId;
  }

  lemma NotBlank(s: string)
    requires |s| > 0 && !IsWhitespace(s[0])
    ensures Trim(s) != ""
  {
    TrimSpec(s);
  }

  /** `AstralId` is 24 code units long: it passes the request check, does
      not cast, and the answer is 500, not 400. */
  lemma AstralIdPassesLengthCheck()
    ensures |AstralId| == 23 && Utf16Length(AstralId) == 24 && ObjectIdOf(AstralId).None?
            && RenameRequestValid(Str(AstralId), Str("Large Cap Fund"))
  {
    AstralIdLength();
    NotBlank(AstralId);
    NotBlank("Large Cap Fund");
  }

  /** Renaming checks no other category. On a store with unique names the
      names stay unique exactly when no other category has the new name,
      which `addAmfiCategory` would refuse; on a store whose linked
      categories are `set`, the reset to `unset` keeps that exactly when the
      category is unlinked, since the link stays. */
  lemma RenameInvariants(docs: seq<AmfiCategoryDoc>, k: nat, name: string)
    requires k < |docs|
    ensures NamesUnique(docs) ==>
              (NamesUnique(docs[k := docs[k].(name := name, status := Unset)])
               <==> forall j | 0 <= j < |docs| && j != k :: docs[j].name != name)
    ensures LinkConsistent(docs) ==>
              (LinkConsistent(docs[k := docs[k].(name := name, status := Unset)]) <==> docs[k].instrumentCategory.None?)
  {
    var after := docs[k := docs[k].(name := name, status := Unset)];
    assert after[k].name == name && after[k].instrumentCategory == docs[k].instrumentCategory;
    assert forall j | 0 <= j < |docs| && j != k :: after[j] == docs[j];
    if NamesUnique(docs) && !NamesUnique(after) {
      var i, j :| 0 <= i < j < |after| && after[i].name == after[j].name;
      assert i == k || j == k;
      if i == k {
        assert docs[j].name == name;
      } else {
        assert docs[i].name == name;
      }
    }
    if NamesUnique(docs) && !(forall j | 0 <= j < |docs| && j != k :: docs[j].name != name) {
      var j :| 0 <= j < |docs| && j != k && docs[j].name == name;
      if j < k {
        assert after[j].name == after[k].name;
      } else {
        assert after[k].name == after[j].name;
      }
    }
  }
}
