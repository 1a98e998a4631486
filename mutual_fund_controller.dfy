/** controller/mutualFundController.js: the case-insensitive category
    append of `addCategory` and the pagination arithmetic of
    `listMutualFunds`. A fund document is an object whose `categories` list
    the endpoint reinitialises and appends to in place. */
module MutualFundController {
  import opened Wrappers
  import opened Js
  import CategoryModel

  // ---------------------------------------------------------------------------
  // addCategory

  /** `category.trim().toLowerCase()`: the form a category is stored in. */
  function Normalise(category: string): string {
    ToLower(Trim(category))
  }

  /** `categories.some((c) => c.toLowerCase() === categoryLower)`. */
  predicate HasCategory(categories: seq<string>, categoryLower: string) {
    exists c | c in categories :: ToLower(c) == categoryLower
  }

  /** The list after adding `category`: unchanged when an entry already
      matches it case-insensitively, otherwise the normalised category
      appended. Either way the list then holds the category. */
  function WithCategory(categories: seq<string>, category: string): (r: seq<string>)
    ensures r == categories <==> HasCategory(categories, Normalise(category))
    ensures r == categories || r == categories + [Normalise(category)]
    ensures HasCategory(r, Normalise(category))
  {
    var categoryLower := Normalise(category);
    if HasCategory(categories, categoryLower) then categories
    else
      ToLowerIdempotent(Trim(category));
      assert categoryLower in categories + [categoryLower];
      categories + [categoryLower]
  }

  /** Adding a category twice, in any letter case and with any surrounding
      whitespace, gives the list that adding it once gives. */
  lemma AddTwiceIsAddOnce(categories: seq<string>, a: string, b: string)
    requires Normalise(a) == Normalise(b)
    ensures WithCategory(WithCategory(categories, a), b) == WithCategory(categories, a)
  {
  }

  /** No two entries are equal once lowercased. */
  predicate NoCaseDuplicates(categories: seq<string>) {
    forall i, j | 0 <= i < j < |categories| :: ToLower(categories[i]) != ToLower(categories[j])
  }

  /** Every entry is already in lower case. */
  predicate AllLower(categories: seq<string>) {
    forall i | 0 <= i < |categories| :: ToLower(categories[i]) == categories[i]
  }

  /** Adding keeps a list free of case-insensitive duplicates, and keeps a
      lowercase list lowercase. */
  lemma WithCategoryKeepsListClean(categories: seq<string>, category: string)
    ensures NoCaseDuplicates(categories) ==> NoCaseDuplicates(WithCategory(categories, category))
    ensures AllLower(categories) ==> AllLower(WithCategory(categories, category))
  {
    var r := WithCategory(categories, category);
    if r != categories {
      var x := Normalise(category);
      ToLowerIdempotent(Trim(category));
      assert r[|categories|] == x;
      if NoCaseDuplicates(categories) {
        forall i, j | 0 <= i < j < |r| ensures ToLower(r[i]) != ToLower(r[j]) {
          if j == |categories| {
            assert r[i] in categories;
          }
        }
      }
    }
  }

  /** A `MutualFund` document as `addCategory` sees it: `categories` is
      absent or `null` (None), or a list of names. */
  class FundDocument {
    var categories: Option<seq<string>>

    constructor (categories: Option<seq<string>>)
      ensures this.categories == categories
    {
      this.categories := categories;
    }
  }

  /** `!category || category.trim() === ''` for a string or falsy value. */
  predicate BlankCategory(category: JsValue) {
    category.FalsyValue? || (category.Str? && Trim(category.s) == "")
  }

  /** `addCategory` on the documents by id. A blank category is refused with
      400. A category of another kind makes `category.trim` throw, and an id
      that is not 24 hexadecimal digits makes `findById` throw a cast error:
      the catch answers both with 500. A well-formed id with no document
      answers 404. None of these changes a document. Otherwise the fund's
      list (an empty one when it had none) gets the category unless it
      already holds it in some letter case, and the answer is 200; no other
      document changes. */
  method AddCategory(funds: map<CategoryModel.ObjectId, FundDocument>, fundId: string, category: JsValue)
    returns (status: nat)
    modifies funds.Values
    ensures status == 400 <==> BlankCategory(category)
    ensures status == 500 <==>
              category.OtherValue? || (!BlankCategory(category) && CategoryModel.ObjectIdOf(fundId).None?)
    ensures status == 404 <==>
              category.Str? && !BlankCategory(category) && CategoryModel.ObjectIdOf(fundId).Some?
              && CategoryModel.ObjectIdOf(fundId).value !in funds
    ensures status == 200 <==>
              category.Str? && !BlankCategory(category) && CategoryModel.ObjectIdOf(fundId).Some?
              && CategoryModel.ObjectIdOf(fundId).value in funds
    ensures status != 200 ==> forall d | d in funds.Values :: d.categories == old(d.categories)
    ensures status == 200 ==>
              var fund := funds[CategoryModel.ObjectIdOf(fundId).value];
              fund.categories
                == Some(WithCategory(if old(fund.categories).None? then [] else old(fund.categories).value, category.s))
              && forall d | d in funds.Values && d != fund :: d.categories == old(d.categories)
  {
    if category.FalsyValue? {
      return 400;
    }
    if category.OtherValue? {
      return 500;
    }
    if Trim(category.s) == "" {
      return 400;
    }
    var id := CategoryModel.ObjectIdOf(fundId);
    if id.None? {
      return 500;
    }
    if id.value !in funds {
      return 404;
    }
    var fund := funds[id.value];
    if fund.categories.None? {
      fund.categories := Some([]);
    }
    var categoryLower := ToLower(Trim(category.s));
    var found := HasCategory(fund.categories.value, categoryLower);
    if !found {
      fund.categories := Some(fund.categories.value + [categoryLower]);
    }
    return 200;
  }

  // ---------------------------------------------------------------------------
  // listMutualFunds

  /** The `pagination` object of `listMutualFunds`. */
  datatype Pagination = Pagination(page: int, limit: int, total: nat, totalPages: int, hasNext: bool, hasPrev: bool)

  /** `page = parseInt(q.page) || 1`, `limit = parseInt(q.limit) || 100`,
      `skip = (page - 1) * limit`, with `None` for a query value that does
      not read as a number. */
  function ListPagination(pageQuery: Option<int>, limitQuery: Option<int>, total: nat): Pagination {
    var page := OrDefault(pageQuery, 1);
    var limit := OrDefault(limitQuery, 100);
    var skip := (page - 1) * limit;
    Pagination(page, limit, total, CeilDiv(total, limit), skip + limit < total, skip > 0)
  }

  /** The defaults: no page reads as page 1, no limit as 100 items. With a
      positive page size, `hasNext` holds exactly before the last page and
      `hasPrev` exactly after the first. */
  lemma ListPaginationFlags(pageQuery: Option<int>, limitQuery: Option<int>, total: nat)
    ensures pageQuery.None? ==> ListPagination(pageQuery, limitQuery, total).page == 1
    ensures limitQuery.None? ==> ListPagination(pageQuery, limitQuery, total).limit == 100
    ensures var p := ListPagination(pageQuery, limitQuery, total);
            p.limit >= 1 ==> (p.hasNext <==> p.page < p.totalPages) && (p.hasPrev <==> p.page > 1)
  {
    var p := ListPagination(pageQuery, limitQuery, total);
    if p.limit >= 1 {
      assert (p.page - 1) * p.limit + p.limit == p.page * p.limit;
      BeforeLastPage(p.page, p.limit, total);
      AfterFirstPage(p.page, p.limit);
    }
  }
}
