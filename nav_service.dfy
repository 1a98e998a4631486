/** `fetchAndPrintNAVs` of index.js: a five-minute cache of the parsed AMFI
    feed, a case-insensitive search over the cached funds, and one page of
    the result. The feed text and the clock reading are inputs; the cache is
    the state of a `NavCache` object. */
module NavService {
  import opened Wrappers
  import opened Js
  import opened MutualFundModel
  import FetchMFData
  import FundsIntoMongo

  // ---------------------------------------------------------------------------
  // Cache freshness

  /** `CACHE_DURATION`: five minutes, in milliseconds. */
  const CacheDuration: int := 5 * 60 * 1000

  /** The refetch test: nothing cached, no timestamp (absent, or the falsy
      0), or strictly more than five minutes since the timestamp. */
  predicate NeedsRefetch(cached: Option<seq<FundEntry>>, timestamp: Option<int>, now: int) {
    cached.None? || timestamp.None? || timestamp.value == 0 || now - timestamp.value > CacheDuration
  }

  /** A cache filled at a non-zero time `t` is served for exactly 300000 ms:
      up to and including `t + 300000` nothing is refetched, one millisecond
      later the feed is fetched again. */
  lemma CacheLifetime(funds: seq<FundEntry>, t: int, later: int)
    requires t != 0
    ensures t <= later <= t + 300000 ==> !NeedsRefetch(Some(funds), Some(t), later)
    ensures later == t + 300001 ==> NeedsRefetch(Some(funds), Some(t), later)
  {
  }

  // ---------------------------------------------------------------------------
  // The payout-first record parser

  /** The ISIN rule of this parser: the payout ISIN when usable, otherwise the
      reinvestment ISIN when usable, trimmed either way. */
  function SelectIsinPayoutFirst(payout: string, reinvestment: string): Option<string> {
    if FetchMFData.UsableIsin(payout) then Some(Trim(payout))
    else if FetchMFData.UsableIsin(reinvestment) then Some(Trim(reinvestment))
    else None
  }

  /** A split record `[schemeCode, payoutIsin, reinvestmentIsin, name, nav,
      date, ...]` as a fund entry with an empty category list, or `None` when
      the record is dropped. */
  function ParseRecordPayoutFirst(parts: seq<string>): (r: Option<FundEntry>)
    ensures r.Some? ==> r.value.isin != "" && r.value.name != "" && r.value.category == CategoryList([])
  {
    if |parts| < 6 then None
    else
      match SelectIsinPayoutFirst(parts[1], parts[2])
      case None => None
      case Some(isin) =>
        if FetchMFData.FieldsUsable(parts[4], parts[5], parts[3]) then
          Some(FundEntry(isin, Trim(parts[3]), parts[4], parts[5], CategoryList([])))
        else None
  }

  /** ISIN choice: a usable payout ISIN wins even when the reinvestment ISIN
      is usable too; the reinvestment ISIN is taken only when the payout
      field is unusable; with neither usable the record is dropped. */
  lemma PayoutIsinPreferred(parts: seq<string>)
    requires |parts| >= 6
    ensures FetchMFData.UsableIsin(parts[1]) && ParseRecordPayoutFirst(parts).Some? ==>
              ParseRecordPayoutFirst(parts).value.isin == Trim(parts[1])
    ensures !FetchMFData.UsableIsin(parts[1]) && ParseRecordPayoutFirst(parts).Some? ==>
              ParseRecordPayoutFirst(parts).value.isin == Trim(parts[2])
    ensures !FetchMFData.UsableIsin(parts[1]) && !FetchMFData.UsableIsin(parts[2]) ==>
              ParseRecordPayoutFirst(parts) == None
  {
  }

  /** Two entries with the same trimmed name and the same NAV and date text:
      the ISIN and the category may differ. */
  predicate SameButIsin(a: FundEntry, b: FundEntry) {
    a.name == b.name && a.nav == b.nav && a.navDate == b.navDate
  }

  /** This parser and the one of util/fetchMFData.js keep and drop the same
      records, and build them from the same trimmed name and the same NAV and
      date text (util/fetchMFData.js then stores `parseFloat` of the NAV text,
      this parser the text itself, which the model does not cast). Their ISINs
      differ only when both ISIN fields are usable: this one takes the
      payout ISIN, the other the reinvestment ISIN. */
  lemma ParsersDifferOnlyInIsin(parts: seq<string>)
    ensures ParseRecordPayoutFirst(parts).Some? <==> FetchMFData.ParseRecord(parts).Some?
    ensures ParseRecordPayoutFirst(parts).Some? ==>
              SameButIsin(ParseRecordPayoutFirst(parts).value, FetchMFData.ParseRecord(parts).value)
    ensures ParseRecordPayoutFirst(parts).Some? && !(FetchMFData.UsableIsin(parts[1]) && FetchMFData.UsableIsin(parts[2])) ==>
              ParseRecordPayoutFirst(parts).value.isin == FetchMFData.ParseRecord(parts).value.isin
    ensures ParseRecordPayoutFirst(parts).Some? && FetchMFData.UsableIsin(parts[1]) && FetchMFData.UsableIsin(parts[2]) ==>
              ParseRecordPayoutFirst(parts).value.isin == Trim(parts[1])
              && FetchMFData.ParseRecord(parts).value.isin == Trim(parts[2])
  {
    if |parts| >= 6 && SelectIsinPayoutFirst(parts[1], parts[2]).Some? {
      assert !(parts[1] == "-" && parts[2] == "-");
    }
  }

  /** One kept line: split on `;`, then decoded. */
  function DecodeLine(line: string): Option<FundEntry> {
    ParseRecordPayoutFirst(Split(line, ';'))
  }

  /** The entries the kept lines give, in line order. */
  function ParsedFunds(lines: seq<string>): (r: seq<FundEntry>)
    ensures |r| <= |lines|
    decreases |lines|
  {
    if lines == [] then []
    else
      var pre := ParsedFunds(lines[..|lines| - 1]);
      match DecodeLine(lines[|lines| - 1])
      case None => pre
      case Some(e) => pre + [e]
  }

  /** Over the same lines both parsers give the same number of entries, and
      the k-th entries agree on everything but the ISIN. */
  lemma {:induction false} ParsedFundsMatch(lines: seq<string>)
    ensures |ParsedFunds(lines)| == |FetchMFData.ParsedFunds(lines)|
    ensures forall k | 0 <= k < |ParsedFunds(lines)| :: SameButIsin(ParsedFunds(lines)[k], FetchMFData.ParsedFunds(lines)[k])
    decreases |lines|
  {
    if lines != [] {
      var pre, l := lines[..|lines| - 1], lines[|lines| - 1];
      ParsedFundsMatch(pre);
      ParsersDifferOnlyInIsin(Split(l, ';'));
    }
  }

  /** The parse loop over the kept lines of the feed, pushing each entry. */
  method ParseFeed(feed: string) returns (parsedFunds: seq<FundEntry>)
    ensures parsedFunds == ParsedFunds(FetchMFData.FeedLines(feed))
  {
    var lines := FetchMFData.KeptLines(Split(feed, '\n'));
    parsedFunds := [];
    for i := 0 to |lines|
      invariant parsedFunds == ParsedFunds(lines[..i])
    {
      assert lines[..i + 1][..i] == lines[..i];
      var parts := Split(lines[i], ';');
      if |parts| >= 6 {
        var isin := SelectIsinPayoutFirst(parts[1], parts[2]);
        if isin.Some? && FetchMFData.FieldsUsable(parts[4], parts[5], parts[3]) {
          parsedFunds := parsedFunds + [FundEntry(isin.value, Trim(parts[3]), parts[4], parts[5], CategoryList([]))];
        }
      }
    }
    assert lines[..|lines|] == lines;
  }

  // ---------------------------------------------------------------------------
  // Search

  /** A fund matches a lowercased search text when the text occurs in its
      lowercased name, its lowercased ISIN, or one of its lowercased
      categories; a `null` category list has none. */
  predicate Matches(fund: FundEntry, searchLower: string) {
    Includes(ToLower(fund.name), searchLower) || Includes(ToLower(fund.isin), searchLower)
    || (fund.category.CategoryList? && exists c | c in fund.category.names :: Includes(ToLower(c), searchLower))
  }

  /** `funds.filter((fund) => Matches(fund, searchLower))`. */
  function FilterMatches(funds: seq<FundEntry>, searchLower: string): (r: seq<FundEntry>)
    ensures |r| <= |funds|
    ensures forall f :: f in r <==> f in funds && Matches(f, searchLower)
    decreases |funds|
  {
    if funds == [] then []
    else
      var pre := FilterMatches(funds[..|funds| - 1], searchLower);
      var f := funds[|funds| - 1];
      assert funds == funds[..|funds| - 1] + [f];
      if Matches(f, searchLower) then pre + [f] else pre
  }

  /** The search step: with an empty search every cached fund passes,
      otherwise exactly the funds that match the lowercased search text, in
      their cached order. */
  function SearchFilter(funds: seq<FundEntry>, search: string): (r: seq<FundEntry>)
    ensures search == "" ==> r == funds
    ensures forall f :: f in r <==> f in funds && (search == "" || Matches(f, ToLower(search)))
  {
    if search == "" then funds else FilterMatches(funds, ToLower(search))
  }

  /** The filter keeps order: filtering a concatenation filters each part. */
  lemma {:induction false} FilterMatchesAppend(a: seq<FundEntry>, b: seq<FundEntry>, searchLower: string)
    ensures FilterMatches(a + b, searchLower) == FilterMatches(a, searchLower) + FilterMatches(b, searchLower)
    decreases |b|
  {
    if b == [] {
      assert a + b == a;
    } else {
      var b', f := b[..|b| - 1], b[|b| - 1];
      assert (a + b)[..|a + b| - 1] == a + b';
      FilterMatchesAppend(a, b', searchLower);
    }
  }

  // ---------------------------------------------------------------------------
  // Pagination

  /** The `pagination` object. `totalPages` is `None` when `limit` is 0,
      where `Math.ceil(total / 0)` is not a finite number. */
  datatype Pagination = Pagination(page: int, limit: int, total: nat, totalPages: Option<int>, hasNext: bool, hasPrev: bool)

  /** The result: one page of funds and its pagination. */
  datatype NavPage = NavPage(data: seq<FundEntry>, pagination: Pagination)

  /** The page `page` of `limit` funds: the slice from `(page - 1) * limit`
      to `(page - 1) * limit + limit`. */
  function PageOf(funds: seq<FundEntry>, page: int, limit: int): NavPage {
    var total := |funds|;
    var startIndex := (page - 1) * limit;
    var endIndex := startIndex + limit;
    NavPage(Slice(funds, startIndex, endIndex),
            Pagination(page, limit, total, if limit == 0 then None else Some(CeilDiv(total, limit)),
                       endIndex < total, startIndex > 0))
  }

  /** For a page number and a page size of at least 1, the page holds the
      funds from index `(page - 1) * limit` on, in order, at most `limit` of
      them, and as many as remain up to that bound. */
  lemma PageContents(funds: seq<FundEntry>, page: int, limit: int)
    requires page >= 1 && limit >= 1
    ensures var data, start := PageOf(funds, page, limit).data, (page - 1) * limit;
            |data| <= limit
            && |data| == (if start >= |funds| then 0 else if |funds| - start < limit then |funds| - start else limit)
            && forall k | 0 <= k < |data| :: data[k] == funds[start + k]
  {
    MulMono(0, page - 1, limit);
  }

  /** For a page size of at least 1, `hasNext` holds exactly before the last
      page and `hasPrev` exactly after the first. */
  lemma PageFlags(funds: seq<FundEntry>, page: int, limit: int)
    requires limit >= 1
    ensures PageOf(funds, page, limit).pagination.hasNext <==> page < PageOf(funds, page, limit).pagination.totalPages.value
    ensures PageOf(funds, page, limit).pagination.hasPrev <==> page > 1
  {
    assert (page - 1) * limit + limit == page * limit;
    BeforeLastPage(page, limit, |funds|);
    AfterFirstPage(page, limit);
  }

  /** Every fund is on exactly the page its index says: fund `i` is item
      `i % limit` of page `i / limit + 1`. */
  lemma EveryFundOnItsPage(funds: seq<FundEntry>, limit: int, i: nat)
    requires limit >= 1 && i < |funds|
    ensures var data := PageOf(funds, i / limit + 1, limit).data;
            i % limit < |data| && data[i % limit] == funds[i]
  {
    var page := i / limit + 1;
    assert (page - 1) * limit == i - i % limit;
    PageContents(funds, page, limit);
  }

  // ---------------------------------------------------------------------------
  // The cache and the endpoint

  /** The module-level cache: the funds of the last fetch and when it was
      taken. */
  class NavCache {
    var cachedFunds: Option<seq<FundEntry>>
    var cacheTimestamp: Option<int>

    constructor ()
      ensures cachedFunds == None && cacheTimestamp == None
    {
      cachedFunds, cacheTimestamp := None, None;
    }

    /** `fetchAndPrintNAVs(page, limit, search)` at time `now`, with `feed` the
        text the AMFI request would return. When the cache needs a refetch,
        the feed is parsed, cached with the time `now` and written to the
        collection fund by fund; otherwise the cache and the collection are
        untouched. Either way the result is the requested page of the cached
        funds that pass the search. */
    method FetchAndPrintNAVs(feed: string, now: int, page: int, limit: int, search: string, store: FundStore)
      returns (result: NavPage)
      modifies this, store
      ensures NeedsRefetch(old(cachedFunds), old(cacheTimestamp), now) ==>
                cachedFunds == Some(ParsedFunds(FetchMFData.FeedLines(feed))) && cacheTimestamp == Some(now)
                && store.docs == FundsIntoMongo.AfterAll(old(store.docs), cachedFunds.value)
      ensures !NeedsRefetch(old(cachedFunds), old(cacheTimestamp), now) ==>
                cachedFunds == old(cachedFunds) && cacheTimestamp == old(cacheTimestamp) && store.docs == old(store.docs)
      ensures cachedFunds.Some? && result == PageOf(SearchFilter(cachedFunds.value, search), page, limit)
    {
      if cachedFunds.None? || cacheTimestamp.None? || cacheTimestamp.value == 0
         || now - cacheTimestamp.value > CacheDuration {
        var parsedFunds := ParseFeed(feed);
        cachedFunds := Some(parsedFunds);
        cacheTimestamp := Some(now);
        var _, _ := FundsIntoMongo.InsertFundsToMongo(store, parsedFunds);
      }
      var filteredFunds := cachedFunds.value;
      if search != "" {
        filteredFunds := FilterMatches(cachedFunds.value, ToLower(search));
      }
      result := PageOf(filteredFunds, page, limit);
    }
  }
}
