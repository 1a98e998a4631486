/** The parser of the AMFI `NAVAll.txt` feed: the text is split into lines,
    formatting lines are filtered out, and every remaining line that is a
    well-formed `;`-separated record becomes a fund entry. The HTTP request
    that fetches the text is not modelled: the text is the input. */
module FetchMFData {
  import opened Wrappers
  import opened Js
  import opened MutualFundModel

  // ---------------------------------------------------------------------------
  // Line filter

  /** Lines kept for parsing: not blank after trimming, and not starting
      (before trimming) with the column-header or separator tokens. */
  predicate KeepLine(line: string) {
    Trim(line) != "" && !StartsWith(line, "Scheme Code") && !StartsWith(line, "--")
  }

  /** `lines.filter(KeepLine)`: the kept lines, in their original order. */
  function KeptLines(raw: seq<string>): (r: seq<string>)
    ensures |r| <= |raw|
    ensures forall l :: l in r <==> l in raw && KeepLine(l)
    decreases |raw|
  {
    if raw == [] then []
    else
      var l := raw[|raw| - 1];
      var pre := KeptLines(raw[..|raw| - 1]);
      assert raw == raw[..|raw| - 1] + [l];
      if KeepLine(l) then pre + [l] else pre
  }

  lemma {:induction false} KeptLinesAppend(a: seq<string>, b: seq<string>)
    ensures KeptLines(a + b) == KeptLines(a) + KeptLines(b)
    decreases |b|
  {
    if b == [] {
      assert a + b == a;
    } else {
      var b' := b[..|b| - 1];
      assert (a + b)[..|a + b| - 1] == a + b';
      assert (a + b)[|a + b| - 1] == b[|b| - 1];
      KeptLinesAppend(a, b');
    }
  }

  /** The lines of the feed text that reach the record parser. */
  function FeedLines(text: string): seq<string> {
    KeptLines(Split(text, '\n'))
  }

  // ---------------------------------------------------------------------------
  // One record

  /** An ISIN field `fetchMFData` accepts: not blank after trimming and not
      exactly the placeholder `-`. */
  predicate UsableIsin(field: string) {
    Trim(field) != "" && field != "-"
  }

  /** The ISIN of a record: the reinvestment ISIN when usable, otherwise the
      payout ISIN when usable, trimmed either way. */
  function SelectIsin(payout: string, reinvestment: string): Option<string> {
    if UsableIsin(reinvestment) then Some(Trim(reinvestment))
    else if UsableIsin(payout) then Some(Trim(payout))
    else None
  }

  /** The checks on NAV, date and scheme name a record must pass: NAV not
      blank, not `N.A.`, and read as a number by `parseFloat`; date and name
      not blank. The date is never checked for validity. */
  predicate FieldsUsable(nav: string, date: string, name: string) {
    Trim(nav) != "" && Trim(nav) != "N.A." && ParseFloatIsNumber(nav)
    && Trim(date) != "" && Trim(name) != ""
  }

  /** A split record `[schemeCode, payoutIsin, reinvestmentIsin, name, nav,
      date, ...]` as a fund entry, or `None` when `fetchMFData` drops it. An
      entry always has a non-empty ISIN and name and a `null` category. */
  function ParseRecord(parts: seq<string>): (r: Option<FundEntry>)
    ensures r.Some? ==> r.value.isin != "" && r.value.name != "" && r.value.category == NullCategory
  {
    if |parts| < 6 then None
    else
      var payout, reinvestment, name, nav, date := parts[1], parts[2], parts[3], parts[4], parts[5];
      if payout == "-" && reinvestment == "-" then None
      else
        match SelectIsin(payout, reinvestment)
        case None => None
        case Some(isin) =>
          if FieldsUsable(nav, date, name) then Some(FundEntry(isin, Trim(name), nav, date, NullCategory))
          else None
  }

  /** One kept line: split on `;`, then decoded. */
  function DecodeLine(line: string): Option<FundEntry> {
    ParseRecord(Split(line, ';'))
  }

  // ---------------------------------------------------------------------------
  // The whole feed

  /** The entries the kept lines give, in line order; never more entries
      than lines. */
  function ParsedFunds(lines: seq<string>): (r: seq<FundEntry>)
    ensures |r| <= |lines|
    decreases |lines|
  {
    if lines == [] then []
    else ParsedFunds(lines[..|lines| - 1]) + Emitted(lines[|lines| - 1])
  }

  /** Every entry comes from one of the lines it was parsed from. */
  lemma {:induction false} ParsedFundsOrigin(lines: seq<string>)
    ensures forall e | e in ParsedFunds(lines) :: exists l | l in lines :: DecodeLine(l) == Some(e)
    decreases |lines|
  {
    if lines != [] {
      var pre, l := lines[..|lines| - 1], lines[|lines| - 1];
      ParsedFundsOrigin(pre);
      assert forall x | x in pre :: x in lines;
      forall e | e in ParsedFunds(lines) ensures exists l | l in lines :: DecodeLine(l) == Some(e) {
        if e in ParsedFunds(pre) {
          var x :| x in pre && DecodeLine(x) == Some(e);
          assert x in lines;
        } else {
          assert e in Emitted(l);
        }
      }
    }
  }

  /** What one kept line adds to the output: its entry, if it decodes. */
  function Emitted(line: string): (r: seq<FundEntry>)
    ensures |r| <= 1
    ensures forall e | e in r :: DecodeLine(line) == Some(e)
  {
    match DecodeLine(line)
    case None => []
    case Some(e) => [e]
  }

  /** `fetchMFData` after the response arrives: filter the lines, then push
      the entry of every line that decodes. */
  method FetchMFData(feed: string) returns (parsedFunds: seq<FundEntry>)
    ensures parsedFunds == ParsedFunds(FeedLines(feed))
  {
    var lines := KeptLines(Split(feed, '\n'));
    parsedFunds := [];
    for i := 0 to |lines|
      invariant parsedFunds == ParsedFunds(lines[..i])
    {
      assert lines[..i + 1][..i] == lines[..i];
      var entry := DecodeLine(lines[i]);
      if entry.Some? {
        parsedFunds := parsedFunds + [entry.value];
      }
      assert parsedFunds == ParsedFunds(lines[..i]) + Emitted(lines[i]);
    }
    assert lines[..|lines|] == lines;
  }

  // ---------------------------------------------------------------------------
  // Properties

  /** Parsing respects line order: the entries of a concatenation are the
      entries of the first part followed by those of the second. */
  lemma ParsedFundsSnoc(lines: seq<string>, l: string)
    ensures ParsedFunds(lines + [l]) == ParsedFunds(lines) + Emitted(l)
  {
    assert (lines + [l])[..|lines|] == lines;
  }

  lemma {:induction false} ParsedFundsAppend(a: seq<string>, b: seq<string>)
    ensures ParsedFunds(a + b) == ParsedFunds(a) + ParsedFunds(b)
    decreases |b|
  {
    if b == [] {
      assert a + b == a;
    } else {
      var b', l := b[..|b| - 1], b[|b| - 1];
      assert b == b' + [l];
      assert a + b == (a + b') + [l];
      ParsedFundsAppend(a, b');
      ParsedFundsSnoc(a + b', l);
      ParsedFundsSnoc(b', l);
    }
  }

  /** A filtered line (blank, a column header or a separator) contributes no
      entry wherever it stands among the raw lines. */
  lemma FilteredLineYieldsNothing(before: seq<string>, line: string, after: seq<string>)
    requires !KeepLine(line)
    ensures ParsedFunds(KeptLines(before + [line] + after)) == ParsedFunds(KeptLines(before + after))
  {
    KeptLinesAppend(before + [line], after);
    KeptLinesAppend(before, [line]);
    KeptLinesAppend(before, after);
    assert KeptLines([line]) == [];
    assert KeptLines(before) + [] == KeptLines(before);
  }

  /** A line with fewer than five `;` (fewer than six fields) gives no entry. */
  lemma FewFieldsYieldNothing(line: string)
    requires Count(line, ';') < 5
    ensures DecodeLine(line) == None
  {
    SplitLength(line, ';');
  }

  /** Fields after the sixth never matter. */
  lemma ExtraFieldsIgnored(parts: seq<string>)
    requires |parts| >= 6
    ensures ParseRecord(parts) == ParseRecord(parts[..6])
  {
  }

  /** ISIN choice: a usable reinvestment ISIN wins even when the payout ISIN
      is usable too; the payout ISIN is taken only when the reinvestment
      field is unusable; with neither usable the record is dropped. */
  lemma IsinSelection(parts: seq<string>)
    requires |parts| >= 6
    ensures UsableIsin(parts[2]) && ParseRecord(parts).Some? ==> ParseRecord(parts).value.isin == Trim(parts[2])
    ensures !UsableIsin(parts[2]) && ParseRecord(parts).Some? ==> ParseRecord(parts).value.isin == Trim(parts[1])
    ensures !UsableIsin(parts[1]) && !UsableIsin(parts[2]) ==> ParseRecord(parts) == None
  {
  }

  /** The drop rules: each of these alone makes a record give no entry, and a
      record that passes them all gives exactly the entry built from its
      fields. */
  lemma DropRules(parts: seq<string>)
    requires |parts| >= 6
    ensures Trim(parts[4]) == "" ==> ParseRecord(parts) == None
    ensures Trim(parts[4]) == "N.A." ==> ParseRecord(parts) == None
    ensures !ParseFloatIsNumber(parts[4]) ==> ParseRecord(parts) == None
    ensures Trim(parts[5]) == "" ==> ParseRecord(parts) == None
    ensures Trim(parts[3]) == "" ==> ParseRecord(parts) == None
    ensures FieldsUsable(parts[4], parts[5], parts[3]) && SelectIsin(parts[1], parts[2]).Some? ==>
              ParseRecord(parts) == Some(FundEntry(SelectIsin(parts[1], parts[2]).value, Trim(parts[3]),
                                                   parts[4], parts[5], NullCategory))
  {
    if SelectIsin(parts[1], parts[2]).Some? {
      assert !(parts[1] == "-" && parts[2] == "-");
    }
  }
}
