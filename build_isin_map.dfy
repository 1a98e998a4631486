/** `buildISINMap`: the rows of the "Instruments & Categorise" sheet become a
    map from ISIN to the instrument's name and its `AA Key` classification. */
module BuildIsinMap {
  import opened Wrappers
  import opened Js

  /** One sheet row, as `sheet_to_json` gives it, each of the three columns
      already turned into text by `toString()`. An absent cell is the empty
      text: `undefined` and `''` are both falsy in the row test, so the two
      are treated alike. */
  datatype Row = Row(isinCode: string, instrumentName: string, aaKey: string)

  /** What the map holds for an ISIN. */
  datatype IsinInfo = IsinInfo(name: string, assetClass: string, fundType: string, subCategory: string)

  /** `aaKey.split('-').map((s) => s.trim())`. */
  function AaKeyParts(aaKey: string): (r: seq<string>)
    ensures |r| == |Split(aaKey, '-')| >= 1
    ensures forall i | 0 <= i < |r| :: r[i] == Trim(Split(aaKey, '-')[i])
  {
    var pieces := Split(aaKey, '-');
    seq(|pieces|, i requires 0 <= i < |pieces| => Trim(pieces[i]))
  }

  /** The row test of line 15: an ISIN that starts with `INF`, a name and an
      `AA Key`, all non-empty after trimming. */
  predicate RowUsable(row: Row) {
    var isin := Trim(row.isinCode);
    isin != "" && StartsWith(isin, "INF") && Trim(row.instrumentName) != "" && Trim(row.aaKey) != ""
  }

  /** The entry a row writes into the map, if any: a usable row whose `AA Key`
      has at least three parts, classified by the first three. */
  function RowEntry(row: Row): Option<(string, IsinInfo)> {
    if !RowUsable(row) then None
    else
      var parts := AaKeyParts(Trim(row.aaKey));
      if |parts| >= 3 then Some((Trim(row.isinCode), IsinInfo(Trim(row.instrumentName), parts[0], parts[1], parts[2])))
      else None
  }

  /** A row writes an entry exactly when it passes the row test and its
      `AA Key` has at least three parts; the entry is keyed by the trimmed
      ISIN, which starts with `INF`, and holds the trimmed name and the first
      three parts. */
  lemma RowEntryRule(row: Row)
    ensures RowEntry(row).Some? <==> RowUsable(row) && |AaKeyParts(Trim(row.aaKey))| >= 3
    ensures RowEntry(row).Some? ==>
              var parts := AaKeyParts(Trim(row.aaKey));
              var e := RowEntry(row).value;
              e.0 == Trim(row.isinCode) && StartsWith(e.0, "INF") && e.0 != ""
              && e.1 == IsinInfo(Trim(row.instrumentName), parts[0], parts[1], parts[2])
              && e.1.name != ""
  {
  }

  /** The map after the rows, in order: each entry overwrites the one before
      with the same ISIN. */
  function IsinMapOf(rows: seq<Row>): map<string, IsinInfo>
    decreases |rows|
  {
    if rows == [] then map[]
    else
      var m := IsinMapOf(rows[..|rows| - 1]);
      match RowEntry(rows[|rows| - 1])
      case None => m
      case Some(e) => m[e.0 := e.1]
  }

  /** The ISINs of the rows that write an entry. */
  function AcceptedIsins(rows: seq<Row>): set<string> {
    set i | 0 <= i < |rows| && RowEntry(rows[i]).Some? :: RowEntry(rows[i]).value.0
  }

  lemma AcceptedIsinsSnoc(rows: seq<Row>, row: Row)
    ensures AcceptedIsins(rows + [row]) == AcceptedIsins(rows) + (if RowEntry(row).Some? then {RowEntry(row).value.0} else {})
  {
    var s := rows + [row];
    assert s[|rows|] == row;
    assert forall i | 0 <= i < |rows| :: s[i] == rows[i];
  }

  lemma IsinMapSnoc(rows: seq<Row>, row: Row)
    ensures IsinMapOf(rows + [row])
            == (match RowEntry(row) case None => IsinMapOf(rows) case Some(e) => IsinMapOf(rows)[e.0 := e.1])
  {
    assert (rows + [row])[..|rows|] == rows;
  }

  /** The map's keys are exactly the ISINs of the accepted rows. */
  lemma {:induction false} IsinMapKeys(rows: seq<Row>)
    ensures IsinMapOf(rows).Keys == AcceptedIsins(rows)
    decreases |rows|
  {
    if rows != [] {
      var pre, row := rows[..|rows| - 1], rows[|rows| - 1];
      assert rows == pre + [row];
      AcceptedIsinsSnoc(pre, row);
      IsinMapSnoc(pre, row);
      IsinMapKeys(pre);
    }
  }

  /** Every key of the map starts with `INF`. */
  lemma IsinMapKeysAreFunds(rows: seq<Row>)
    ensures forall k | k in IsinMapOf(rows) :: StartsWith(k, "INF")
  {
    IsinMapKeys(rows);
    forall k | k in IsinMapOf(rows) ensures StartsWith(k, "INF") {
      var i :| 0 <= i < |rows| && RowEntry(rows[i]).Some? && RowEntry(rows[i]).value.0 == k;
      RowEntryRule(rows[i]);
    }
  }

  /** No row after the one at `i` writes an entry for `isin`. */
  predicate NoLaterEntry(rows: seq<Row>, i: nat, isin: string) {
    forall j | i < j < |rows| :: RowEntry(rows[j]).None? || RowEntry(rows[j]).value.0 != isin
  }

  /** A later accepted row with the same ISIN overwrites an earlier one: the
      map holds what the last accepted row for an ISIN wrote. */
  lemma {:induction false} LastRowWins(rows: seq<Row>, i: nat, isin: string, info: IsinInfo)
    requires i < |rows| && RowEntry(rows[i]) == Some((isin, info))
    requires NoLaterEntry(rows, i, isin)
    ensures isin in IsinMapOf(rows) && IsinMapOf(rows)[isin] == info
    decreases |rows|
  {
    var pre, row := rows[..|rows| - 1], rows[|rows| - 1];
    if i < |rows| - 1 {
      assert RowEntry(row).None? || RowEntry(row).value.0 != isin;
      assert pre[i] == rows[i];
      assert NoLaterEntry(pre, i, isin) by {
        forall j | i < j < |pre| ensures RowEntry(pre[j]).None? || RowEntry(pre[j]).value.0 != isin {
          assert pre[j] == rows[j];
        }
      }
      LastRowWins(pre, i, isin, info);
    }
  }

  /** Parts of the `AA Key` past the third are ignored: appending `-` and
      anything to a key that already has three parts leaves the first three
      parts as they were. */
  lemma ExtraPartsIgnored(aaKey: string, rest: string)
    requires |AaKeyParts(aaKey)| >= 3
    ensures |AaKeyParts(aaKey + "-" + rest)| >= 3
    ensures AaKeyParts(aaKey + "-" + rest)[..3] == AaKeyParts(aaKey)[..3]
  {
    SplitConcat(aaKey, rest, '-');
    assert aaKey + "-" + rest == aaKey + ['-'] + rest;
  }

  lemma IsinMapStep(rows: seq<Row>, i: nat)
    requires i < |rows|
    ensures IsinMapOf(rows[..i + 1])
            == (match RowEntry(rows[i]) case None => IsinMapOf(rows[..i]) case Some(e) => IsinMapOf(rows[..i])[e.0 := e.1])
  {
    assert rows[..i + 1][..i] == rows[..i];
  }

  /** `rows.forEach(...)` writing into `isinMap`. */
  method BuildISINMap(rows: seq<Row>) returns (isinMap: map<string, IsinInfo>)
    ensures isinMap == IsinMapOf(rows)
    ensures isinMap.Keys == AcceptedIsins(rows)
  {
    isinMap := map[];
    for index := 0 to |rows|
      invariant isinMap == IsinMapOf(rows[..index])
    {
      IsinMapStep(rows, index);
      var row := rows[index];
      var isin := Trim(row.isinCode);
      var name := Trim(row.instrumentName);
      var aaKey := Trim(row.aaKey);
      if isin != "" && StartsWith(isin, "INF") && name != "" && aaKey != "" {
        var parts := AaKeyParts(aaKey);
        if |parts| >= 3 {
          isinMap := isinMap[isin := IsinInfo(name, parts[0], parts[1], parts[2])];
        }
      }
    }
    assert rows[..|rows|] == rows;
    IsinMapKeys(rows);
  }
}
