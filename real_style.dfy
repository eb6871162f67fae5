/** real_data_app.py, the row-styling loop of `export_mapping`: a style class
    per row chosen from its level, item name and tag, and the count cell
    blanked on header rows. */
module RealStyle {
  import opened Wrappers
  import opened Rows
  import opened Period
  import opened Grouping
  import opened RealReport

  /** The style of one row (fonts and fills stand for the class they pick). */
  function RowStyle(r: Row): (s: Style)
    ensures r.level == 1 ==> (s == BranchTotalStyle <==> Contains(r.itemName, TotalWord))
    ensures r.level == 1 <==> s in {BranchTotalStyle, BranchHeaderStyle}
    ensures r.level == 2 <==> s == AccountStyle
    ensures r.level == 3 <==> s in {SubtotalStyle, NewStyle, UpdateStyle, LeafStyle}
    ensures r.level == 3 ==> (s == SubtotalStyle <==> r.tag == TagSubtotal)
    ensures r.level == 3 ==> (s == NewStyle <==> r.tag == TagNew)
    ensures r.level == 3 ==> (s == UpdateStyle <==> r.tag == TagUpdate)
    ensures s == SeparatorStyle <==> r.level !in {1, 2, 3}
  {
    if r.level == 1 then
      (if Contains(r.itemName, TotalWord) then BranchTotalStyle else BranchHeaderStyle)
    else if r.level == 2 then AccountStyle
    else if r.level == 3 then
      (if r.tag == TagSubtotal then SubtotalStyle
       else if r.tag == TagNew then NewStyle
       else if r.tag == TagUpdate then UpdateStyle
       else LeafStyle)
    else SeparatorStyle
  }

  /** What the count cell of a row holds once styled: emptied on level 1 and
      level 2 rows whose item name lacks 合計. */
  function ShownCount(r: Row): (c: Cell)
    ensures c == r.count || c == Blank
    ensures c != r.count ==> r.level in {1, 2} && r.count.Count?
    ensures r.level !in {1, 2} || Contains(r.itemName, TotalWord) ==> c == r.count
  {
    if r.level in {1, 2} && !Contains(r.itemName, TotalWord) then Blank else r.count
  }

  /** The styling loop: one style and one shown count per row, in order. */
  method StyleRows(rows: seq<Row>) returns (styles: seq<Style>, shown: seq<Cell>)
    ensures |styles| == |rows| && |shown| == |rows|
    ensures forall i :: 0 <= i < |rows| ==> styles[i] == RowStyle(rows[i]) && shown[i] == ShownCount(rows[i])
  {
    styles, shown := [], [];
    for i := 0 to |rows|
      invariant |styles| == i && |shown| == i
      invariant forall j :: 0 <= j < i ==> styles[j] == RowStyle(rows[j]) && shown[j] == ShownCount(rows[j])
    {
      var level := rows[i].level;
      var itemName := rows[i].itemName;
      var typeName := rows[i].tag;
      var style;
      if level == 1 {
        if Contains(itemName, TotalWord) {
          style := BranchTotalStyle;
        } else {
          style := BranchHeaderStyle;
        }
      } else if level == 2 {
        style := AccountStyle;
      } else if level == 3 {
        if typeName == TagSubtotal {
          style := SubtotalStyle;
        } else if typeName == TagNew {
          style := NewStyle;
        } else if typeName == TagUpdate {
          style := UpdateStyle;
        } else {
          style := LeafStyle;
        }
      } else {
        style := SeparatorStyle;
      }
      var cell := rows[i].count;
      if level in {1, 2} && !Contains(itemName, TotalWord) {
        cell := Blank;
      }
      styles := styles + [style];
      shown := shown + [cell];
    }
  }

  /** Every row keeps its own count cell once styled. */
  predicate CountsKept(rows: seq<Row>) {
    forall i :: 0 <= i < |rows| ==> ShownCount(rows[i]) == rows[i].count
  }

  lemma CountsKeptAppend(a: seq<Row>, b: seq<Row>)
    requires CountsKept(a) && CountsKept(b)
    ensures CountsKept(a + b)
  {
    forall i | 0 <= i < |a + b| ensures ShownCount((a + b)[i]) == (a + b)[i].count {
      if i >= |a| {
        assert (a + b)[i] == b[i - |a|];
      }
    }
  }

  /** The item name of a 支店合計 row contains 合計, whatever the branch is called. */
  lemma TotalRowNamesTotal(areaName: string)
    ensures Contains("└─ " + areaName + " 合計", TotalWord)
  {
    assert "└─ " + areaName + " 合計" == ("└─ " + areaName + " ") + TotalWord;
    ContainsSuffix("└─ " + areaName + " ", TotalWord);
  }

  lemma {:induction false} AccountsRowsCountsKept(area: AreaWithAccounts, accounts: seq<MappingItem>, req: Request)
    ensures CountsKept(AccountsRows(area, accounts, req))
  {
    if accounts != [] {
      var n := |accounts|;
      AccountsRowsCountsKept(area, accounts[..n - 1], req);
      AccountBlockLayout(area, accounts[n - 1], req);
      CountsKeptAppend(AccountsRows(area, accounts[..n - 1], req), AccountBlock(area, accounts[n - 1], req));
    }
  }

  lemma BranchCountsKept(area: AreaWithAccounts, req: Request)
    ensures CountsKept(BranchRows(area, req))
  {
    if area.accounts != [] {
      var t := BranchTotals(area, area.accounts, req);
      var head := [BranchHeader(area)];
      var middle := AccountsRows(area, area.accounts, req);
      var tail := [BranchTotalRow(area, t.newCount + t.updateCount + t.unassignedCount, NoteDate(req)), SeparatorRow];
      AccountsRowsCountsKept(area, area.accounts, req);
      TotalRowNamesTotal(area.areaName);
      assert CountsKept(tail);
      CountsKeptAppend(head, middle);
      CountsKeptAppend(head + middle, tail);
    }
  }

  /** On a sheet built by `generate_hierarchical_excel_data`, blanking never
      hides a number: the rows it empties are the headers, whose count is
      already empty, and the 支店合計 rows always name 合計. */
  lemma {:induction false} ReportCountsKept(areas: seq<AreaWithAccounts>, req: Request)
    ensures CountsKept(Report(areas, req))
  {
    if areas != [] {
      ReportCountsKept(areas[..|areas| - 1], req);
      BranchCountsKept(areas[|areas| - 1], req);
      CountsKeptAppend(Report(areas[..|areas| - 1], req), BranchRows(areas[|areas| - 1], req));
    }
  }

  /** `合計 in "📍 " + name` exactly when `合計 in name`. */
  lemma HeaderNameContains(areaName: string)
    ensures Contains("📍 " + areaName, TotalWord) == Contains(areaName, TotalWord)
  {
    assert "📍 " + areaName == ['📍'] + ([' '] + areaName);
    ContainsAfterFirst('📍', [' '] + areaName, TotalWord);
    ContainsAfterFirst(' ', areaName, TotalWord);
  }

  /** The styles of one account block: account, 新規, 更新, plain leaf, 小計. */
  lemma BlockStyles(b: seq<Row>, account: MappingItem, counts: Result<PeriodCounts, PeriodError>)
    requires IsAccountBlock(b, account, counts)
    ensures RowStyle(b[0]) == AccountStyle && RowStyle(b[1]) == NewStyle && RowStyle(b[2]) == UpdateStyle
    ensures RowStyle(b[3]) == LeafStyle && RowStyle(b[4]) == SubtotalStyle
  {
    TagsDistinct();
  }

  /** The header, 支店合計 and separator styles of a branch. */
  lemma BranchEndStyles(area: AreaWithAccounts, req: Request)
    requires area.accounts != []
    ensures var rows := BranchRows(area, req);
      var k := |area.accounts|;
      && |rows| == 5 * k + 3
      && (RowStyle(rows[0]) == BranchHeaderStyle <==> !Contains(area.areaName, TotalWord))
      && (RowStyle(rows[0]) == BranchTotalStyle <==> Contains(area.areaName, TotalWord))
      && RowStyle(rows[5 * k + 1]) == BranchTotalStyle
      && RowStyle(rows[5 * k + 2]) == SeparatorStyle
  {
    var rows := BranchRows(area, req);
    var k := |area.accounts|;
    var t := BranchTotals(area, area.accounts, req);
    AccountsRowsLayout(area, area.accounts, req);
    HeaderNameContains(area.areaName);
    TotalRowNamesTotal(area.areaName);
    assert rows[0] == BranchHeader(area);
    assert rows[5 * k + 1] == BranchTotalRow(area, t.newCount + t.updateCount + t.unassignedCount, NoteDate(req));
    assert rows[5 * k + 2] == SeparatorRow;
  }

  /** The styles of the account blocks of a branch. */
  lemma BranchBlockStyles(area: AreaWithAccounts, req: Request)
    requires area.accounts != []
    ensures var rows := BranchRows(area, req);
      var k := |area.accounts|;
      && |rows| == 5 * k + 3
      && forall j :: 0 <= j < k ==>
            RowStyle(rows[1 + 5 * j]) == AccountStyle && RowStyle(rows[2 + 5 * j]) == NewStyle
            && RowStyle(rows[3 + 5 * j]) == UpdateStyle && RowStyle(rows[4 + 5 * j]) == LeafStyle
            && RowStyle(rows[5 + 5 * j]) == SubtotalStyle
  {
    var rows := BranchRows(area, req);
    var k := |area.accounts|;
    BranchLayout(area, req);
    forall j | 0 <= j < k
      ensures RowStyle(rows[1 + 5 * j]) == AccountStyle && RowStyle(rows[2 + 5 * j]) == NewStyle
            && RowStyle(rows[3 + 5 * j]) == UpdateStyle && RowStyle(rows[4 + 5 * j]) == LeafStyle
            && RowStyle(rows[5 + 5 * j]) == SubtotalStyle
    {
      var b := rows[1 + 5 * j .. 6 + 5 * j];
      BlockStyles(b, area.accounts[j], AccountCounts(area, area.accounts[j], req));
      assert rows[1 + 5 * j] == b[0] && rows[2 + 5 * j] == b[1] && rows[3 + 5 * j] == b[2];
      assert rows[4 + 5 * j] == b[3] && rows[5 + 5 * j] == b[4];
    }
  }

  /** The styles down one branch: header, then per account the account style
      and 新規, 更新, plain leaf and 小計 styles, then the total style and the
      separator style. The header gets the header style exactly when the
      branch name does not itself contain 合計. */
  lemma BranchStyles(area: AreaWithAccounts, req: Request)
    requires area.accounts != []
    ensures var rows := BranchRows(area, req);
      var k := |area.accounts|;
      && |rows| == 5 * k + 3
      && (RowStyle(rows[0]) == BranchHeaderStyle <==> !Contains(area.areaName, TotalWord))
      && (RowStyle(rows[0]) == BranchTotalStyle <==> Contains(area.areaName, TotalWord))
      && (forall j :: 0 <= j < k ==>
            RowStyle(rows[1 + 5 * j]) == AccountStyle && RowStyle(rows[2 + 5 * j]) == NewStyle
            && RowStyle(rows[3 + 5 * j]) == UpdateStyle && RowStyle(rows[4 + 5 * j]) == LeafStyle
            && RowStyle(rows[5 + 5 * j]) == SubtotalStyle)
      && RowStyle(rows[5 * k + 1]) == BranchTotalStyle
      && RowStyle(rows[5 * k + 2]) == SeparatorStyle
  {
    BranchEndStyles(area, req);
    BranchBlockStyles(area, req);
  }
}
