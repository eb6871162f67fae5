/** excel_only_app.py, the row-styling loop of the Excel export (lines
    1064-1101): a style class per row chosen from its level and its tag, and
    the count column right-aligned where it holds a number. */
module ExcelOnlyStyle {
  import opened Rows
  import opened Grouping
  import opened ExcelOnlyReport

  /** The style of one row (fonts and fills stand for the class they pick). */
  function RowStyle(r: Row): (s: Style)
    ensures r.level == 1 <==> s in {BranchTotalStyle, BranchHeaderStyle}
    ensures r.level == 1 ==> (s == BranchTotalStyle <==> r.tag == TagBranchTotal)
    ensures r.level == 2 <==> s in {SubtotalStyle, AccountStyle}
    ensures r.level == 2 ==> (s == SubtotalStyle <==> r.tag == TagSubtotal)
    ensures r.level == 3 <==> s == LeafStyle
    ensures s == SeparatorStyle <==> r.level !in {1, 2, 3}
  {
    if r.level == 1 then (if r.tag == TagBranchTotal then BranchTotalStyle else BranchHeaderStyle)
    else if r.level == 2 then (if r.tag == TagSubtotal then SubtotalStyle else AccountStyle)
    else if r.level == 3 then LeafStyle
    else SeparatorStyle
  }

  /** The count column is right-aligned when it is not ''. */
  predicate RightAligned(r: Row) {
    r.count != Blank
  }

  /** The styling loop: one style and one alignment per row, in order. */
  method StyleRows(rows: seq<Row>) returns (styles: seq<Style>, right: seq<bool>)
    ensures |styles| == |rows| && |right| == |rows|
    ensures forall i :: 0 <= i < |rows| ==> styles[i] == RowStyle(rows[i]) && (right[i] <==> RightAligned(rows[i]))
  {
    styles, right := [], [];
    for i := 0 to |rows|
      invariant |styles| == i && |right| == i
      invariant forall j :: 0 <= j < i ==> styles[j] == RowStyle(rows[j]) && (right[j] <==> RightAligned(rows[j]))
    {
      var level := rows[i].level;
      var typeValue := rows[i].tag;
      var style;
      if level == 1 {
        if typeValue == TagBranchTotal {
          style := BranchTotalStyle;
        } else {
          style := BranchHeaderStyle;
        }
      } else if level == 2 {
        if typeValue == TagSubtotal {
          style := SubtotalStyle;
        } else {
          style := AccountStyle;
        }
      } else if level == 3 {
        style := LeafStyle;
      } else {
        style := SeparatorStyle;
      }
      styles := styles + [style];
      right := right + [rows[i].count != Blank];
    }
  }

  /** The styles down one branch of either builder's sheet: header style,
      then per account the account, leaf, leaf and 小計 styles, then the
      total and separator styles; exactly the 新規, 更新, 小計 and 支店合計
      rows are right-aligned. */
  lemma BranchStyles(g: AreaGroup, first: nat, cfg: Config)
    ensures var rows := BranchRows(g, first, cfg);
      var k := |g.accounts|;
      && |rows| == 4 * k + 3
      && RowStyle(rows[0]) == BranchHeaderStyle && !RightAligned(rows[0])
      && (forall j :: 0 <= j < k ==>
            && RowStyle(rows[1 + 4 * j]) == AccountStyle && !RightAligned(rows[1 + 4 * j])
            && RowStyle(rows[2 + 4 * j]) == LeafStyle && RightAligned(rows[2 + 4 * j])
            && RowStyle(rows[3 + 4 * j]) == LeafStyle && RightAligned(rows[3 + 4 * j])
            && RowStyle(rows[4 + 4 * j]) == SubtotalStyle && RightAligned(rows[4 + 4 * j]))
      && RowStyle(rows[4 * k + 1]) == BranchTotalStyle && RightAligned(rows[4 * k + 1])
      && RowStyle(rows[4 * k + 2]) == SeparatorStyle && !RightAligned(rows[4 * k + 2])
  {
    var rows := BranchRows(g, first, cfg);
    var k := |g.accounts|;
    BranchLayout(g, first, cfg);
    TagsDistinct();
    forall j | 0 <= j < k
      ensures && RowStyle(rows[1 + 4 * j]) == AccountStyle && !RightAligned(rows[1 + 4 * j])
              && RowStyle(rows[2 + 4 * j]) == LeafStyle && RightAligned(rows[2 + 4 * j])
              && RowStyle(rows[3 + 4 * j]) == LeafStyle && RightAligned(rows[3 + 4 * j])
              && RowStyle(rows[4 + 4 * j]) == SubtotalStyle && RightAligned(rows[4 + 4 * j])
    {
      var b := rows[1 + 4 * j .. 5 + 4 * j];
      assert IsAccountBlock(b, g.accounts[j], first + j, cfg);
      assert rows[1 + 4 * j] == b[0] && rows[2 + 4 * j] == b[1];
      assert rows[3 + 4 * j] == b[2] && rows[4 + 4 * j] == b[3];
    }
    assert rows[4 * k + 1] == BranchTotalRow(g, AreaTotal(g.accounts, first, cfg), cfg);
  }
}
