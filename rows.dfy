/** The five-column report row that every builder appends to `hierarchical_data`
    (level, item name, type tag, count, note), the tag values the builders and the
    style lookups test, and sums over the count column. */
module Rows {

  /** The count column: a number, or '' on header and separator rows. */
  datatype Cell = Blank | Count(n: nat)

  /** The note column. Its wording is not modelled, only what it refers to. */
  datatype Note =
    | NoNote                                                    // ''
    | BranchIdNote(areaId: int)                                 // 支店ID: {area_id}
    | AccountIdNote(accountId: int)                             // アカウントID: {account_id}
    | PeriodDataNote(tag: string, period: string, failed: bool) // {period}の全データ（…）, （エラー） when failed
    | ApportionedNote(period: string, shownTotal: nat)          // {period}の実データ（全体{total}件を按分）
    | MeasuredNote(period: string)                              // {period}の実データ
    | AccountTotalNote(accountName: string, period: string, failed: bool) // {account}の{period}合計
    | BranchTotalNote(areaName: string, period: string)         // {area}の{period}総計

  datatype Row = Row(level: int, itemName: string, tag: string, count: Cell, note: Note)

  /** The style classes of the spreadsheet rows (fonts and fills are not modelled). */
  datatype Style =
    | BranchHeaderStyle | BranchTotalStyle | AccountStyle | SubtotalStyle
    | NewStyle | UpdateStyle | LeafStyle | SeparatorStyle

  const TagNew: string := "新規"
  const TagUpdate: string := "更新"
  const TagUnassigned: string := "振り分けなし"
  const TagSubtotal: string := "小計"
  const TagBranchTotal: string := "支店合計"
  /** The word the real_data_app style lookup searches for in an item name. */
  const TotalWord: string := "合計"

  /** The five type tags are pairwise different and none is empty. */
  lemma TagsDistinct()
    ensures var tags := [TagNew, TagUpdate, TagUnassigned, TagSubtotal, TagBranchTotal];
      forall i, j :: 0 <= i < j < |tags| ==> tags[i] != tags[j]
    ensures "" !in {TagNew, TagUpdate, TagUnassigned, TagSubtotal, TagBranchTotal}
  {
    var tags := [TagNew, TagUpdate, TagUnassigned, TagSubtotal, TagBranchTotal];
    forall i, j | 0 <= i < j < |tags| ensures tags[i] != tags[j] {
      assert tags[i][0] != tags[j][0];
    }
  }

  /** The empty row that closes every branch. */
  const SeparatorRow: Row := Row(0, "", "", Blank, NoNote)

  function CountOf(c: Cell): nat {
    if c.Count? then c.n else 0
  }

  /** What one row adds to the sum of the rows tagged `t`. */
  function TagCount(r: Row, t: string): nat {
    if r.tag == t then CountOf(r.count) else 0
  }

  /** The sum of the count column over the rows tagged `t`. */
  function SumTagged(rows: seq<Row>, t: string): nat {
    if rows == [] then 0 else SumTagged(rows[..|rows| - 1], t) + TagCount(rows[|rows| - 1], t)
  }

  lemma {:induction false} SumTaggedAppend(a: seq<Row>, b: seq<Row>, t: string)
    ensures SumTagged(a + b, t) == SumTagged(a, t) + SumTagged(b, t)
  {
    if b != [] {
      assert (a + b)[..|a + b| - 1] == a + b[..|b| - 1];
      assert (a + b)[|a + b| - 1] == b[|b| - 1];
      SumTaggedAppend(a, b[..|b| - 1], t);
    } else {
      assert a + b == a;
    }
  }

  lemma SumTaggedSingle(r: Row, t: string)
    ensures SumTagged([r], t) == TagCount(r, t)
  {
    assert [r][..0] == [];
  }

  lemma SumTaggedCons(r: Row, rows: seq<Row>, t: string)
    ensures SumTagged([r] + rows, t) == TagCount(r, t) + SumTagged(rows, t)
  {
    SumTaggedAppend([r], rows, t);
    SumTaggedSingle(r, t);
  }

  /** `pat in s` on strings: `s` contains `pat` as a contiguous piece. */
  predicate Contains(s: string, pat: string)
    decreases |s|
  {
    |pat| <= |s| && (s[..|pat|] == pat || Contains(s[1..], pat))
  }

  /** A first character that cannot start `pat` does not change whether `pat` occurs. */
  lemma ContainsAfterFirst(c: char, s: string, pat: string)
    requires pat != [] && c != pat[0]
    ensures Contains([c] + s, pat) == Contains(s, pat)
  {
    assert ([c] + s)[1..] == s;
    if |pat| <= |s| + 1 {
      assert ([c] + s)[..|pat|][0] == c;
    }
    if Contains(s, pat) {
      assert |pat| <= |s|;
    }
  }

  lemma {:induction false} ContainsSuffix(s: string, pat: string)
    ensures Contains(s + pat, pat)
    decreases |s|
  {
    if s == [] {
      assert (s + pat)[..|pat|] == pat;
    } else {
      assert (s + pat)[1..] == s[1..] + pat;
      ContainsSuffix(s[1..], pat);
    }
  }
}
