/** real_data_implementation_example.py: the builder that reads measured
    per-account figures instead of sharing out a global one. Per branch (grouped
    by name) a header, four rows per account (header, 新規, 更新, 小計), a
    支店合計 row and a separator; a query that raises aborts the whole build. */
module ExampleReport {
  import opened Wrappers
  import opened Dates
  import opened Rows
  import opened Grouping

  // ---------------------------------------------------------------------------
  // get_real_hellowork_data (lines 3-32)

  /** One row of the grouped query: a status and how many companies have it. */
  datatype StatusCount = StatusCount(status: string, count: nat)

  /** The database: the grouped rows for (area id, account id, start, end), or
      None when the query raises. */
  type StatusQuery = (int, int, Date, Date) -> Option<seq<StatusCount>>

  /** The value the folding loop leaves under `key`: the count of the last
      result with that status, or the initial 0. */
  function LastCount(results: seq<StatusCount>, key: string): nat {
    if results == [] then 0
    else if results[|results| - 1].status == key then results[|results| - 1].count
    else LastCount(results[..|results| - 1], key)
  }

  /** Lines 27-30: `data` starts as {'new': 0, 'updated': 0}; a result whose
      status is one of those keys overwrites it, any other status is skipped. */
  method FoldStatusCounts(results: seq<StatusCount>) returns (data: map<string, nat>)
    ensures data.Keys == {"new", "updated"}
    ensures data["new"] == LastCount(results, "new") && data["updated"] == LastCount(results, "updated")
  {
    data := map["new" := 0, "updated" := 0];
    for i := 0 to |results|
      invariant data.Keys == {"new", "updated"}
      invariant forall key :: key in data ==> data[key] == LastCount(results[..i], key)
    {
      assert results[..i + 1][..i] == results[..i];
      var result := results[i];
      if result.status in data {
        data := data[result.status := result.count];
      }
    }
    assert results[..|results|] == results;
  }

  /** A status the results do not mention keeps its 0. */
  lemma {:induction false} LastCountAbsent(results: seq<StatusCount>, key: string)
    requires forall j :: 0 <= j < |results| ==> results[j].status != key
    ensures LastCount(results, key) == 0
  {
    if results != [] {
      LastCountAbsent(results[..|results| - 1], key);
    }
  }

  /** A status that occurs once, as a GROUP BY answer has it, gets that row's count. */
  lemma {:induction false} LastCountFound(results: seq<StatusCount>, key: string, i: nat)
    requires i < |results| && results[i].status == key
    requires forall j :: 0 <= j < |results| && j != i ==> results[j].status != key
    ensures LastCount(results, key) == results[i].count
  {
    var n := |results| - 1;
    if i < n {
      LastCountFound(results[..n], key, i);
    } else {
      assert i == n;
    }
  }

  // ---------------------------------------------------------------------------
  // The period and its label (lines 6-12 and 40-51)

  /** The interval a missing `date_range` stands for: the first of the current
      month to today. */
  function DefaultRange(today: Date): (r: (Date, Date))
    requires IsValidDate(today)
    ensures IsValidDate(r.0) && r.0.year == today.year && r.0.month == today.month && r.0.day == 1
    ensures r.1 == today && ToOrdinal(r.0) <= ToOrdinal(r.1)
  {
    (FirstOfMonth(today), today)
  }

  function ResolveRange(dateRange: Option<(Date, Date)>, today: Date): (r: (Date, Date))
    requires IsValidDate(today)
    ensures dateRange.Some? ==> r == dateRange.value
    ensures dateRange.None? ==> r == DefaultRange(today)
  {
    match dateRange
    case None => DefaultRange(today)
    case Some(range) => range
  }

  predicate ValidRange(dateRange: Option<(Date, Date)>) {
    dateRange.Some? ==> IsValidDate(dateRange.value.0) && IsValidDate(dateRange.value.1)
  }

  /** `date_str`: one date, or "start - end". */
  datatype DateLabel = OneDay(day: Date) | Span(start: Date, end: Date)

  /** A given range with equal ends is one day; any other given range, and
      the default range even when it is one day long, is a span. */
  function LabelOf(dateRange: Option<(Date, Date)>, today: Date): (l: DateLabel)
    requires IsValidDate(today)
    ensures l.OneDay? <==> dateRange.Some? && dateRange.value.0 == dateRange.value.1
    ensures l.OneDay? ==> l.day == ResolveRange(dateRange, today).0 == ResolveRange(dateRange, today).1
    ensures l.Span? ==> (l.start, l.end) == ResolveRange(dateRange, today)
  {
    match dateRange
    case None => var r := DefaultRange(today); Span(r.0, r.1)
    case Some(range) => if range.0 == range.1 then OneDay(range.0) else Span(range.0, range.1)
  }

  /** On the first of a month the default label is a span from today to today. */
  lemma DefaultLabelOnFirstDay(today: Date)
    requires IsValidDate(today) && today.day == 1
    ensures LabelOf(None, today) == Span(today, today)
  {
  }

  function LabelText(l: DateLabel): string
    requires l.OneDay? ==> IsValidDate(l.day)
    requires l.Span? ==> IsValidDate(l.start) && IsValidDate(l.end)
  {
    match l
    case OneDay(d) => FormatJapanese(d)
    case Span(s, e) => FormatJapanese(s) + " - " + FormatJapanese(e)
  }

  /** The label text tells one day from a span and gives back its dates. */
  lemma LabelTextInjective(l1: DateLabel, l2: DateLabel)
    requires l1.OneDay? ==> IsValidDate(l1.day)
    requires l1.Span? ==> IsValidDate(l1.start) && IsValidDate(l1.end)
    requires l2.OneDay? ==> IsValidDate(l2.day)
    requires l2.Span? ==> IsValidDate(l2.start) && IsValidDate(l2.end)
    requires LabelText(l1) == LabelText(l2)
    ensures l1 == l2
  {
    var t := LabelText(l1);
    if l1.OneDay? && l2.OneDay? {
      FormatJapaneseInjective(l1.day, l2.day);
    } else if l1.Span? && l2.Span? {
      assert t[..11] == FormatJapanese(l1.start) == FormatJapanese(l2.start);
      assert t[14..] == FormatJapanese(l1.end) == FormatJapanese(l2.end);
      FormatJapaneseInjective(l1.start, l2.start);
      FormatJapaneseInjective(l1.end, l2.end);
    } else {
      assert false;
    }
  }

  // ---------------------------------------------------------------------------
  // The builder (lines 34-142)

  /** What every account's query shares: the interval, the database and the label text. */
  datatype Context = Context(start: Date, end: Date, query: StatusQuery, dateLabel: string)

  function MakeContext(dateRange: Option<(Date, Date)>, today: Date, query: StatusQuery): Context
    requires IsValidDate(today) && ValidRange(dateRange)
  {
    var r := ResolveRange(dateRange, today);
    Context(r.0, r.1, query, LabelText(LabelOf(dateRange, today)))
  }

  /** `get_real_hellowork_data` for one account: (new, updated), or None when the query raises. */
  function Answer(areaId: int, account: AccountRef, ctx: Context): Option<(nat, nat)> {
    match ctx.query(areaId, account.accountId, ctx.start, ctx.end)
    case None => None
    case Some(results) => Some((LastCount(results, "new"), LastCount(results, "updated")))
  }

  /** Every query of a branch's accounts answers. */
  predicate BranchAnswered(g: AreaGroup, ctx: Context) {
    forall j :: 0 <= j < |g.accounts| ==> Answer(g.areaId, g.accounts[j], ctx).Some?
  }

  /** Every query of every account answers. */
  predicate Answered(groups: seq<AreaGroup>, ctx: Context) {
    forall i :: 0 <= i < |groups| ==> BranchAnswered(groups[i], ctx)
  }

  function NewOf(areaId: int, account: AccountRef, ctx: Context): nat {
    var a := Answer(areaId, account, ctx);
    if a.Some? then a.value.0 else 0
  }

  function UpdateOf(areaId: int, account: AccountRef, ctx: Context): nat {
    var a := Answer(areaId, account, ctx);
    if a.Some? then a.value.1 else 0
  }

  function AccountBlock(areaId: int, account: AccountRef, ctx: Context): seq<Row> {
    var n := NewOf(areaId, account, ctx);
    var u := UpdateOf(areaId, account, ctx);
    [Row(2, "  📂 " + account.accountName, "", Blank, AccountIdNote(account.accountId)),
     Row(3, "    📝 新規", TagNew, Count(n), MeasuredNote(ctx.dateLabel)),
     Row(3, "    🔄 更新", TagUpdate, Count(u), MeasuredNote(ctx.dateLabel)),
     Row(2, "  └─ 小計", TagSubtotal, Count(n + u), AccountTotalNote(account.accountName, ctx.dateLabel, false))]
  }

  function AccountsRows(areaId: int, accounts: seq<AccountRef>, ctx: Context): seq<Row> {
    if accounts == [] then []
    else AccountsRows(areaId, accounts[..|accounts| - 1], ctx) + AccountBlock(areaId, accounts[|accounts| - 1], ctx)
  }

  /** The accumulator `area_total`. */
  function AreaTotal(areaId: int, accounts: seq<AccountRef>, ctx: Context): nat {
    if accounts == [] then 0
    else
      var last := accounts[|accounts| - 1];
      AreaTotal(areaId, accounts[..|accounts| - 1], ctx) + NewOf(areaId, last, ctx) + UpdateOf(areaId, last, ctx)
  }

  function BranchHeader(g: AreaGroup): Row {
    Row(1, "📍 " + g.areaName, "", Blank, BranchIdNote(g.areaId))
  }

  function BranchTotalRow(g: AreaGroup, total: nat, ctx: Context): Row {
    Row(1, "🔢 " + g.areaName + " 合計", TagBranchTotal, Count(total), BranchTotalNote(g.areaName, ctx.dateLabel))
  }

  function BranchRows(g: AreaGroup, ctx: Context): seq<Row> {
    [BranchHeader(g)] + AccountsRows(g.areaId, g.accounts, ctx)
      + [BranchTotalRow(g, AreaTotal(g.areaId, g.accounts, ctx), ctx), SeparatorRow]
  }

  /** The sheet when every query answers. */
  function Report(groups: seq<AreaGroup>, ctx: Context): seq<Row> {
    if groups == [] then [] else Report(groups[..|groups| - 1], ctx) + BranchRows(groups[|groups| - 1], ctx)
  }

  /** `generate_real_hierarchical_excel_data`: the sheet, or None when the
      mapping read (None) or a query raises (the exception is not caught). */
  method GenerateRealHierarchicalExcelData(mapping: Option<seq<MappingItem>>, dateRange: Option<(Date, Date)>,
                                           today: Date, query: StatusQuery)
    returns (r: Option<seq<Row>>)
    requires IsValidDate(today) && ValidRange(dateRange)
    ensures mapping.None? ==> r.None?
    ensures mapping.Some? ==>
      var ctx := MakeContext(dateRange, today, query);
      var groups := GroupByName(mapping.value);
      r == if Answered(groups, ctx) then Some(Report(groups, ctx)) else None
  {
    if mapping.None? {
      return None;
    }
    var ctx := MakeContext(dateRange, today, query);
    var groups := GroupMappingByName(mapping.value);
    r := BuildRows(groups, ctx);
  }

  /** The loop over the grouped branches (lines 68-140). */
  method BuildRows(groups: seq<AreaGroup>, ctx: Context) returns (r: Option<seq<Row>>)
    ensures r == if Answered(groups, ctx) then Some(Report(groups, ctx)) else None
  {
    var rows := [];
    for i := 0 to |groups|
      invariant Answered(groups[..i], ctx)
      invariant rows == Report(groups[..i], ctx)
    {
      var g := groups[i];
      assert groups[..i + 1][..i] == groups[..i];
      var emitted := EmitAccounts(g, ctx);
      if emitted.None? {
        assert !BranchAnswered(groups[i], ctx);
        return None;
      }
      var accountRows, areaTotal := emitted.value.0, emitted.value.1;
      var branch := [Row(1, "📍 " + g.areaName, "", Blank, BranchIdNote(g.areaId))] + accountRows
        + [Row(1, "🔢 " + g.areaName + " 合計", TagBranchTotal, Count(areaTotal), BranchTotalNote(g.areaName, ctx.dateLabel)),
           Row(0, "", "", Blank, NoNote)];
      assert branch == BranchRows(g, ctx);
      rows := rows + branch;
    }
    assert groups[..|groups|] == groups;
    return Some(rows);
  }

  /** The inner loop over one branch's accounts: their rows and `area_total`,
      or None at the first query that raises. */
  method EmitAccounts(g: AreaGroup, ctx: Context) returns (r: Option<(seq<Row>, nat)>)
    ensures r.Some? <==> BranchAnswered(g, ctx)
    ensures r.Some? ==> r.value == (AccountsRows(g.areaId, g.accounts, ctx), AreaTotal(g.areaId, g.accounts, ctx))
  {
    var rows := [];
    var areaTotal := 0;
    for j := 0 to |g.accounts|
      invariant forall k :: 0 <= k < j ==> Answer(g.areaId, g.accounts[k], ctx).Some?
      invariant rows == AccountsRows(g.areaId, g.accounts[..j], ctx)
      invariant areaTotal == AreaTotal(g.areaId, g.accounts[..j], ctx)
    {
      var account := g.accounts[j];
      assert g.accounts[..j + 1][..j] == g.accounts[..j];
      var results := ctx.query(g.areaId, account.accountId, ctx.start, ctx.end);
      if results.None? {
        assert Answer(g.areaId, g.accounts[j], ctx).None?;
        return None;
      }
      var data := FoldStatusCounts(results.value);
      var newCount := data["new"];
      var updateCount := data["updated"];
      var block := [
        Row(2, "  📂 " + account.accountName, "", Blank, AccountIdNote(account.accountId)),
        Row(3, "    📝 新規", TagNew, Count(newCount), MeasuredNote(ctx.dateLabel)),
        Row(3, "    🔄 更新", TagUpdate, Count(updateCount), MeasuredNote(ctx.dateLabel)),
        Row(2, "  └─ 小計", TagSubtotal, Count(newCount + updateCount), AccountTotalNote(account.accountName, ctx.dateLabel, false))];
      assert block == AccountBlock(g.areaId, account, ctx);
      rows := rows + block;
      areaTotal := areaTotal + newCount + updateCount;
    }
    assert g.accounts[..|g.accounts|] == g.accounts;
    return Some((rows, areaTotal));
  }

  // ---------------------------------------------------------------------------
  // Layout and sums

  /** An L2 header, L3 新規 and 更新 holding the measured figures, and an L2
      小計 holding their sum. */
  predicate IsAccountBlock(b: seq<Row>, areaId: int, account: AccountRef, ctx: Context) {
    var n := NewOf(areaId, account, ctx);
    var u := UpdateOf(areaId, account, ctx);
    |b| == 4
    && b[0].level == 2 && b[0].tag == "" && b[0].count == Blank && b[0].note == AccountIdNote(account.accountId)
    && b[1].level == 3 && b[1].tag == TagNew && b[1].count == Count(n) && b[1].note == MeasuredNote(ctx.dateLabel)
    && b[2].level == 3 && b[2].tag == TagUpdate && b[2].count == Count(u) && b[2].note == MeasuredNote(ctx.dateLabel)
    && b[3].level == 2 && b[3].tag == TagSubtotal && b[3].count == Count(n + u)
    && b[3].note == AccountTotalNote(account.accountName, ctx.dateLabel, false)
  }

  lemma {:induction false} AccountsRowsLayout(areaId: int, accounts: seq<AccountRef>, ctx: Context)
    ensures |AccountsRows(areaId, accounts, ctx)| == 4 * |accounts|
    ensures forall j :: 0 <= j < |accounts| ==>
      AccountsRows(areaId, accounts, ctx)[4 * j .. 4 * j + 4] == AccountBlock(areaId, accounts[j], ctx)
  {
    if accounts != [] {
      var n := |accounts|;
      var prefix := accounts[..n - 1];
      AccountsRowsLayout(areaId, prefix, ctx);
      var rows := AccountsRows(areaId, accounts, ctx);
      forall j | 0 <= j < n
        ensures rows[4 * j .. 4 * j + 4] == AccountBlock(areaId, accounts[j], ctx)
      {
        if j < n - 1 {
          assert rows[4 * j .. 4 * j + 4] == AccountsRows(areaId, prefix, ctx)[4 * j .. 4 * j + 4];
          assert accounts[j] == prefix[j];
        }
      }
    }
  }

  /** A branch with k accounts takes 4k+3 rows: header, k account blocks,
      支店合計, separator. */
  lemma BranchLayout(g: AreaGroup, ctx: Context)
    ensures var rows := BranchRows(g, ctx);
      var k := |g.accounts|;
      && |rows| == 4 * k + 3
      && rows[0].level == 1 && rows[0].tag == "" && rows[0].count == Blank && rows[0].note == BranchIdNote(g.areaId)
      && (forall j :: 0 <= j < k ==> IsAccountBlock(rows[1 + 4 * j .. 5 + 4 * j], g.areaId, g.accounts[j], ctx))
      && rows[4 * k + 1].level == 1 && rows[4 * k + 1].tag == TagBranchTotal
      && rows[4 * k + 1].note == BranchTotalNote(g.areaName, ctx.dateLabel)
      && rows[4 * k + 2] == SeparatorRow
  {
    var rows := BranchRows(g, ctx);
    var k := |g.accounts|;
    var middle := AccountsRows(g.areaId, g.accounts, ctx);
    AccountsRowsLayout(g.areaId, g.accounts, ctx);
    forall j | 0 <= j < k
      ensures IsAccountBlock(rows[1 + 4 * j .. 5 + 4 * j], g.areaId, g.accounts[j], ctx)
    {
      assert rows[1 + 4 * j .. 5 + 4 * j] == middle[4 * j .. 4 * j + 4];
    }
  }

  lemma BlockSums(areaId: int, account: AccountRef, ctx: Context)
    ensures var b := AccountBlock(areaId, account, ctx);
      && SumTagged(b, TagNew) == NewOf(areaId, account, ctx)
      && SumTagged(b, TagUpdate) == UpdateOf(areaId, account, ctx)
      && SumTagged(b, TagSubtotal) == NewOf(areaId, account, ctx) + UpdateOf(areaId, account, ctx)
      && SumTagged(b, TagBranchTotal) == 0
  {
    var b := AccountBlock(areaId, account, ctx);
    TagsDistinct();
    forall t | t in {TagNew, TagUpdate, TagSubtotal, TagBranchTotal}
      ensures SumTagged(b, t) == TagCount(b[0], t) + TagCount(b[1], t) + TagCount(b[2], t) + TagCount(b[3], t)
    {
      assert b == [b[0]] + ([b[1]] + ([b[2]] + [b[3]]));
      SumTaggedCons(b[0], [b[1]] + ([b[2]] + [b[3]]), t);
      SumTaggedCons(b[1], [b[2]] + [b[3]], t);
      SumTaggedCons(b[2], [b[3]], t);
      SumTaggedSingle(b[3], t);
    }
  }

  /** A branch's account rows: 小計 adds up 新規 and 更新, and `area_total` is that sum. */
  lemma {:induction false} AccountsRowsSums(areaId: int, accounts: seq<AccountRef>, ctx: Context)
    ensures var rows := AccountsRows(areaId, accounts, ctx);
      && SumTagged(rows, TagSubtotal) == SumTagged(rows, TagNew) + SumTagged(rows, TagUpdate)
      && SumTagged(rows, TagBranchTotal) == 0
      && AreaTotal(areaId, accounts, ctx) == SumTagged(rows, TagSubtotal)
  {
    if accounts != [] {
      var n := |accounts| - 1;
      var prefix := accounts[..n];
      AccountsRowsSums(areaId, prefix, ctx);
      BlockSums(areaId, accounts[n], ctx);
      forall t: string ensures SumTagged(AccountsRows(areaId, accounts, ctx), t)
        == SumTagged(AccountsRows(areaId, prefix, ctx), t) + SumTagged(AccountBlock(areaId, accounts[n], ctx), t)
      {
        SumTaggedAppend(AccountsRows(areaId, prefix, ctx), AccountBlock(areaId, accounts[n], ctx), t);
      }
    }
  }

  /** Lines 114-131: the 支店合計 row holds the sum of the branch's 小計 rows,
      which is the sum of its 新規 and 更新 rows. */
  lemma BranchSums(g: AreaGroup, ctx: Context)
    ensures var rows := BranchRows(g, ctx);
      var k := |g.accounts|;
      && SumTagged(rows, TagBranchTotal) == SumTagged(rows, TagSubtotal)
      && SumTagged(rows, TagSubtotal) == SumTagged(rows, TagNew) + SumTagged(rows, TagUpdate)
      && |rows| == 4 * k + 3 && rows[4 * k + 1].count == Count(SumTagged(rows, TagSubtotal))
  {
    var total := AreaTotal(g.areaId, g.accounts, ctx);
    var head := [BranchHeader(g)];
    var middle := AccountsRows(g.areaId, g.accounts, ctx);
    var tail := [BranchTotalRow(g, total, ctx), SeparatorRow];
    assert BranchRows(g, ctx) == head + middle + tail;
    AccountsRowsSums(g.areaId, g.accounts, ctx);
    AccountsRowsLayout(g.areaId, g.accounts, ctx);
    TagsDistinct();
    forall tag: string | tag in {TagNew, TagUpdate, TagSubtotal, TagBranchTotal}
      ensures SumTagged(BranchRows(g, ctx), tag)
        == SumTagged(middle, tag) + (if tag == TagBranchTotal then total else 0)
    {
      SumTaggedAppend(head, middle, tag);
      SumTaggedAppend(head + middle, tail, tag);
      SumTaggedSingle(BranchHeader(g), tag);
      SumTaggedCons(tail[0], [SeparatorRow], tag);
      SumTaggedSingle(SeparatorRow, tag);
    }
  }

  /** Over the whole sheet the 支店合計 rows add up to the 小計 rows, which
      add up to the 新規 and 更新 rows. */
  lemma {:induction false} ReportSums(groups: seq<AreaGroup>, ctx: Context)
    ensures var rows := Report(groups, ctx);
      && SumTagged(rows, TagBranchTotal) == SumTagged(rows, TagSubtotal)
      && SumTagged(rows, TagSubtotal) == SumTagged(rows, TagNew) + SumTagged(rows, TagUpdate)
  {
    if groups != [] {
      var prefix := groups[..|groups| - 1];
      var last := groups[|groups| - 1];
      ReportSums(prefix, ctx);
      BranchSums(last, ctx);
      forall t: string ensures SumTagged(Report(groups, ctx), t)
        == SumTagged(Report(prefix, ctx), t) + SumTagged(BranchRows(last, ctx), t)
      {
        SumTaggedAppend(Report(prefix, ctx), BranchRows(last, ctx), t);
      }
    }
  }
}
