/** real_data_app.py, `generate_hierarchical_excel_data`: for every branch that
    has accounts, a header row, five rows per account (header, 新規, 更新,
    振り分けなし, 小計), a 支店合計 row and a separator. */
module RealReport {
  import opened Wrappers
  import opened Rows
  import opened Period
  import opened Grouping

  /** The arguments the builder passes on to `get_companies_data_by_period`,
      the database behind it, and the texts its notes are made of: the
      builder's own reading of the clock as `%Y年%m月%d日` and the two custom
      dates as passed in. */
  datatype Request = Request(token: string, today: Ordinal, startDate: Option<int>, endDate: Option<int>,
                             query: CountQuery, nowText: string, startText: string, endText: string)

  /** The date text of the notes (lines 318-334): today's date for the named
      periods, the two custom dates for `custom`, empty otherwise. */
  function DateText(token: string, nowText: string, startText: string, endText: string): (t: string)
    ensures token in {"today", "week", "month", "year"} ==> t == nowText
    ensures token == "custom" ==> t == startText + "〜" + endText
    ensures !(token in {"today", "week", "month", "year", "custom"}) ==> t == ""
  {
    if token == "today" || token == "week" || token == "month" || token == "year" then nowText
    else if token == "custom" then startText + "〜" + endText
    else ""
  }

  /** The `date_text` every note of the sheet quotes. */
  function NoteDate(req: Request): string {
    DateText(req.token, req.nowText, req.startText, req.endText)
  }

  function BranchHeader(area: AreaWithAccounts): Row {
    Row(1, "📍 " + area.areaName, "", Blank, BranchIdNote(area.areaId))
  }

  function AccountHeader(account: MappingItem): Row {
    Row(2, "├─ " + account.accountName, "", Blank, AccountIdNote(account.accountId))
  }

  function BranchTotalRow(area: AreaWithAccounts, total: nat, dateText: string): Row {
    Row(1, "└─ " + area.areaName + " 合計", TagBranchTotal, Count(total), BranchTotalNote(area.areaName, dateText))
  }

  /** The counter's answer for one account of a branch. */
  function AccountCounts(area: AreaWithAccounts, account: MappingItem, req: Request): Result<PeriodCounts, PeriodError> {
    CountsByPeriod(area.areaId, account.accountId, req.token, req.today, req.startDate, req.endDate, req.query)
  }

  /** The four leaf rows of an account: its counts, or zeros when the counter raised. */
  function LeafRows(account: MappingItem, counts: Result<PeriodCounts, PeriodError>, dateText: string): seq<Row> {
    match counts
    case Ok(c) =>
      [Row(3, "│  ├─ 新規", TagNew, Count(c.newCount), PeriodDataNote(TagNew, dateText, false)),
       Row(3, "│  ├─ 更新", TagUpdate, Count(c.updateCount), PeriodDataNote(TagUpdate, dateText, false)),
       Row(3, "│  ├─ 振り分けなし", TagUnassigned, Count(c.unassignedCount), PeriodDataNote(TagUnassigned, dateText, false)),
       Row(3, "│  └─ 小計", TagSubtotal, Count(c.newCount + c.updateCount), AccountTotalNote(account.accountName, dateText, false))]
    case Err(_) =>
      [Row(3, "│  ├─ 新規", TagNew, Count(0), PeriodDataNote(TagNew, dateText, true)),
       Row(3, "│  ├─ 更新", TagUpdate, Count(0), PeriodDataNote(TagUpdate, dateText, true)),
       Row(3, "│  ├─ 振り分けなし", TagUnassigned, Count(0), PeriodDataNote(TagUnassigned, dateText, true)),
       Row(3, "│  └─ 小計", TagSubtotal, Count(0), AccountTotalNote(account.accountName, dateText, true))]
  }

  function AccountBlock(area: AreaWithAccounts, account: MappingItem, req: Request): seq<Row> {
    [AccountHeader(account)] + LeafRows(account, AccountCounts(area, account, req), NoteDate(req))
  }

  function AccountsRows(area: AreaWithAccounts, accounts: seq<MappingItem>, req: Request): seq<Row> {
    if accounts == [] then []
    else AccountsRows(area, accounts[..|accounts| - 1], req) + AccountBlock(area, accounts[|accounts| - 1], req)
  }

  /** The three accumulators `area_total_new`, `area_total_update`, `area_total_unassigned`. */
  datatype Totals = Totals(newCount: nat, updateCount: nat, unassignedCount: nat)

  /** What one account adds to the accumulators: nothing when the counter raised. */
  function Add(t: Totals, counts: Result<PeriodCounts, PeriodError>): Totals {
    match counts
    case Ok(c) => Totals(t.newCount + c.newCount, t.updateCount + c.updateCount, t.unassignedCount + c.unassignedCount)
    case Err(_) => t
  }

  function BranchTotals(area: AreaWithAccounts, accounts: seq<MappingItem>, req: Request): Totals {
    if accounts == [] then Totals(0, 0, 0)
    else Add(BranchTotals(area, accounts[..|accounts| - 1], req), AccountCounts(area, accounts[|accounts| - 1], req))
  }

  /** The rows of one branch; a branch without accounts is skipped. */
  function BranchRows(area: AreaWithAccounts, req: Request): seq<Row> {
    if area.accounts == [] then []
    else
      var t := BranchTotals(area, area.accounts, req);
      [BranchHeader(area)] + AccountsRows(area, area.accounts, req)
        + [BranchTotalRow(area, t.newCount + t.updateCount + t.unassignedCount, NoteDate(req)), SeparatorRow]
  }

  /** The whole sheet: the branches' rows in the order of `areas`. */
  function Report(areas: seq<AreaWithAccounts>, req: Request): seq<Row> {
    if areas == [] then [] else Report(areas[..|areas| - 1], req) + BranchRows(areas[|areas| - 1], req)
  }

  /** `generate_hierarchical_excel_data`, over the result of `get_all_areas_with_accounts`. */
  method GenerateHierarchicalExcelData(areas: seq<AreaWithAccounts>, req: Request) returns (rows: seq<Row>)
    ensures rows == Report(areas, req)
  {
    rows := [];
    var dateText := "";
    if req.token == "today" || req.token == "week" || req.token == "month" || req.token == "year" {
      dateText := req.nowText;
    } else if req.token == "custom" {
      dateText := req.startText + "〜" + req.endText;
    }
    for i := 0 to |areas|
      invariant rows == Report(areas[..i], req)
    {
      var area := areas[i];
      assert areas[..i + 1][..i] == areas[..i];
      if area.accounts == [] {
        continue;
      }
      var branch := EmitBranch(area, req, dateText);
      rows := rows + branch;
    }
    assert areas[..|areas|] == areas;
  }

  /** The body of the outer loop for a branch that has accounts. */
  method EmitBranch(area: AreaWithAccounts, req: Request, dateText: string) returns (branch: seq<Row>)
    requires area.accounts != [] && dateText == NoteDate(req)
    ensures branch == BranchRows(area, req)
  {
    var accountRows, areaTotalNew, areaTotalUpdate, areaTotalUnassigned := EmitAccounts(area, req, dateText);
    var areaTotal := areaTotalNew + areaTotalUpdate + areaTotalUnassigned;
    branch := [Row(1, "📍 " + area.areaName, "", Blank, BranchIdNote(area.areaId))] + accountRows
      + [Row(1, "└─ " + area.areaName + " 合計", TagBranchTotal, Count(areaTotal), BranchTotalNote(area.areaName, dateText)),
         Row(0, "", "", Blank, NoNote)];
  }

  /** The inner loop of the builder: the rows of a branch's accounts and the
      three accumulators it leaves behind. */
  method EmitAccounts(area: AreaWithAccounts, req: Request, dateText: string)
    returns (rows: seq<Row>, areaTotalNew: nat, areaTotalUpdate: nat, areaTotalUnassigned: nat)
    requires dateText == NoteDate(req)
    ensures rows == AccountsRows(area, area.accounts, req)
    ensures Totals(areaTotalNew, areaTotalUpdate, areaTotalUnassigned) == BranchTotals(area, area.accounts, req)
  {
    rows := [];
    areaTotalNew, areaTotalUpdate, areaTotalUnassigned := 0, 0, 0;
    for j := 0 to |area.accounts|
      invariant rows == AccountsRows(area, area.accounts[..j], req)
      invariant Totals(areaTotalNew, areaTotalUpdate, areaTotalUnassigned) == BranchTotals(area, area.accounts[..j], req)
    {
      var account := area.accounts[j];
      assert area.accounts[..j + 1][..j] == area.accounts[..j];
      var block := [Row(2, "├─ " + account.accountName, "", Blank, AccountIdNote(account.accountId))];
      var dataResult := CountsByPeriod(area.areaId, account.accountId, req.token, req.today,
                                       req.startDate, req.endDate, req.query);
      match dataResult {
        case Ok(c) =>
          var totalCount := c.newCount + c.updateCount;
          block := block + [
            Row(3, "│  ├─ 新規", TagNew, Count(c.newCount), PeriodDataNote(TagNew, dateText, false)),
            Row(3, "│  ├─ 更新", TagUpdate, Count(c.updateCount), PeriodDataNote(TagUpdate, dateText, false)),
            Row(3, "│  ├─ 振り分けなし", TagUnassigned, Count(c.unassignedCount), PeriodDataNote(TagUnassigned, dateText, false)),
            Row(3, "│  └─ 小計", TagSubtotal, Count(totalCount), AccountTotalNote(account.accountName, dateText, false))];
          areaTotalNew := areaTotalNew + c.newCount;
          areaTotalUpdate := areaTotalUpdate + c.updateCount;
          areaTotalUnassigned := areaTotalUnassigned + c.unassignedCount;
        case Err(_) =>
          block := block + [
            Row(3, "│  ├─ 新規", TagNew, Count(0), PeriodDataNote(TagNew, dateText, true)),
            Row(3, "│  ├─ 更新", TagUpdate, Count(0), PeriodDataNote(TagUpdate, dateText, true)),
            Row(3, "│  ├─ 振り分けなし", TagUnassigned, Count(0), PeriodDataNote(TagUnassigned, dateText, true)),
            Row(3, "│  └─ 小計", TagSubtotal, Count(0), AccountTotalNote(account.accountName, dateText, true))];
      }
      assert block == AccountBlock(area, account, req);
      rows := rows + block;
    }
    assert area.accounts[..|area.accounts|] == area.accounts;
  }

  /** The new and update counts an account's leaf rows show. */
  function ShownNew(counts: Result<PeriodCounts, PeriodError>): nat {
    if counts.Ok? then counts.value.newCount else 0
  }

  function ShownUpdate(counts: Result<PeriodCounts, PeriodError>): nat {
    if counts.Ok? then counts.value.updateCount else 0
  }

  /** The five rows of one account: an L2 header, then L3 新規, 更新,
      振り分けなし (always 0) and 小計 = new + update. */
  predicate IsAccountBlock(b: seq<Row>, account: MappingItem, counts: Result<PeriodCounts, PeriodError>) {
    |b| == 5
    && b[0].level == 2 && b[0].tag == "" && b[0].count == Blank && b[0].note == AccountIdNote(account.accountId)
    && b[1].level == 3 && b[1].tag == TagNew && b[1].count == Count(ShownNew(counts))
    && b[2].level == 3 && b[2].tag == TagUpdate && b[2].count == Count(ShownUpdate(counts))
    && b[3].level == 3 && b[3].tag == TagUnassigned && b[3].count == Count(0)
    && b[4].level == 3 && b[4].tag == TagSubtotal && b[4].count == Count(ShownNew(counts) + ShownUpdate(counts))
  }

  lemma AccountBlockLayout(area: AreaWithAccounts, account: MappingItem, req: Request)
    ensures IsAccountBlock(AccountBlock(area, account, req), account, AccountCounts(area, account, req))
  {
  }

  lemma {:induction false} AccountsRowsLayout(area: AreaWithAccounts, accounts: seq<MappingItem>, req: Request)
    ensures |AccountsRows(area, accounts, req)| == 5 * |accounts|
    ensures forall j :: 0 <= j < |accounts| ==>
      AccountsRows(area, accounts, req)[5 * j .. 5 * j + 5] == AccountBlock(area, accounts[j], req)
  {
    if accounts != [] {
      var n := |accounts|;
      var prefix := accounts[..n - 1];
      AccountsRowsLayout(area, prefix, req);
      var rows := AccountsRows(area, accounts, req);
      AccountBlockLayout(area, accounts[n - 1], req);
      forall j | 0 <= j < n
        ensures rows[5 * j .. 5 * j + 5] == AccountBlock(area, accounts[j], req)
      {
        if j < n - 1 {
          assert rows[5 * j .. 5 * j + 5] == AccountsRows(area, prefix, req)[5 * j .. 5 * j + 5];
          assert accounts[j] == prefix[j];
        }
      }
    }
  }

  /** Lines 337-473: a branch without accounts emits nothing; one with k
      accounts emits 5k+3 rows, header, k account blocks, 支店合計, separator. */
  lemma BranchLayout(area: AreaWithAccounts, req: Request)
    ensures BranchRows(area, req) == [] <==> area.accounts == []
    ensures area.accounts != [] ==>
      var rows := BranchRows(area, req);
      var k := |area.accounts|;
      && |rows| == 5 * k + 3
      && rows[0].level == 1 && rows[0].tag == "" && rows[0].count == Blank
      && rows[0].note == BranchIdNote(area.areaId)
      && (forall j :: 0 <= j < k ==>
            IsAccountBlock(rows[1 + 5 * j .. 6 + 5 * j], area.accounts[j], AccountCounts(area, area.accounts[j], req)))
      && rows[5 * k + 1].level == 1 && rows[5 * k + 1].tag == TagBranchTotal
      && rows[5 * k + 1].note == BranchTotalNote(area.areaName, NoteDate(req))
      && rows[5 * k + 2] == SeparatorRow
  {
    if area.accounts != [] {
      var rows := BranchRows(area, req);
      var k := |area.accounts|;
      var middle := AccountsRows(area, area.accounts, req);
      AccountsRowsLayout(area, area.accounts, req);
      forall j | 0 <= j < k
        ensures IsAccountBlock(rows[1 + 5 * j .. 6 + 5 * j], area.accounts[j], AccountCounts(area, area.accounts[j], req))
      {
        assert rows[1 + 5 * j .. 6 + 5 * j] == middle[5 * j .. 5 * j + 5];
        AccountBlockLayout(area, area.accounts[j], req);
      }
    }
  }

  lemma BlockSums(area: AreaWithAccounts, account: MappingItem, req: Request)
    ensures var b := AccountBlock(area, account, req);
      var c := AccountCounts(area, account, req);
      && SumTagged(b, TagNew) == ShownNew(c)
      && SumTagged(b, TagUpdate) == ShownUpdate(c)
      && SumTagged(b, TagUnassigned) == 0
      && SumTagged(b, TagSubtotal) == ShownNew(c) + ShownUpdate(c)
      && SumTagged(b, TagBranchTotal) == 0
  {
    var b := AccountBlock(area, account, req);
    AccountBlockLayout(area, account, req);
    forall t | t in {TagNew, TagUpdate, TagUnassigned, TagSubtotal, TagBranchTotal}
      ensures SumTagged(b, t) == TagCount(b[0], t) + TagCount(b[1], t) + TagCount(b[2], t) + TagCount(b[3], t) + TagCount(b[4], t)
    {
      assert b == [b[0]] + ([b[1]] + ([b[2]] + ([b[3]] + [b[4]])));
      SumTaggedCons(b[0], [b[1]] + ([b[2]] + ([b[3]] + [b[4]])), t);
      SumTaggedCons(b[1], [b[2]] + ([b[3]] + [b[4]]), t);
      SumTaggedCons(b[2], [b[3]] + [b[4]], t);
      SumTaggedCons(b[3], [b[4]], t);
      SumTaggedSingle(b[4], t);
    }
  }

  /** The account rows of a branch sum to the accumulators, and 振り分けなし sums to 0. */
  lemma {:induction false} AccountsRowsSums(area: AreaWithAccounts, accounts: seq<MappingItem>, req: Request)
    ensures var rows := AccountsRows(area, accounts, req);
      var t := BranchTotals(area, accounts, req);
      && SumTagged(rows, TagNew) == t.newCount
      && SumTagged(rows, TagUpdate) == t.updateCount
      && SumTagged(rows, TagUnassigned) == t.unassignedCount == 0
      && SumTagged(rows, TagSubtotal) == t.newCount + t.updateCount
      && SumTagged(rows, TagBranchTotal) == 0
  {
    if accounts != [] {
      var n := |accounts|;
      var prefix := accounts[..n - 1];
      AccountsRowsSums(area, prefix, req);
      BlockSums(area, accounts[n - 1], req);
      forall t: string ensures SumTagged(AccountsRows(area, accounts, req), t)
        == SumTagged(AccountsRows(area, prefix, req), t) + SumTagged(AccountBlock(area, accounts[n - 1], req), t)
      {
        SumTaggedAppend(AccountsRows(area, prefix, req), AccountBlock(area, accounts[n - 1], req), t);
      }
    }
  }

  /** Lines 379, 408-419 and 457-464 over a whole branch: the 支店合計 sum is
      the sum of the 小計 rows and also of the 新規, 更新 and 振り分けなし rows,
      and 振り分けなし contributes nothing. */
  lemma BranchSums(area: AreaWithAccounts, req: Request)
    ensures var rows := BranchRows(area, req);
      && SumTagged(rows, TagBranchTotal) == SumTagged(rows, TagSubtotal)
      && SumTagged(rows, TagBranchTotal)
         == SumTagged(rows, TagNew) + SumTagged(rows, TagUpdate) + SumTagged(rows, TagUnassigned)
      && SumTagged(rows, TagUnassigned) == 0
      && (var t := BranchTotals(area, area.accounts, req);
          SumTagged(rows, TagSubtotal) == t.newCount + t.updateCount + t.unassignedCount)
  {
    if area.accounts != [] {
      var t := BranchTotals(area, area.accounts, req);
      var total := t.newCount + t.updateCount + t.unassignedCount;
      var head := [BranchHeader(area)];
      var middle := AccountsRows(area, area.accounts, req);
      var tail := [BranchTotalRow(area, total, NoteDate(req)), SeparatorRow];
      assert BranchRows(area, req) == head + middle + tail;
      AccountsRowsSums(area, area.accounts, req);
      TagsDistinct();
      forall tag: string | tag in {TagNew, TagUpdate, TagUnassigned, TagSubtotal, TagBranchTotal}
        ensures SumTagged(BranchRows(area, req), tag)
          == SumTagged(middle, tag) + (if tag == TagBranchTotal then total else 0)
      {
        SumTaggedAppend(head, middle, tag);
        SumTaggedAppend(head + middle, tail, tag);
        SumTaggedSingle(BranchHeader(area), tag);
        SumTaggedCons(tail[0], [SeparatorRow], tag);
        SumTaggedSingle(SeparatorRow, tag);
      }
    }
  }

  /** The 支店合計 row of a branch holds the sum of its 小計 rows. */
  lemma BranchTotalRowHoldsSum(area: AreaWithAccounts, req: Request)
    requires area.accounts != []
    ensures var rows := BranchRows(area, req);
      var k := |area.accounts|;
      |rows| == 5 * k + 3 && rows[5 * k + 1].count == Count(SumTagged(rows, TagSubtotal))
  {
    var rows := BranchRows(area, req);
    var k := |area.accounts|;
    var t := BranchTotals(area, area.accounts, req);
    BranchLayout(area, req);
    BranchSums(area, req);
    assert rows[5 * k + 1] == BranchTotalRow(area, t.newCount + t.updateCount + t.unassignedCount, NoteDate(req));
  }

  /** Over the whole sheet, the 支店合計 rows add up to the 小計 rows, which add
      up to the 新規 and 更新 rows. */
  lemma {:induction false} ReportSums(areas: seq<AreaWithAccounts>, req: Request)
    ensures var rows := Report(areas, req);
      && SumTagged(rows, TagBranchTotal) == SumTagged(rows, TagSubtotal)
      && SumTagged(rows, TagSubtotal) == SumTagged(rows, TagNew) + SumTagged(rows, TagUpdate)
      && SumTagged(rows, TagUnassigned) == 0
  {
    if areas != [] {
      var prefix := areas[..|areas| - 1];
      var last := areas[|areas| - 1];
      ReportSums(prefix, req);
      BranchSums(last, req);
      forall t: string ensures SumTagged(Report(areas, req), t)
        == SumTagged(Report(prefix, req), t) + SumTagged(BranchRows(last, req), t)
      {
        SumTaggedAppend(Report(prefix, req), BranchRows(last, req), t);
      }
    }
  }

  /** The date text a note quotes, if it quotes one. */
  function NotePeriod(n: Note): Option<string> {
    match n
    case PeriodDataNote(_, period, _) => Some(period)
    case AccountTotalNote(_, period, _) => Some(period)
    case BranchTotalNote(_, period) => Some(period)
    case _ => None
  }

  /** A tagged row quotes `text` in its note; an untagged row (branch or
      account header, separator) quotes no date. */
  predicate QuotesDate(r: Row, text: string) {
    if r.tag == "" then NotePeriod(r.note) == None else NotePeriod(r.note) == Some(text)
  }

  predicate AllQuote(rows: seq<Row>, text: string) {
    forall i :: 0 <= i < |rows| ==> QuotesDate(rows[i], text)
  }

  lemma AllQuoteAppend(a: seq<Row>, b: seq<Row>, text: string)
    requires AllQuote(a, text) && AllQuote(b, text)
    ensures AllQuote(a + b, text)
  {
    forall i | 0 <= i < |a + b| ensures QuotesDate((a + b)[i], text) {
      if i < |a| {
        assert (a + b)[i] == a[i];
      } else {
        assert (a + b)[i] == b[i - |a|];
      }
    }
  }

  lemma {:induction false} AccountsRowsQuote(area: AreaWithAccounts, accounts: seq<MappingItem>, req: Request)
    ensures AllQuote(AccountsRows(area, accounts, req), NoteDate(req))
  {
    if accounts != [] {
      var last := accounts[|accounts| - 1];
      AccountsRowsQuote(area, accounts[..|accounts| - 1], req);
      TagsDistinct();
      assert AllQuote(AccountBlock(area, last, req), NoteDate(req));
      AllQuoteAppend(AccountsRows(area, accounts[..|accounts| - 1], req), AccountBlock(area, last, req), NoteDate(req));
    }
  }

  lemma BranchRowsQuote(area: AreaWithAccounts, req: Request)
    ensures AllQuote(BranchRows(area, req), NoteDate(req))
  {
    if area.accounts != [] {
      var t := BranchTotals(area, area.accounts, req);
      var head := [BranchHeader(area)];
      var middle := AccountsRows(area, area.accounts, req);
      var tail := [BranchTotalRow(area, t.newCount + t.updateCount + t.unassignedCount, NoteDate(req)), SeparatorRow];
      assert BranchRows(area, req) == head + middle + tail;
      AccountsRowsQuote(area, area.accounts, req);
      TagsDistinct();
      assert AllQuote(head, NoteDate(req));
      assert AllQuote(tail, NoteDate(req));
      AllQuoteAppend(head, middle, NoteDate(req));
      AllQuoteAppend(head + middle, tail, NoteDate(req));
    }
  }

  lemma {:induction false} ReportQuote(areas: seq<AreaWithAccounts>, req: Request)
    ensures AllQuote(Report(areas, req), NoteDate(req))
  {
    if areas != [] {
      var prefix := areas[..|areas| - 1];
      var area := areas[|areas| - 1];
      ReportQuote(prefix, req);
      BranchRowsQuote(area, req);
      AllQuoteAppend(Report(prefix, req), BranchRows(area, req), NoteDate(req));
    }
  }

  /** Lines 318-334 and their uses: every 新規, 更新, 振り分けなし, 小計 and
      支店合計 row of the sheet quotes the one `date_text` (now's date for
      the named periods, "start〜end" for `custom`, '' for any other token),
      and no header or separator row quotes a date. */
  lemma NotesQuoteDateText(areas: seq<AreaWithAccounts>, req: Request)
    ensures AllQuote(Report(areas, req), NoteDate(req))
    ensures var rows := Report(areas, req);
      req.token in {"today", "week", "month", "year"} ==>
        forall i :: 0 <= i < |rows| && rows[i].tag != "" ==> NotePeriod(rows[i].note) == Some(req.nowText)
    ensures var rows := Report(areas, req);
      req.token == "custom" ==>
        forall i :: 0 <= i < |rows| && rows[i].tag != "" ==> NotePeriod(rows[i].note) == Some(req.startText + "〜" + req.endText)
  {
    ReportQuote(areas, req);
  }

  /** Branch B1 with accounts A1 (10 new, 4 updated) and A2 (nothing). */
  function ScenarioArea(): AreaWithAccounts {
    AreaWithAccounts(1, "B1", [MappingItem(1, "B1", 11, "A1", true), MappingItem(1, "B1", 12, "A2", true)], true, true)
  }

  function ScenarioQuery(): CountQuery {
    (areaId: int, accountId: int, iv: Interval) => if accountId == 11 then Some((10, 4)) else Some((0, 0))
  }

  lemma ScenarioTotals(today: Ordinal, nowText: string)
    ensures BranchTotals(ScenarioArea(), ScenarioArea().accounts, Request("today", today, None, None, ScenarioQuery(), nowText, "", ""))
            == Totals(10, 4, 0)
  {
    var area := ScenarioArea();
    var req := Request("today", today, None, None, ScenarioQuery(), nowText, "", "");
    var a1 := area.accounts[0];
    var a2 := area.accounts[1];
    assert AccountCounts(area, a1, req).value.newCount == 10 && AccountCounts(area, a1, req).value.updateCount == 4;
    assert AccountCounts(area, a2, req).value.newCount == 0 && AccountCounts(area, a2, req).value.updateCount == 0;
    assert area.accounts[..1] == [a1] && [a1][..0] == [];
    assert BranchTotals(area, [a1], req) == Totals(10, 4, 0);
  }

  /** Over `today`, the scenario branch's 支店合計 row shows 14, the sum of
      the subtotals 14 and 0: the branch's unassigned figure is not among
      this builder's inputs, since the per-account counter reports 0 for it. */
  lemma TwoAccountScenario(today: Ordinal, nowText: string)
    ensures
      var rows := BranchRows(ScenarioArea(), Request("today", today, None, None, ScenarioQuery(), nowText, "", ""));
      && |rows| == 13
      && rows[5].count == Count(14) && rows[10].count == Count(0)
      && rows[11].tag == TagBranchTotal && rows[11].count == Count(14)
  {
    var area := ScenarioArea();
    var req := Request("today", today, None, None, ScenarioQuery(), nowText, "", "");
    var rows := BranchRows(area, req);
    BranchLayout(area, req);
    BranchTotalRowHoldsSum(area, req);
    BranchSums(area, req);
    ScenarioTotals(today, nowText);
    var a1 := area.accounts[0];
    var a2 := area.accounts[1];
    assert IsAccountBlock(rows[1..6], a1, AccountCounts(area, a1, req));
    assert IsAccountBlock(rows[6..11], a2, AccountCounts(area, a2, req));
    assert rows[5] == rows[1..6][4] && rows[10] == rows[6..11][4];
  }
}
