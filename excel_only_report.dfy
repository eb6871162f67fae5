/** excel_only_app.py: the two hierarchical builders, which share out one
    global new/updated figure over the accounts of the mapping, and the by-date
    summary and endpoints around them. Both builders run the same loop (lines
    322-395 and 459-535): per branch a header, four rows per account (header,
    新規, 更新, 小計), a 支店合計 row and a separator. They differ only in the
    plan and in the note texts, which `Config` carries. */
module ExcelOnlyReport {
  import opened Wrappers
  import opened Dates
  import opened Rows
  import opened Grouping
  import opened Apportion

  // ---------------------------------------------------------------------------
  // get_companies_summary_by_date (lines 103-173)

  /** What the summary receives: nothing (today), the request's text, or a parsed date. */
  datatype TargetArg = NoTarget | TargetText(text: string) | TargetDate(date: Date)

  /** The day figures (new, updated) the database reports for a date, or
      None when one of the summary's count queries for it raises. */
  type DayCounts = Date -> Option<(nat, nat)>

  /** The part of the summary the by-date builder reads. */
  datatype DateSummary = DateSummary(targetDateJp: string, targetNew: nat, targetUpdated: nat)

  /** The response of the `except` branch: today's date and zeros. */
  function FallbackSummary(now: Date): DateSummary
    requires IsValidDate(now)
  {
    DateSummary(FormatJapanese(now), 0, 0)
  }

  /** The date the summary works on; None when `strptime` raises. */
  function ResolveTarget(arg: TargetArg, now: Date): (d: Option<Date>)
    ensures arg.NoTarget? ==> d == Some(now)
    ensures arg.TargetText? ==> d == ParseIsoDate(arg.text)
    ensures arg.TargetDate? ==> d == Some(arg.date)
  {
    match arg
    case NoTarget => Some(now)
    case TargetText(s) => ParseIsoDate(s)
    case TargetDate(d) => Some(d)
  }

  /** The first and last dates `datetime.date` holds; the day before the one
      and the day after the other are an OverflowError. */
  const FirstDate: Date := Date(1, 1, 1)
  const LastDate: Date := Date(9999, 12, 31)

  /** The summary: the day figures of the target date, or the fallback when
      the text does not parse, a neighbouring day cannot be formed or a count
      query raises. */
  function SummaryByDate(arg: TargetArg, now: Date, counts: DayCounts): DateSummary
    requires IsValidDate(now)
    requires arg.TargetDate? ==> IsValidDate(arg.date)
  {
    match ResolveTarget(arg, now)
    case None => FallbackSummary(now)
    case Some(d) =>
      if d == FirstDate || d == LastDate then FallbackSummary(now)
      else match counts(d)
        case None => FallbackSummary(now)
        case Some((newCount, updatedCount)) => DateSummary(FormatJapanese(d), newCount, updatedCount)
  }

  /** The summary quotes the target date and its figures, unless the text is
      not a date (an empty text included), the date is at either end of the
      calendar or a count query raises, when it quotes today with zeros. */
  lemma SummaryByDateFacts(arg: TargetArg, now: Date, counts: DayCounts)
    requires IsValidDate(now)
    requires arg.TargetDate? ==> IsValidDate(arg.date)
    ensures var s := SummaryByDate(arg, now, counts);
      match ResolveTarget(arg, now)
      case None => s == DateSummary(FormatJapanese(now), 0, 0)
      case Some(d) =>
        && IsValidDate(d)
        && (d == FirstDate || d == LastDate || counts(d).None? ==> s == DateSummary(FormatJapanese(now), 0, 0))
        && (d != FirstDate && d != LastDate && counts(d).Some? ==>
              s.targetDateJp == FormatJapanese(d) && s.targetNew == counts(d).value.0 && s.targetUpdated == counts(d).value.1)
    ensures arg == TargetText("") ==> SummaryByDate(arg, now, counts) == FallbackSummary(now)
  {
    assert |""| < 5;
  }

  // ---------------------------------------------------------------------------
  // The builders' parameters

  /** The plan, the figures and period the leaf notes quote, and the period
      of the 小計 and 支店合計 notes ('' in the today builder). */
  datatype Config = Config(plan: Plan, leafPeriod: string, shownNew: nat, shownUpdated: nat, totalPeriod: string)

  /** `generate_hierarchical_excel_data_by_date`, lines 302-317 and its notes. */
  function ByDateConfig(summary: DateSummary, totalAccounts: nat): (cfg: Config)
    ensures cfg.plan == ByDatePlan(summary.targetNew, summary.targetUpdated, totalAccounts)
    ensures cfg.leafPeriod == cfg.totalPeriod == summary.targetDateJp
  {
    Config(ByDatePlan(summary.targetNew, summary.targetUpdated, totalAccounts),
           summary.targetDateJp, summary.targetNew, summary.targetUpdated, summary.targetDateJp)
  }

  /** `generate_hierarchical_excel_data`, lines 431-457 and its notes. */
  function TodayConfig(summary: CompaniesSummary, totalAccounts: nat): (cfg: Config)
    ensures cfg.plan == PlanToday(summary, totalAccounts).plan
    ensures cfg.leafPeriod == PlanToday(summary, totalAccounts).dataPeriod && cfg.totalPeriod == ""
  {
    var t := PlanToday(summary, totalAccounts);
    Config(t.plan, t.dataPeriod, t.shownNew, t.shownUpdated, "")
  }

  function NewShare(cfg: Config, index: nat): nat {
    Share(cfg.plan.eachNew, cfg.plan.remNew, index)
  }

  function UpdateShare(cfg: Config, index: nat): nat {
    Share(cfg.plan.eachUpdate, cfg.plan.remUpdate, index)
  }

  // ---------------------------------------------------------------------------
  // The rows

  /** The four rows of the account at global position `index`. */
  function AccountBlock(account: AccountRef, index: nat, cfg: Config): seq<Row> {
    var n := NewShare(cfg, index);
    var u := UpdateShare(cfg, index);
    [Row(2, "  📂 " + account.accountName, "", Blank, AccountIdNote(account.accountId)),
     Row(3, "    📝 新規", TagNew, Count(n), ApportionedNote(cfg.leafPeriod, cfg.shownNew)),
     Row(3, "    🔄 更新", TagUpdate, Count(u), ApportionedNote(cfg.leafPeriod, cfg.shownUpdated)),
     Row(2, "  └─ 小計", TagSubtotal, Count(n + u), AccountTotalNote(account.accountName, cfg.totalPeriod, false))]
  }

  /** The account rows of a branch whose first account is at global position `first`. */
  function AccountsRows(accounts: seq<AccountRef>, first: nat, cfg: Config): seq<Row> {
    if accounts == [] then []
    else
      var n := |accounts| - 1;
      AccountsRows(accounts[..n], first, cfg) + AccountBlock(accounts[n], first + n, cfg)
  }

  /** The accumulator `area_total`. */
  function AreaTotal(accounts: seq<AccountRef>, first: nat, cfg: Config): nat {
    if accounts == [] then 0
    else
      var n := |accounts| - 1;
      AreaTotal(accounts[..n], first, cfg) + NewShare(cfg, first + n) + UpdateShare(cfg, first + n)
  }

  function BranchHeader(g: AreaGroup): Row {
    Row(1, "📍 " + g.areaName, "", Blank, BranchIdNote(g.areaId))
  }

  function BranchTotalRow(g: AreaGroup, total: nat, cfg: Config): Row {
    Row(1, "🔢 " + g.areaName + " 合計", TagBranchTotal, Count(total), BranchTotalNote(g.areaName, cfg.totalPeriod))
  }

  function BranchRows(g: AreaGroup, first: nat, cfg: Config): seq<Row> {
    [BranchHeader(g)] + AccountsRows(g.accounts, first, cfg) + [BranchTotalRow(g, AreaTotal(g.accounts, first, cfg), cfg), SeparatorRow]
  }

  /** The whole sheet: the branches in first-seen order, `account_index`
      running on across branches. */
  function Report(groups: seq<AreaGroup>, cfg: Config): seq<Row> {
    if groups == [] then []
    else
      var prefix := groups[..|groups| - 1];
      Report(prefix, cfg) + BranchRows(groups[|groups| - 1], AccountCount(prefix), cfg)
  }

  // ---------------------------------------------------------------------------
  // The builders

  /** The loop over the grouped branches (lines 322-395 and 459-535). */
  method BuildRows(groups: seq<AreaGroup>, cfg: Config) returns (rows: seq<Row>)
    ensures rows == Report(groups, cfg)
  {
    rows := [];
    var accountIndex := 0;
    for i := 0 to |groups|
      invariant rows == Report(groups[..i], cfg)
      invariant accountIndex == AccountCount(groups[..i])
    {
      var g := groups[i];
      assert groups[..i + 1][..i] == groups[..i];
      var accountRows, areaTotal, next := EmitAccounts(g, accountIndex, cfg);
      var branch := [Row(1, "📍 " + g.areaName, "", Blank, BranchIdNote(g.areaId))] + accountRows
        + [Row(1, "🔢 " + g.areaName + " 合計", TagBranchTotal, Count(areaTotal), BranchTotalNote(g.areaName, cfg.totalPeriod)),
           Row(0, "", "", Blank, NoNote)];
      assert branch == BranchRows(g, accountIndex, cfg);
      rows := rows + branch;
      accountIndex := next;
    }
    assert groups[..|groups|] == groups;
  }

  /** The inner loop over one branch's accounts. */
  method EmitAccounts(g: AreaGroup, first: nat, cfg: Config) returns (rows: seq<Row>, areaTotal: nat, accountIndex: nat)
    ensures rows == AccountsRows(g.accounts, first, cfg)
    ensures areaTotal == AreaTotal(g.accounts, first, cfg)
    ensures accountIndex == first + |g.accounts|
  {
    rows := [];
    areaTotal := 0;
    accountIndex := first;
    for j := 0 to |g.accounts|
      invariant rows == AccountsRows(g.accounts[..j], first, cfg)
      invariant areaTotal == AreaTotal(g.accounts[..j], first, cfg)
      invariant accountIndex == first + j
    {
      var account := g.accounts[j];
      assert g.accounts[..j + 1][..j] == g.accounts[..j];
      var newCount := cfg.plan.eachNew + (if accountIndex == 0 then cfg.plan.remNew else 0);
      var updateCount := cfg.plan.eachUpdate + (if accountIndex == 0 then cfg.plan.remUpdate else 0);
      var block := [
        Row(2, "  📂 " + account.accountName, "", Blank, AccountIdNote(account.accountId)),
        Row(3, "    📝 新規", TagNew, Count(newCount), ApportionedNote(cfg.leafPeriod, cfg.shownNew)),
        Row(3, "    🔄 更新", TagUpdate, Count(updateCount), ApportionedNote(cfg.leafPeriod, cfg.shownUpdated)),
        Row(2, "  └─ 小計", TagSubtotal, Count(newCount + updateCount), AccountTotalNote(account.accountName, cfg.totalPeriod, false))];
      assert block == AccountBlock(account, accountIndex, cfg);
      rows := rows + block;
      areaTotal := areaTotal + newCount + updateCount;
      accountIndex := accountIndex + 1;
    }
    assert g.accounts[..|g.accounts|] == g.accounts;
  }

  /** `generate_hierarchical_excel_data_by_date`: the mapping grouped by
      branch name, the target figures shared out over its rows. */
  method GenerateByDate(mapping: seq<MappingItem>, summary: DateSummary) returns (rows: seq<Row>)
    ensures rows == Report(GroupByName(mapping), ByDateConfig(summary, |mapping|))
    ensures mapping == [] ==> rows == []
    ensures |mapping| > 0 ==> SumTagged(rows, TagNew) == summary.targetNew && SumTagged(rows, TagUpdate) == summary.targetUpdated
  {
    var groups := GroupMappingByName(mapping);
    var cfg := ByDateConfig(summary, |mapping|);
    rows := BuildRows(groups, cfg);
    if |mapping| > 0 {
      ByDateHandsOutTarget(mapping, summary);
    }
  }

  /** `generate_hierarchical_excel_data`: the month or week figures shared out. */
  method GenerateToday(mapping: seq<MappingItem>, summary: CompaniesSummary) returns (rows: seq<Row>)
    ensures rows == Report(GroupByName(mapping), TodayConfig(summary, |mapping|))
    ensures mapping == [] ==> rows == []
    ensures var t := PlanToday(summary, |mapping|);
      0 < t.shownNew < |mapping| ==> SumTagged(rows, TagNew) == |mapping| + t.shownNew
  {
    var groups := GroupMappingByName(mapping);
    var cfg := TodayConfig(summary, |mapping|);
    rows := BuildRows(groups, cfg);
    if |mapping| > 0 {
      TodayHandout(mapping, summary);
    }
  }

  // ---------------------------------------------------------------------------
  // Layout

  /** An L2 header, L3 新規 and 更新 holding the account's shares, and an L2
      小計 holding their sum. */
  predicate IsAccountBlock(b: seq<Row>, account: AccountRef, index: nat, cfg: Config) {
    |b| == 4
    && b[0].level == 2 && b[0].tag == "" && b[0].count == Blank && b[0].note == AccountIdNote(account.accountId)
    && b[1].level == 3 && b[1].tag == TagNew && b[1].count == Count(NewShare(cfg, index))
    && b[2].level == 3 && b[2].tag == TagUpdate && b[2].count == Count(UpdateShare(cfg, index))
    && b[3].level == 2 && b[3].tag == TagSubtotal && b[3].count == Count(NewShare(cfg, index) + UpdateShare(cfg, index))
  }

  lemma {:induction false} AccountsRowsLayout(accounts: seq<AccountRef>, first: nat, cfg: Config)
    ensures |AccountsRows(accounts, first, cfg)| == 4 * |accounts|
    ensures forall j :: 0 <= j < |accounts| ==>
      AccountsRows(accounts, first, cfg)[4 * j .. 4 * j + 4] == AccountBlock(accounts[j], first + j, cfg)
  {
    if accounts != [] {
      var n := |accounts|;
      var prefix := accounts[..n - 1];
      AccountsRowsLayout(prefix, first, cfg);
      var rows := AccountsRows(accounts, first, cfg);
      forall j | 0 <= j < n
        ensures rows[4 * j .. 4 * j + 4] == AccountBlock(accounts[j], first + j, cfg)
      {
        if j < n - 1 {
          assert rows[4 * j .. 4 * j + 4] == AccountsRows(prefix, first, cfg)[4 * j .. 4 * j + 4];
          assert accounts[j] == prefix[j];
        }
      }
    }
  }

  /** A branch with k accounts takes 4k+3 rows: header, k account blocks
      numbered on from `first`, 支店合計, separator. */
  lemma BranchLayout(g: AreaGroup, first: nat, cfg: Config)
    ensures var rows := BranchRows(g, first, cfg);
      var k := |g.accounts|;
      && |rows| == 4 * k + 3
      && rows[0].level == 1 && rows[0].tag == "" && rows[0].count == Blank && rows[0].note == BranchIdNote(g.areaId)
      && (forall j :: 0 <= j < k ==> IsAccountBlock(rows[1 + 4 * j .. 5 + 4 * j], g.accounts[j], first + j, cfg))
      && rows[4 * k + 1].level == 1 && rows[4 * k + 1].tag == TagBranchTotal
      && rows[4 * k + 1].note == BranchTotalNote(g.areaName, cfg.totalPeriod)
      && rows[4 * k + 2] == SeparatorRow
  {
    var rows := BranchRows(g, first, cfg);
    var k := |g.accounts|;
    var middle := AccountsRows(g.accounts, first, cfg);
    AccountsRowsLayout(g.accounts, first, cfg);
    forall j | 0 <= j < k
      ensures IsAccountBlock(rows[1 + 4 * j .. 5 + 4 * j], g.accounts[j], first + j, cfg)
    {
      assert rows[1 + 4 * j .. 5 + 4 * j] == middle[4 * j .. 4 * j + 4];
    }
  }

  // ---------------------------------------------------------------------------
  // Sums

  /** What `count` accounts numbered from `first` receive of `each` and `rem`. */
  function SharesSum(each: nat, rem: nat, first: nat, count: nat): nat {
    each * count + (if first == 0 && count > 0 then rem else 0)
  }

  lemma SharesSumSplit(each: nat, rem: nat, a: nat, k: nat)
    ensures SharesSum(each, rem, 0, a) + SharesSum(each, rem, a, k) == SharesSum(each, rem, 0, a + k)
  {
    assert each * a + each * k == each * (a + k);
  }

  /** One more account adds its own share. */
  lemma SharesSumStep(each: nat, rem: nat, first: nat, n: nat)
    ensures SharesSum(each, rem, first, n + 1) == SharesSum(each, rem, first, n) + Share(each, rem, first + n)
  {
    assert each * (n + 1) == each * n + each;
  }

  lemma BlockSums(account: AccountRef, index: nat, cfg: Config)
    ensures var b := AccountBlock(account, index, cfg);
      && SumTagged(b, TagNew) == NewShare(cfg, index)
      && SumTagged(b, TagUpdate) == UpdateShare(cfg, index)
      && SumTagged(b, TagSubtotal) == NewShare(cfg, index) + UpdateShare(cfg, index)
      && SumTagged(b, TagBranchTotal) == 0
  {
    var b := AccountBlock(account, index, cfg);
    TagsDistinct();
    forall t | t in {TagNew, TagUpdate, TagSubtotal, TagBranchTotal}
      ensures SumTagged(b, t) == TagCount(b[0], t) + TagCount(b[1], t) + TagCount(b[2], t) + TagCount(b[3], t)
    {
      assert b == [b[0]] + ([b[1]] + ([b[2]] + [b[3]]));
      SumTaggedCons(b[0], [b[1]] + ([b[2]] + [b[3]]), t);
      SumTaggedCons(b[1], [b[2]] + [b[3]], t);
      SumTaggedCons(b[2], [b[3]], t);
      SumTaggedSingle(b[3], t);
    }
  }

  /** What one more account adds to the sum of the rows tagged `t`. */
  lemma AccountsRowsStep(accounts: seq<AccountRef>, first: nat, cfg: Config, t: string)
    requires accounts != []
    ensures var n := |accounts| - 1;
      SumTagged(AccountsRows(accounts, first, cfg), t)
        == SumTagged(AccountsRows(accounts[..n], first, cfg), t) + SumTagged(AccountBlock(accounts[n], first + n, cfg), t)
  {
    var n := |accounts| - 1;
    SumTaggedAppend(AccountsRows(accounts[..n], first, cfg), AccountBlock(accounts[n], first + n, cfg), t);
  }

  /** A branch's 新規 and 更新 rows hold the shares of its accounts. */
  lemma {:induction false} AccountsRowsShares(accounts: seq<AccountRef>, first: nat, cfg: Config)
    ensures var rows := AccountsRows(accounts, first, cfg);
      var k := |accounts|;
      && SumTagged(rows, TagNew) == SharesSum(cfg.plan.eachNew, cfg.plan.remNew, first, k)
      && SumTagged(rows, TagUpdate) == SharesSum(cfg.plan.eachUpdate, cfg.plan.remUpdate, first, k)
  {
    if accounts != [] {
      var n := |accounts| - 1;
      AccountsRowsShares(accounts[..n], first, cfg);
      BlockSums(accounts[n], first + n, cfg);
      AccountsRowsStep(accounts, first, cfg, TagNew);
      AccountsRowsStep(accounts, first, cfg, TagUpdate);
      SharesSumStep(cfg.plan.eachNew, cfg.plan.remNew, first, n);
      SharesSumStep(cfg.plan.eachUpdate, cfg.plan.remUpdate, first, n);
    }
  }

  /** A branch's 小計 rows add up its 新規 and 更新 rows; it has no 支店合計 row. */
  lemma {:induction false} AccountsRowsSums(accounts: seq<AccountRef>, first: nat, cfg: Config)
    ensures var rows := AccountsRows(accounts, first, cfg);
      && SumTagged(rows, TagSubtotal) == SumTagged(rows, TagNew) + SumTagged(rows, TagUpdate)
      && SumTagged(rows, TagBranchTotal) == 0
  {
    if accounts != [] {
      var n := |accounts| - 1;
      AccountsRowsSums(accounts[..n], first, cfg);
      BlockSums(accounts[n], first + n, cfg);
      AccountsRowsStep(accounts, first, cfg, TagNew);
      AccountsRowsStep(accounts, first, cfg, TagUpdate);
      AccountsRowsStep(accounts, first, cfg, TagSubtotal);
      AccountsRowsStep(accounts, first, cfg, TagBranchTotal);
    }
  }

  /** `area_total` is the sum of the branch's 小計 rows. */
  lemma {:induction false} AreaTotalSums(accounts: seq<AccountRef>, first: nat, cfg: Config)
    ensures AreaTotal(accounts, first, cfg) == SumTagged(AccountsRows(accounts, first, cfg), TagSubtotal)
  {
    if accounts != [] {
      var n := |accounts| - 1;
      AreaTotalSums(accounts[..n], first, cfg);
      BlockSums(accounts[n], first + n, cfg);
      AccountsRowsStep(accounts, first, cfg, TagSubtotal);
    }
  }

  /** A branch's 支店合計 row holds the sum of its 小計 rows, which is the
      sum of its 新規 and 更新 rows. */
  lemma BranchSums(g: AreaGroup, first: nat, cfg: Config)
    ensures var rows := BranchRows(g, first, cfg);
      var k := |g.accounts|;
      && SumTagged(rows, TagNew) == SharesSum(cfg.plan.eachNew, cfg.plan.remNew, first, k)
      && SumTagged(rows, TagUpdate) == SharesSum(cfg.plan.eachUpdate, cfg.plan.remUpdate, first, k)
      && SumTagged(rows, TagBranchTotal) == SumTagged(rows, TagSubtotal)
      && SumTagged(rows, TagSubtotal) == SumTagged(rows, TagNew) + SumTagged(rows, TagUpdate)
      && |rows| == 4 * k + 3 && rows[4 * k + 1].count == Count(SumTagged(rows, TagSubtotal))
  {
    var total := AreaTotal(g.accounts, first, cfg);
    var head := [BranchHeader(g)];
    var middle := AccountsRows(g.accounts, first, cfg);
    var tail := [BranchTotalRow(g, total, cfg), SeparatorRow];
    assert BranchRows(g, first, cfg) == head + middle + tail;
    AccountsRowsSums(g.accounts, first, cfg);
    AreaTotalSums(g.accounts, first, cfg);
    AccountsRowsShares(g.accounts, first, cfg);
    AccountsRowsLayout(g.accounts, first, cfg);
    TagsDistinct();
    forall tag: string | tag in {TagNew, TagUpdate, TagSubtotal, TagBranchTotal}
      ensures SumTagged(BranchRows(g, first, cfg), tag)
        == SumTagged(middle, tag) + (if tag == TagBranchTotal then total else 0)
    {
      SumTaggedAppend(head, middle, tag);
      SumTaggedAppend(head + middle, tail, tag);
      SumTaggedSingle(BranchHeader(g), tag);
      SumTaggedCons(tail[0], [SeparatorRow], tag);
      SumTaggedSingle(SeparatorRow, tag);
    }
  }

  /** Over the whole sheet the 新規 rows add up to `each * N` plus the
      remainder, N the number of accounts; the same for 更新. */
  lemma {:induction false} ReportShares(groups: seq<AreaGroup>, cfg: Config)
    ensures var rows := Report(groups, cfg);
      var n := AccountCount(groups);
      && SumTagged(rows, TagNew) == SharesSum(cfg.plan.eachNew, cfg.plan.remNew, 0, n)
      && SumTagged(rows, TagUpdate) == SharesSum(cfg.plan.eachUpdate, cfg.plan.remUpdate, 0, n)
  {
    if groups != [] {
      var prefix := groups[..|groups| - 1];
      var last := groups[|groups| - 1];
      var a := AccountCount(prefix);
      ReportShares(prefix, cfg);
      BranchSums(last, a, cfg);
      SharesSumSplit(cfg.plan.eachNew, cfg.plan.remNew, a, |last.accounts|);
      SharesSumSplit(cfg.plan.eachUpdate, cfg.plan.remUpdate, a, |last.accounts|);
      var before := Report(prefix, cfg);
      var branch := BranchRows(last, a, cfg);
      assert Report(groups, cfg) == before + branch;
      SumTaggedAppend(before, branch, TagNew);
      SumTaggedAppend(before, branch, TagUpdate);
    }
  }

  /** Over the whole sheet the 支店合計 rows add up to the 小計 rows, which
      add up to the 新規 and 更新 rows. */
  lemma {:induction false} ReportSums(groups: seq<AreaGroup>, cfg: Config)
    ensures var rows := Report(groups, cfg);
      && SumTagged(rows, TagBranchTotal) == SumTagged(rows, TagSubtotal)
      && SumTagged(rows, TagSubtotal) == SumTagged(rows, TagNew) + SumTagged(rows, TagUpdate)
  {
    if groups != [] {
      var prefix := groups[..|groups| - 1];
      var last := groups[|groups| - 1];
      var a := AccountCount(prefix);
      ReportSums(prefix, cfg);
      BranchSums(last, a, cfg);
      var before := Report(prefix, cfg);
      var branch := BranchRows(last, a, cfg);
      assert Report(groups, cfg) == before + branch;
      SumTaggedAppend(before, branch, TagNew);
      SumTaggedAppend(before, branch, TagUpdate);
      SumTaggedAppend(before, branch, TagSubtotal);
      SumTaggedAppend(before, branch, TagBranchTotal);
    }
  }

  /** Shared out over n > 0 accounts, the by-date plan gives back the targets. */
  lemma ByDateSharesSum(targetNew: nat, targetUpdated: nat, n: nat)
    requires n > 0
    ensures var p := ByDatePlan(targetNew, targetUpdated, n);
      SharesSum(p.eachNew, p.remNew, 0, n) == targetNew && SharesSum(p.eachUpdate, p.remUpdate, 0, n) == targetUpdated
  {
    ByDateExact(targetNew, targetUpdated, n);
  }

  /** The by-date sheet hands out exactly the day's figures: its 新規 rows add
      up to `target_new`, its 更新 rows to `target_updated`, its 支店合計 rows
      to both, whenever the mapping has a row. */
  lemma ByDateHandsOutTarget(mapping: seq<MappingItem>, summary: DateSummary)
    requires |mapping| > 0
    ensures var rows := Report(GroupByName(mapping), ByDateConfig(summary, |mapping|));
      && SumTagged(rows, TagNew) == summary.targetNew
      && SumTagged(rows, TagUpdate) == summary.targetUpdated
      && SumTagged(rows, TagBranchTotal) == summary.targetNew + summary.targetUpdated
  {
    var cfg := ByDateConfig(summary, |mapping|);
    var groups := GroupByName(mapping);
    GroupCountFacts(mapping);
    ReportShares(groups, cfg);
    ReportSums(groups, cfg);
    ByDateSharesSum(summary.targetNew, summary.targetUpdated, |mapping|);
  }

  /** The today sheet's 新規 rows add up to the month (or week) figure when
      it is at least the number of accounts n, to 0 when it is 0, and to
      n + figure, more than the figure its notes quote, when it lies
      strictly between 0 and n; the same for 更新. */
  lemma TodayHandout(mapping: seq<MappingItem>, summary: CompaniesSummary)
    requires |mapping| > 0
    ensures var rows := Report(GroupByName(mapping), TodayConfig(summary, |mapping|));
      var t := PlanToday(summary, |mapping|);
      var n := |mapping|;
      && (t.shownNew == 0 ==> SumTagged(rows, TagNew) == 0)
      && (t.shownNew >= n ==> SumTagged(rows, TagNew) == t.shownNew)
      && (0 < t.shownNew < n ==> SumTagged(rows, TagNew) == n + t.shownNew)
      && (t.shownUpdated == 0 ==> SumTagged(rows, TagUpdate) == 0)
      && (t.shownUpdated >= n ==> SumTagged(rows, TagUpdate) == t.shownUpdated)
      && (0 < t.shownUpdated < n ==> SumTagged(rows, TagUpdate) == n + t.shownUpdated)
  {
    var n := |mapping|;
    var t := PlanToday(summary, n);
    GroupCountFacts(mapping);
    ReportShares(GroupByName(mapping), TodayConfig(summary, n));
    ClampedHandout(t.shownNew, n);
    ClampedHandout(t.shownUpdated, n);
  }

  // ---------------------------------------------------------------------------
  // The date endpoints

  /** 400, or the 500 of the handler that catches everything else. */
  datatype HttpError = BadRequest | ServerError

  /** `export_excel_by_date`, lines 1003-1014: a date that is present and not
      empty must parse, or the answer is 400; an empty text passes unchecked
      and reaches the summary as text. */
  function ExportTarget(date: Option<string>): (r: Result<TargetArg, HttpError>)
    ensures r.Err? <==> date.Some? && date.value != "" && ParseIsoDate(date.value).None?
    ensures date.None? ==> r == Ok(NoTarget)
    ensures date.Some? && r.Ok? ==> r == Ok(TargetText(date.value))
  {
    match date
    case None => Ok(NoTarget)
    case Some(s) => if s != "" && ParseIsoDate(s).None? then Err(BadRequest) else Ok(TargetText(s))
  }

  /** The rows the by-date export writes; 400 for a bad date; 500 when the
      builder's mapping read (None) raises, caught at lines 1137-1138. */
  method ExportExcelByDate(date: Option<string>, mapping: Option<seq<MappingItem>>, now: Date, counts: DayCounts)
    returns (r: Result<seq<Row>, HttpError>)
    requires IsValidDate(now)
    ensures r == Err(BadRequest) <==> date.Some? && date.value != "" && ParseIsoDate(date.value).None?
    ensures r == Err(ServerError) <==> ExportTarget(date).Ok? && mapping.None?
    ensures r.Ok? ==> mapping.Some? && ExportTarget(date).Ok?
    ensures r.Ok? ==> r.value == Report(GroupByName(mapping.value),
                                        ByDateConfig(SummaryByDate(ExportTarget(date).value, now, counts), |mapping.value|))
  {
    var target := ExportTarget(date);
    if target.Err? {
      return Err(BadRequest);
    }
    if mapping.None? {
      return Err(ServerError);
    }
    var summary := SummaryByDate(target.value, now, counts);
    var rows := GenerateByDate(mapping.value, summary);
    return Ok(rows);
  }

  /** `get_date_summary`, lines 1270-1288: 400 exactly when the path text is
      not a date, otherwise the summary of that date. */
  function DateSummaryEndpoint(dateText: string, now: Date, counts: DayCounts): (r: Result<DateSummary, HttpError>)
    requires IsValidDate(now)
    ensures r.Err? <==> ParseIsoDate(dateText).None?
    ensures r.Ok? ==> r.value == SummaryByDate(TargetDate(ParseIsoDate(dateText).value), now, counts)
  {
    match ParseIsoDate(dateText)
    case None => Err(BadRequest)
    case Some(d) => Ok(SummaryByDate(TargetDate(d), now, counts))
  }
}
