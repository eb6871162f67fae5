/** real_data_app.py, the two JSON summaries: `get_filtered_data` (a period
    token, at most 5 branches and 3 accounts each) and `get_date_range_data`
    (a custom date range over every branch, grouped by name). */
module RealSummary {
  import opened Wrappers
  import opened Dates
  import opened Period
  import opened Grouping

  function Min(a: int, b: int): int {
    if a <= b then a else b
  }

  // ---------------------------------------------------------------- get_filtered_data

  /** The period text of the response: `year` (and any unknown token) reads 今日. */
  function PeriodText(token: string): (t: string)
    ensures t == "今日" <==> token !in {"week", "month", "all"}
    ensures token == "week" ==> t == "1週間"
    ensures token == "month" ==> t == "1ヶ月"
    ensures token == "all" ==> t == "全データ"
  {
    if token == "today" then "今日"
    else if token == "week" then "1週間"
    else if token == "month" then "1ヶ月"
    else if token == "all" then "全データ"
    else "今日"
  }

  datatype AccountDetail = AccountDetail(id: int, name: string, newCount: nat, updateCount: nat,
                                         unassignedCount: nat, totalCount: nat, needsHellowork: bool)

  /** Sums over `accounts_detail`. */
  function SumNew(ds: seq<AccountDetail>): nat {
    if ds == [] then 0 else SumNew(ds[..|ds| - 1]) + ds[|ds| - 1].newCount
  }

  function SumUpdate(ds: seq<AccountDetail>): nat {
    if ds == [] then 0 else SumUpdate(ds[..|ds| - 1]) + ds[|ds| - 1].updateCount
  }

  function SumTotal(ds: seq<AccountDetail>): nat {
    if ds == [] then 0 else SumTotal(ds[..|ds| - 1]) + ds[|ds| - 1].totalCount
  }

  lemma SumsAppend(ds: seq<AccountDetail>, d: AccountDetail)
    ensures SumNew(ds + [d]) == SumNew(ds) + d.newCount && SumUpdate(ds + [d]) == SumUpdate(ds) + d.updateCount
  {
    assert (ds + [d])[..|ds|] == ds;
  }

  /** Account totals are new + update, so they sum to the new and update sums. */
  lemma {:induction false} SumTotalSplits(ds: seq<AccountDetail>)
    requires forall i :: 0 <= i < |ds| ==> ds[i].totalCount == ds[i].newCount + ds[i].updateCount
    ensures SumTotal(ds) == SumNew(ds) + SumUpdate(ds)
  {
    if ds != [] {
      SumTotalSplits(ds[..|ds| - 1]);
    }
  }

  /** One entry of `accounts_detail`: the counter's figures over the token's
      period (no custom dates are passed), or zeros when the counter raised. */
  function AccountDetailOf(area: AreaWithAccounts, account: MappingItem, token: string, today: Ordinal,
                           query: CountQuery): AccountDetail
  {
    match CountsByPeriod(area.areaId, account.accountId, token, today, None, None, query)
    case Ok(c) =>
      AccountDetail(account.accountId, account.accountName, c.newCount, c.updateCount, c.unassignedCount,
                    c.newCount + c.updateCount, account.needsHellowork)
    case Err(_) =>
      AccountDetail(account.accountId, account.accountName, 0, 0, 0, 0, account.needsHellowork)
  }

  /** Lines 1447-1484: an account's total is new + update, its unassigned
      figure is 0, and its counts are the query's over the token's period,
      or zeros when the query failed or the period could not be resolved. */
  lemma AccountDetailFacts(area: AreaWithAccounts, account: MappingItem, token: string, today: Ordinal,
                           query: CountQuery)
    ensures var d := AccountDetailOf(area, account, token, today, query);
      && d.id == account.accountId && d.name == account.accountName && d.needsHellowork == account.needsHellowork
      && d.unassignedCount == 0 && d.totalCount == d.newCount + d.updateCount
      && (ResolvePeriod(token, today, None, None).Err? ==> d.newCount == 0 && d.updateCount == 0)
      && (ResolvePeriod(token, today, None, None).Ok? ==>
            var q := query(area.areaId, account.accountId, ResolvePeriod(token, today, None, None).value);
            if q.Some? then d.newCount == q.value.0 && d.updateCount == q.value.1
            else d.newCount == 0 && d.updateCount == 0)
  {
  }

  /** The per-branch unassigned figure, or 0 when its query raised. */
  type UnassignedCount = int -> Option<nat>

  function UnassignedOf(areaId: int, unassigned: UnassignedCount): nat {
    if unassigned(areaId).Some? then unassigned(areaId).value else 0
  }

  datatype AreaDetail = AreaDetail(id: int, name: string, newCount: nat, updateCount: nat, unassignedCount: nat,
                                   totalCount: nat, accounts: seq<AccountDetail>, hasHelloworkAccounts: bool)

  /** Sums over `areas_data`. */
  function AreasNew(ds: seq<AreaDetail>): nat {
    if ds == [] then 0 else AreasNew(ds[..|ds| - 1]) + ds[|ds| - 1].newCount
  }

  function AreasUpdate(ds: seq<AreaDetail>): nat {
    if ds == [] then 0 else AreasUpdate(ds[..|ds| - 1]) + ds[|ds| - 1].updateCount
  }

  function AreasUnassigned(ds: seq<AreaDetail>): nat {
    if ds == [] then 0 else AreasUnassigned(ds[..|ds| - 1]) + ds[|ds| - 1].unassignedCount
  }

  function AreasTotal(ds: seq<AreaDetail>): nat {
    if ds == [] then 0 else AreasTotal(ds[..|ds| - 1]) + ds[|ds| - 1].totalCount
  }

  lemma AreasAppend(ds: seq<AreaDetail>, d: AreaDetail)
    ensures AreasNew(ds + [d]) == AreasNew(ds) + d.newCount && AreasUpdate(ds + [d]) == AreasUpdate(ds) + d.updateCount
    ensures AreasUnassigned(ds + [d]) == AreasUnassigned(ds) + d.unassignedCount
  {
    assert (ds + [d])[..|ds|] == ds;
  }

  /** Branch totals add up: new, update and unassigned summed over the
      branches give the branch totals summed. */
  lemma {:induction false} AreaTotalsAdd(ds: seq<AreaDetail>)
    requires forall i :: 0 <= i < |ds| ==> ds[i].totalCount == ds[i].newCount + ds[i].updateCount + ds[i].unassignedCount
    ensures AreasTotal(ds) == AreasNew(ds) + AreasUpdate(ds) + AreasUnassigned(ds)
  {
    if ds != [] {
      AreaTotalsAdd(ds[..|ds| - 1]);
    }
  }

  /** The figures of one account list, in order. */
  function AccountDetails(area: AreaWithAccounts, accounts: seq<MappingItem>, token: string, today: Ordinal,
                          query: CountQuery): (ds: seq<AccountDetail>)
    ensures |ds| == |accounts|
  {
    seq(|accounts|, j requires 0 <= j < |accounts| => AccountDetailOf(area, accounts[j], token, today, query))
  }

  /** One entry of `areas_data`: the first three accounts only. */
  function AreaDetailOf(area: AreaWithAccounts, token: string, today: Ordinal, query: CountQuery,
                        unassigned: UnassignedCount): AreaDetail
  {
    var ds := AccountDetails(area, area.accounts[..Min(|area.accounts|, 3)], token, today, query);
    var unassignedTotal := UnassignedOf(area.areaId, unassigned);
    AreaDetail(area.areaId, area.areaName, SumNew(ds), SumUpdate(ds), unassignedTotal,
               SumNew(ds) + SumUpdate(ds) + unassignedTotal, ds, area.hasHelloworkAccounts)
  }

  /** Lines 1445 and 1489-1504: a branch lists its first three accounts in
      order, its new and update figures are their sums, and its total adds
      the branch's own unassigned figure to the sum of the account totals. */
  lemma AreaDetailFacts(area: AreaWithAccounts, token: string, today: Ordinal, query: CountQuery,
                        unassigned: UnassignedCount)
    ensures var d := AreaDetailOf(area, token, today, query, unassigned);
      && d.id == area.areaId && d.name == area.areaName && d.hasHelloworkAccounts == area.hasHelloworkAccounts
      && |d.accounts| == Min(|area.accounts|, 3)
      && (forall j :: 0 <= j < |d.accounts| ==>
            d.accounts[j] == AccountDetailOf(area, area.accounts[j], token, today, query))
      && d.newCount == SumNew(d.accounts) && d.updateCount == SumUpdate(d.accounts)
      && d.unassignedCount == UnassignedOf(area.areaId, unassigned)
      && d.totalCount == SumTotal(d.accounts) + d.unassignedCount
      && d.totalCount == d.newCount + d.updateCount + d.unassignedCount
  {
    var firstAccounts := area.accounts[..Min(|area.accounts|, 3)];
    var ds := AccountDetails(area, firstAccounts, token, today, query);
    forall i | 0 <= i < |ds| ensures ds[i].totalCount == ds[i].newCount + ds[i].updateCount {
      AccountDetailFacts(area, firstAccounts[i], token, today, query);
    }
    SumTotalSplits(ds);
  }

  datatype FilteredData = FilteredData(periodText: string, totalNew: nat, totalUpdate: nat, totalUnassigned: nat,
                                       totalCompanies: nat, areas: seq<AreaDetail>)

  /** `get_filtered_data`. `areasResult` is None when reading the branches
      failed, which answers with an empty success response. That response has
      no `total_unassigned` key; the model writes 0 in that field. */
  method GetFilteredData(areasResult: Option<seq<AreaWithAccounts>>, token: string, today: Ordinal,
                         query: CountQuery, unassigned: UnassignedCount) returns (r: FilteredData)
    ensures areasResult.None? ==> r == FilteredData("今日", 0, 0, 0, 0, [])
    ensures areasResult.Some? ==>
      && r.periodText == PeriodText(token)
      && |r.areas| == Min(|areasResult.value|, 5)
      && (forall i :: 0 <= i < |r.areas| ==>
            r.areas[i] == AreaDetailOf(areasResult.value[i], token, today, query, unassigned))
      && r.totalNew == AreasNew(r.areas)
      && r.totalUpdate == AreasUpdate(r.areas)
      && r.totalUnassigned == AreasUnassigned(r.areas)
      && r.totalCompanies == r.totalNew + r.totalUpdate + r.totalUnassigned
      && r.totalCompanies == AreasTotal(r.areas)
  {
    if areasResult.None? {
      return FilteredData("今日", 0, 0, 0, 0, []);
    }
    var areasWithAccounts := areasResult.value;
    var periodText := PeriodText(token);
    var limitedAreas := if |areasWithAccounts| > 5 then areasWithAccounts[..5] else areasWithAccounts;
    var areasData, totalNew, totalUpdate, totalUnassigned := FilteredAreas(limitedAreas, token, today, query, unassigned);
    r := FilteredData(periodText, totalNew, totalUpdate, totalUnassigned, totalNew + totalUpdate + totalUnassigned, areasData);
    forall k | 0 <= k < |areasData|
      ensures areasData[k].totalCount == areasData[k].newCount + areasData[k].updateCount + areasData[k].unassignedCount
    {
    }
    AreaTotalsAdd(areasData);
  }

  /** The branch loop of `get_filtered_data`, over the first five branches. */
  method FilteredAreas(limitedAreas: seq<AreaWithAccounts>, token: string, today: Ordinal, query: CountQuery,
                       unassigned: UnassignedCount)
    returns (areasData: seq<AreaDetail>, totalNew: nat, totalUpdate: nat, totalUnassigned: nat)
    ensures |areasData| == |limitedAreas|
    ensures forall k :: 0 <= k < |areasData| ==> areasData[k] == AreaDetailOf(limitedAreas[k], token, today, query, unassigned)
    ensures totalNew == AreasNew(areasData) && totalUpdate == AreasUpdate(areasData)
    ensures totalUnassigned == AreasUnassigned(areasData)
  {
    totalNew, totalUpdate, totalUnassigned := 0, 0, 0;
    areasData := [];
    for i := 0 to |limitedAreas|
      invariant |areasData| == i
      invariant forall k :: 0 <= k < i ==> areasData[k] == AreaDetailOf(limitedAreas[k], token, today, query, unassigned)
      invariant totalNew == AreasNew(areasData) && totalUpdate == AreasUpdate(areasData)
      invariant totalUnassigned == AreasUnassigned(areasData)
    {
      var detail := FilteredAreaDetail(limitedAreas[i], token, today, query, unassigned);
      AreasAppend(areasData, detail);
      totalNew := totalNew + detail.newCount;
      totalUpdate := totalUpdate + detail.updateCount;
      totalUnassigned := totalUnassigned + detail.unassignedCount;
      areasData := areasData + [detail];
    }
  }

  /** The body of the branch loop of `get_filtered_data`, over `accounts[:3]`. */
  method FilteredAreaDetail(area: AreaWithAccounts, token: string, today: Ordinal, query: CountQuery,
                            unassigned: UnassignedCount) returns (d: AreaDetail)
    ensures d == AreaDetailOf(area, token, today, query, unassigned)
  {
    var areaNewTotal, areaUpdateTotal := 0, 0;
    var areaUnassignedTotal := if unassigned(area.areaId).Some? then unassigned(area.areaId).value else 0;
    var accountsDetail: seq<AccountDetail> := [];
    var firstAccounts := area.accounts[..Min(|area.accounts|, 3)];
    for j := 0 to |firstAccounts|
      invariant |accountsDetail| == j
      invariant forall k :: 0 <= k < j ==> accountsDetail[k] == AccountDetailOf(area, firstAccounts[k], token, today, query)
      invariant areaNewTotal == SumNew(accountsDetail)
      invariant areaUpdateTotal == SumUpdate(accountsDetail)
    {
      var account := firstAccounts[j];
      var detail := AccountDetailOf(area, account, token, today, query);
      SumsAppend(accountsDetail, detail);
      areaNewTotal := areaNewTotal + detail.newCount;
      areaUpdateTotal := areaUpdateTotal + detail.updateCount;
      accountsDetail := accountsDetail + [detail];
    }
    assert accountsDetail == AccountDetails(area, firstAccounts, token, today, query);
    d := AreaDetail(area.areaId, area.areaName, areaNewTotal, areaUpdateTotal, areaUnassignedTotal,
                    areaNewTotal + areaUpdateTotal + areaUnassignedTotal, accountsDetail, area.hasHelloworkAccounts);
  }

  /** The `year` token counts a full year while the response calls the period 今日. */
  lemma YearLabelledToday(today: Ordinal)
    requires today > 365
    ensures PeriodText("year") == PeriodText("today")
    ensures Days(ResolvePeriod("year", today, None, None).value) == 366
    ensures Days(ResolvePeriod("today", today, None, None).value) == 1
  {
    PeriodLengths(today);
  }

  // ---------------------------------------------------------------- get_date_range_data

  /** The status of an error response: 400 or 500. */
  datatype HttpError = BadRequest | ServerError

  datatype RangeAccount = RangeAccount(accountName: string, newCount: nat, updateCount: nat, unassignedCount: nat,
                                       totalCount: nat)

  datatype RangeArea = RangeArea(areaName: string, newTotal: nat, updateTotal: nat, unassignedTotal: nat,
                                 areaTotal: nat, accounts: seq<RangeAccount>)

  datatype RangeData = RangeData(periodText: string, startText: string, endText: string, totalNew: nat,
                                 totalUpdate: nat, totalUnassigned: nat, totalAll: nat, areas: seq<RangeArea>)

  /** `period_text`: the two parsed dates in their ISO form around " 〜 ".
      Each half reads back as its date, whatever spelling the request used. */
  function RangePeriodText(start: Date, end: Date): (t: string)
    requires IsValidDate(start) && IsValidDate(end)
    ensures |t| == 23 && t[10..13] == " 〜 "
    ensures ParseIsoDate(t[..10]) == Some(start) && ParseIsoDate(t[13..]) == Some(end)
  {
    FormatThenParse(start);
    FormatThenParse(end);
    var t := FormatIsoDate(start) + " 〜 " + FormatIsoDate(end);
    assert t[..10] == FormatIsoDate(start) && t[13..] == FormatIsoDate(end);
    t
  }

  /** The per-branch unassigned figure over an interval; None when its query raised. */
  type RangeUnassigned = (int, Interval) -> Option<nat>

  /** One entry of `account_details`: the counter over the custom range. */
  function RangeAccountOf(areaId: int, account: AccountRef, start: Ordinal, end: Ordinal, today: Ordinal,
                          query: CountQuery): RangeAccount
  {
    var c := CountsByPeriod(areaId, account.accountId, "custom", today, Some(start), Some(end), query).value;
    RangeAccount(account.accountName, c.newCount, c.updateCount, c.unassignedCount, c.newCount + c.updateCount)
  }

  /** Lines 1592-1610: the counts are the query's over exactly the given
      range (zeros when it failed), unassigned is 0, the total is new + update,
      and "today" plays no part. */
  lemma RangeAccountFacts(areaId: int, account: AccountRef, start: Ordinal, end: Ordinal, today: Ordinal,
                          otherToday: Ordinal, query: CountQuery)
    ensures var a := RangeAccountOf(areaId, account, start, end, today, query);
      var q := query(areaId, account.accountId, Interval(start, end));
      && a.accountName == account.accountName
      && a.unassignedCount == 0 && a.totalCount == a.newCount + a.updateCount
      && (q.Some? ==> a.newCount == q.value.0 && a.updateCount == q.value.1)
      && (q.None? ==> a.newCount == 0 && a.updateCount == 0)
      && a == RangeAccountOf(areaId, account, start, end, otherToday, query)
  {
  }

  function RangeAccounts(areaId: int, accounts: seq<AccountRef>, start: Ordinal, end: Ordinal, today: Ordinal,
                         query: CountQuery): (rs: seq<RangeAccount>)
    ensures |rs| == |accounts|
  {
    seq(|accounts|, j requires 0 <= j < |accounts| => RangeAccountOf(areaId, accounts[j], start, end, today, query))
  }

  /** Sums over `account_details`. */
  function SumRangeNew(rs: seq<RangeAccount>): nat {
    if rs == [] then 0 else SumRangeNew(rs[..|rs| - 1]) + rs[|rs| - 1].newCount
  }

  function SumRangeUpdate(rs: seq<RangeAccount>): nat {
    if rs == [] then 0 else SumRangeUpdate(rs[..|rs| - 1]) + rs[|rs| - 1].updateCount
  }

  function SumRangeTotal(rs: seq<RangeAccount>): nat {
    if rs == [] then 0 else SumRangeTotal(rs[..|rs| - 1]) + rs[|rs| - 1].totalCount
  }

  lemma SumRangeAppend(rs: seq<RangeAccount>, r: RangeAccount)
    ensures SumRangeNew(rs + [r]) == SumRangeNew(rs) + r.newCount
    ensures SumRangeUpdate(rs + [r]) == SumRangeUpdate(rs) + r.updateCount
  {
    assert (rs + [r])[..|rs|] == rs;
  }

  lemma {:induction false} SumRangeTotalSplits(rs: seq<RangeAccount>)
    requires forall i :: 0 <= i < |rs| ==> rs[i].totalCount == rs[i].newCount + rs[i].updateCount
    ensures SumRangeTotal(rs) == SumRangeNew(rs) + SumRangeUpdate(rs)
  {
    if rs != [] {
      SumRangeTotalSplits(rs[..|rs| - 1]);
    }
  }

  function RangeUnassignedOf(areaId: int, iv: Interval, unassigned: RangeUnassigned): nat {
    if unassigned(areaId, iv).Some? then unassigned(areaId, iv).value else 0
  }

  /** One entry of `period_results`: every account of a branch grouped by name. */
  function RangeAreaOf(group: AreaGroup, start: Ordinal, end: Ordinal, today: Ordinal, query: CountQuery,
                       unassigned: RangeUnassigned): RangeArea
  {
    var rs := RangeAccounts(group.areaId, group.accounts, start, end, today, query);
    var u := RangeUnassignedOf(group.areaId, Interval(start, end), unassigned);
    RangeArea(group.areaName, SumRangeNew(rs), SumRangeUpdate(rs), u, SumRangeNew(rs) + SumRangeUpdate(rs) + u, rs)
  }

  /** Lines 1571-1620: a branch lists all its accounts in order, and its
      total is the sum of the account totals, which leave unassigned out,
      plus the branch's own unassigned figure over the range. */
  lemma RangeAreaFacts(group: AreaGroup, start: Ordinal, end: Ordinal, today: Ordinal, query: CountQuery,
                       unassigned: RangeUnassigned)
    ensures var a := RangeAreaOf(group, start, end, today, query, unassigned);
      && a.areaName == group.areaName
      && |a.accounts| == |group.accounts|
      && (forall j :: 0 <= j < |a.accounts| ==>
            a.accounts[j] == RangeAccountOf(group.areaId, group.accounts[j], start, end, today, query))
      && a.newTotal == SumRangeNew(a.accounts) && a.updateTotal == SumRangeUpdate(a.accounts)
      && a.unassignedTotal == RangeUnassignedOf(group.areaId, Interval(start, end), unassigned)
      && a.areaTotal == a.newTotal + a.updateTotal + a.unassignedTotal
      && a.areaTotal == SumRangeTotal(a.accounts) + a.unassignedTotal
  {
    var rs := RangeAccounts(group.areaId, group.accounts, start, end, today, query);
    forall i | 0 <= i < |rs| ensures rs[i].totalCount == rs[i].newCount + rs[i].updateCount {
      RangeAccountFacts(group.areaId, group.accounts[i], start, end, today, today, query);
    }
    SumRangeTotalSplits(rs);
  }

  /** Sums over `period_results`. */
  function RangeAreasNew(ps: seq<RangeArea>): nat {
    if ps == [] then 0 else RangeAreasNew(ps[..|ps| - 1]) + ps[|ps| - 1].newTotal
  }

  function RangeAreasUpdate(ps: seq<RangeArea>): nat {
    if ps == [] then 0 else RangeAreasUpdate(ps[..|ps| - 1]) + ps[|ps| - 1].updateTotal
  }

  function RangeAreasUnassigned(ps: seq<RangeArea>): nat {
    if ps == [] then 0 else RangeAreasUnassigned(ps[..|ps| - 1]) + ps[|ps| - 1].unassignedTotal
  }

  function RangeAreasTotal(ps: seq<RangeArea>): nat {
    if ps == [] then 0 else RangeAreasTotal(ps[..|ps| - 1]) + ps[|ps| - 1].areaTotal
  }

  lemma RangeAreasAppend(ps: seq<RangeArea>, p: RangeArea)
    ensures RangeAreasNew(ps + [p]) == RangeAreasNew(ps) + p.newTotal
    ensures RangeAreasUpdate(ps + [p]) == RangeAreasUpdate(ps) + p.updateTotal
    ensures RangeAreasUnassigned(ps + [p]) == RangeAreasUnassigned(ps) + p.unassignedTotal
  {
    assert (ps + [p])[..|ps|] == ps;
  }

  lemma {:induction false} RangeAreasAdd(ps: seq<RangeArea>)
    requires forall i :: 0 <= i < |ps| ==> ps[i].areaTotal == ps[i].newTotal + ps[i].updateTotal + ps[i].unassignedTotal
    ensures RangeAreasTotal(ps) == RangeAreasNew(ps) + RangeAreasUpdate(ps) + RangeAreasUnassigned(ps)
  {
    if ps != [] {
      RangeAreasAdd(ps[..|ps| - 1]);
    }
  }

  /** `not start_date_str or not end_date_str`: absent or empty. */
  predicate Missing(text: Option<string>) {
    text.None? || text.value == ""
  }

  /** `get_date_range_data`. A missing date answers 400; a date that
      `strptime` rejects, or a mapping read that raises (None), raises inside
      the outer `try` and answers 500. */
  method GetDateRangeData(startText: Option<string>, endText: Option<string>, mapping: Option<seq<MappingItem>>,
                          today: Ordinal, query: CountQuery, unassigned: RangeUnassigned)
    returns (r: Result<RangeData, HttpError>)
    ensures r == Err(BadRequest) <==> Missing(startText) || Missing(endText)
    ensures r == Err(ServerError) <==>
      !Missing(startText) && !Missing(endText)
      && (ParseIsoDate(startText.value).None? || ParseIsoDate(endText.value).None? || mapping.None?)
    ensures r.Ok? ==>
      && !Missing(startText) && !Missing(endText)
      && ParseIsoDate(startText.value).Some? && ParseIsoDate(endText.value).Some? && mapping.Some?
      && var s := ToOrdinal(ParseIsoDate(startText.value).value);
         var e := ToOrdinal(ParseIsoDate(endText.value).value);
         var groups := GroupByName(mapping.value);
         && r.value.periodText == RangePeriodText(ParseIsoDate(startText.value).value, ParseIsoDate(endText.value).value)
         && r.value.startText == startText.value && r.value.endText == endText.value
         && |r.value.areas| == |groups|
         && (forall i :: 0 <= i < |groups| ==>
               r.value.areas[i] == RangeAreaOf(groups[i], s, e, today, query, unassigned))
         && r.value.totalNew == RangeAreasNew(r.value.areas)
         && r.value.totalUpdate == RangeAreasUpdate(r.value.areas)
         && r.value.totalUnassigned == RangeAreasUnassigned(r.value.areas)
         && r.value.totalAll == r.value.totalNew + r.value.totalUpdate + r.value.totalUnassigned
         && r.value.totalAll == RangeAreasTotal(r.value.areas)
  {
    if Missing(startText) || Missing(endText) {
      return Err(BadRequest);
    }
    var startDate := ParseIsoDate(startText.value);
    if startDate.None? {
      return Err(ServerError);
    }
    var endDate := ParseIsoDate(endText.value);
    if endDate.None? {
      return Err(ServerError);
    }
    if mapping.None? {
      return Err(ServerError);
    }
    var s := ToOrdinal(startDate.value);
    var e := ToOrdinal(endDate.value);
    var areas := GroupMappingByName(mapping.value);
    var periodText := RangePeriodText(startDate.value, endDate.value);
    var data := RangeTotals(periodText, startText.value, endText.value, areas, s, e, today, query, unassigned);
    r := Ok(data);
  }

  /** The branch loop of `get_date_range_data` and its running totals. */
  method RangeTotals(periodText: string, startText: string, endText: string, areas: seq<AreaGroup>, s: Ordinal, e: Ordinal,
                     today: Ordinal, query: CountQuery, unassigned: RangeUnassigned) returns (data: RangeData)
    ensures data.periodText == periodText && data.startText == startText && data.endText == endText
    ensures |data.areas| == |areas|
    ensures forall i :: 0 <= i < |areas| ==> data.areas[i] == RangeAreaOf(areas[i], s, e, today, query, unassigned)
    ensures data.totalNew == RangeAreasNew(data.areas)
    ensures data.totalUpdate == RangeAreasUpdate(data.areas)
    ensures data.totalUnassigned == RangeAreasUnassigned(data.areas)
    ensures data.totalAll == data.totalNew + data.totalUpdate + data.totalUnassigned
    ensures data.totalAll == RangeAreasTotal(data.areas)
  {
    var periodResults: seq<RangeArea> := [];
    var totalNew, totalUpdate, totalUnassigned := 0, 0, 0;
    for i := 0 to |areas|
      invariant |periodResults| == i
      invariant forall k :: 0 <= k < i ==> periodResults[k] == RangeAreaOf(areas[k], s, e, today, query, unassigned)
      invariant forall k :: 0 <= k < i ==>
        periodResults[k].areaTotal == periodResults[k].newTotal + periodResults[k].updateTotal + periodResults[k].unassignedTotal
      invariant totalNew == RangeAreasNew(periodResults) && totalUpdate == RangeAreasUpdate(periodResults)
      invariant totalUnassigned == RangeAreasUnassigned(periodResults)
    {
      var result := RangeAreaDetail(areas[i], s, e, today, query, unassigned);
      RangeAreasAppend(periodResults, result);
      totalNew := totalNew + result.newTotal;
      totalUpdate := totalUpdate + result.updateTotal;
      totalUnassigned := totalUnassigned + result.unassignedTotal;
      periodResults := periodResults + [result];
    }
    RangeAreasAdd(periodResults);
    data := RangeData(periodText, startText, endText, totalNew, totalUpdate, totalUnassigned,
                      totalNew + totalUpdate + totalUnassigned, periodResults);
  }

  /** The body of the branch loop of `get_date_range_data`. */
  method RangeAreaDetail(group: AreaGroup, start: Ordinal, end: Ordinal, today: Ordinal, query: CountQuery,
                         unassigned: RangeUnassigned) returns (a: RangeArea)
    ensures a == RangeAreaOf(group, start, end, today, query, unassigned)
  {
    var areaNewTotal, areaUpdateTotal := 0, 0;
    var areaUnassignedTotal := if unassigned(group.areaId, Interval(start, end)).Some?
                               then unassigned(group.areaId, Interval(start, end)).value else 0;
    var accountDetails: seq<RangeAccount> := [];
    for j := 0 to |group.accounts|
      invariant |accountDetails| == j
      invariant forall k :: 0 <= k < j ==>
        accountDetails[k] == RangeAccountOf(group.areaId, group.accounts[k], start, end, today, query)
      invariant areaNewTotal == SumRangeNew(accountDetails)
      invariant areaUpdateTotal == SumRangeUpdate(accountDetails)
    {
      var detail := RangeAccountOf(group.areaId, group.accounts[j], start, end, today, query);
      SumRangeAppend(accountDetails, detail);
      areaNewTotal := areaNewTotal + detail.newCount;
      areaUpdateTotal := areaUpdateTotal + detail.updateCount;
      accountDetails := accountDetails + [detail];
    }
    assert accountDetails == RangeAccounts(group.areaId, group.accounts, start, end, today, query);
    a := RangeArea(group.areaName, areaNewTotal, areaUpdateTotal, areaUnassignedTotal,
                   areaNewTotal + areaUpdateTotal + areaUnassignedTotal, accountDetails);
  }
}
