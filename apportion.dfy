/** excel_only_app.py: how the two builders split a global new/updated total
    over the n accounts of the mapping. Every account gets `each`; the account
    at global position 0 also gets `rem`. */
module Apportion {

  function Max(a: int, b: int): int {
    if a >= b then a else b
  }

  /** Per-account share and first-account remainder, for new and for updated. */
  datatype Plan = Plan(eachNew: nat, eachUpdate: nat, remNew: nat, remUpdate: nat)

  const NoPlan: Plan := Plan(0, 0, 0, 0)

  /** `avg + (remainder if account_index == 0 else 0)`. */
  function Share(each: nat, rem: nat, index: nat): (s: nat)
  {
    each + (if index == 0 then rem else 0)
  }

  /** `generate_hierarchical_excel_data_by_date`, lines 302-317: floor division
      and remainder when there are accounts and something to share, else zeros. */
  function ByDatePlan(targetNew: nat, targetUpdated: nat, totalAccounts: nat): (p: Plan)
    ensures totalAccounts > 0 && (targetNew > 0 || targetUpdated > 0) ==>
      && p.eachNew * totalAccounts + p.remNew == targetNew && p.remNew < totalAccounts
      && p.eachUpdate * totalAccounts + p.remUpdate == targetUpdated && p.remUpdate < totalAccounts
    ensures !(totalAccounts > 0 && (targetNew > 0 || targetUpdated > 0)) ==> p == NoPlan
  {
    if totalAccounts > 0 && (targetNew > 0 || targetUpdated > 0) then
      Plan(Max(0, targetNew / totalAccounts), Max(0, targetUpdated / totalAccounts),
           targetNew % totalAccounts, targetUpdated % totalAccounts)
    else NoPlan
  }

  /** The by-date plan hands out exactly the target whenever there is an
      account: each * n + rem == target, also when the target is 0. */
  lemma ByDateExact(targetNew: nat, targetUpdated: nat, totalAccounts: nat)
    requires totalAccounts > 0
    ensures var p := ByDatePlan(targetNew, targetUpdated, totalAccounts);
      && p.eachNew * totalAccounts + p.remNew == targetNew
      && p.eachUpdate * totalAccounts + p.remUpdate == targetUpdated
  {
  }

  /** The two summaries the today builder chooses between (from
      `get_companies_summary`; its queries are not modelled). */
  datatype CompaniesSummary = CompaniesSummary(monthNew: nat, monthUpdated: nat, monthPeriod: string,
                                               weekNew: nat, weekUpdated: nat, weekPeriod: string, date: string)

  /** `max(1, total // n) if total > 0 else 0`. */
  function ClampedEach(total: nat, n: nat): (each: nat)
    requires n > 0
    ensures total > 0 <==> each >= 1
  {
    if total > 0 then Max(1, total / n) else 0
  }

  /** `total % n if total > 0 else 0`. */
  function ClampedRem(total: nat, n: nat): (rem: nat)
    requires n > 0
    ensures rem < n && rem <= total
  {
    if total > 0 then total % n else 0
  }

  /** What the today builder apportions and what its notes quote. */
  datatype TodayPlan = TodayPlan(plan: Plan, dataPeriod: string, shownNew: nat, shownUpdated: nat)

  /** `generate_hierarchical_excel_data`, lines 431-457: the month figures if
      either is positive, otherwise the week figures; nothing without accounts. */
  function PlanToday(summary: CompaniesSummary, totalAccounts: nat): (t: TodayPlan)
    ensures totalAccounts == 0 ==> t == TodayPlan(NoPlan, summary.date, 0, 0)
    ensures totalAccounts > 0 && (summary.monthNew > 0 || summary.monthUpdated > 0) ==>
      t.shownNew == summary.monthNew && t.shownUpdated == summary.monthUpdated && t.dataPeriod == summary.monthPeriod
    ensures totalAccounts > 0 && !(summary.monthNew > 0 || summary.monthUpdated > 0) ==>
      t.shownNew == summary.weekNew && t.shownUpdated == summary.weekUpdated && t.dataPeriod == summary.weekPeriod
    ensures totalAccounts > 0 ==>
      t.plan == Plan(ClampedEach(t.shownNew, totalAccounts), ClampedEach(t.shownUpdated, totalAccounts),
                     ClampedRem(t.shownNew, totalAccounts), ClampedRem(t.shownUpdated, totalAccounts))
  {
    if totalAccounts > 0 then
      if summary.monthNew > 0 || summary.monthUpdated > 0 then
        TodayPlan(Plan(ClampedEach(summary.monthNew, totalAccounts), ClampedEach(summary.monthUpdated, totalAccounts),
                       ClampedRem(summary.monthNew, totalAccounts), ClampedRem(summary.monthUpdated, totalAccounts)),
                  summary.monthPeriod, summary.monthNew, summary.monthUpdated)
      else
        TodayPlan(Plan(ClampedEach(summary.weekNew, totalAccounts), ClampedEach(summary.weekUpdated, totalAccounts),
                       ClampedRem(summary.weekNew, totalAccounts), ClampedRem(summary.weekUpdated, totalAccounts)),
                  summary.weekPeriod, summary.weekNew, summary.weekUpdated)
    else TodayPlan(NoPlan, summary.date, 0, 0)
  }

  /** What the clamped rule hands out over n accounts: nothing for a zero
      total, exactly the total when it is at least n, and n + total, more
      than the total, when 0 < total < n. */
  lemma ClampedHandout(total: nat, n: nat)
    requires n > 0
    ensures var handed := ClampedEach(total, n) * n + ClampedRem(total, n);
      && (total == 0 ==> handed == 0)
      && (total >= n ==> handed == total)
      && (0 < total < n ==> handed == n + total && handed > total)
  {
    if total >= n {
      assert total / n >= 1;
    } else if total > 0 {
      assert total / n == 0;
      assert total % n == total;
    }
  }
}
