/** The branch/account mapping and the two ways the builders group it:
    real_data_app.py's `get_all_areas_with_accounts` (one entry per branch of the
    branch table, accounts matched by branch id) and the dictionary keyed by
    branch name that excel_only_app.py, real_data_implementation_example.py and
    real_data_app.py's `get_date_range_data` fill in place. */
module Grouping {
  import opened Wrappers

  /** One row of `get_area_account_mapping()`. */
  datatype MappingItem = MappingItem(areaId: int, areaName: string, accountId: int,
                                     accountName: string, needsHellowork: bool)

  /** A branch of the branch table (`FmArea.id`, `FmArea.area_name_ja`). */
  datatype Area = Area(id: int, name: string)

  // ---------------------------------------------------------------------------
  // Grouping by branch id (real_data_app.py, get_all_areas_with_accounts)

  /** `[item for item in mapping if item['area_id'] == area_id]`. */
  function AccountsOf(mapping: seq<MappingItem>, areaId: int): (r: seq<MappingItem>)
    ensures |r| <= |mapping|
    ensures forall x :: x in r <==> x in mapping && x.areaId == areaId
  {
    if mapping == [] then []
    else
      var last := mapping[|mapping| - 1];
      AccountsOf(mapping[..|mapping| - 1], areaId) + (if last.areaId == areaId then [last] else [])
  }

  /** The filter keeps a one-row mapping exactly when its branch id matches. */
  lemma AccountsOfSingle(x: MappingItem, areaId: int)
    ensures AccountsOf([x], areaId) == if x.areaId == areaId then [x] else []
  {
    assert [x][..0] == [];
  }

  /** The filter distributes over concatenation: the matching rows keep their
      mapping order and every duplicate. */
  lemma {:induction false} AccountsOfAppend(a: seq<MappingItem>, b: seq<MappingItem>, areaId: int)
    ensures AccountsOf(a + b, areaId) == AccountsOf(a, areaId) + AccountsOf(b, areaId)
  {
    if b == [] {
      assert a + b == a;
    } else {
      var prefix := b[..|b| - 1];
      var last := b[|b| - 1];
      assert (a + b)[..|a + b| - 1] == a + prefix;
      assert (a + b)[|a + b| - 1] == last;
      AccountsOfAppend(a, prefix, areaId);
    }
  }

  datatype AreaWithAccounts = AreaWithAccounts(areaId: int, areaName: string, accounts: seq<MappingItem>,
                                               hasHelloworkAccounts: bool, hasData: bool)

  /** The number of company rows of a branch, or None when that query raises. */
  type CompanyCount = int -> Option<nat>

  /** The entry `get_all_areas_with_accounts` appends for one branch. */
  function AreaEntry(area: Area, mapping: seq<MappingItem>, companies: CompanyCount): (e: AreaWithAccounts)
    ensures e.areaId == area.id && e.areaName == area.name
    ensures e.accounts == AccountsOf(mapping, area.id)
    ensures e.hasHelloworkAccounts <==> exists x :: x in mapping && x.areaId == area.id
    ensures e.hasData <==> e.hasHelloworkAccounts && companies(area.id).Some? && companies(area.id).value > 0
  {
    var accounts := AccountsOf(mapping, area.id);
    var hasData := if accounts != [] then
      (match companies(area.id) case Some(c) => c > 0 case None => false)
    else false;
    assert accounts != [] ==> accounts[0] in accounts;
    AreaWithAccounts(area.id, area.name, accounts, |accounts| > 0, hasData)
  }

  /** `get_all_areas_with_accounts`: one entry per branch, in the order of the branch table. */
  method AllAreasWithAccounts(areas: seq<Area>, mapping: seq<MappingItem>, companies: CompanyCount)
    returns (result: seq<AreaWithAccounts>)
    ensures |result| == |areas|
    ensures forall i :: 0 <= i < |areas| ==> result[i] == AreaEntry(areas[i], mapping, companies)
  {
    result := [];
    for i := 0 to |areas|
      invariant |result| == i
      invariant forall k :: 0 <= k < i ==> result[k] == AreaEntry(areas[k], mapping, companies)
    {
      var area := areas[i];
      var areaAccounts := AccountsOf(mapping, area.id);
      var hasData := false;
      if areaAccounts != [] {
        match companies(area.id)
        case Some(c) => hasData := c > 0;
        case None => hasData := false;
      }
      result := result + [AreaWithAccounts(area.id, area.name, areaAccounts, |areaAccounts| > 0, hasData)];
    }
  }

  // ---------------------------------------------------------------------------
  // Grouping by branch name (the `areas = {}` loop)

  datatype AccountRef = AccountRef(accountId: int, accountName: string)

  /** One value of the `areas` dictionary, with its key. */
  datatype AreaGroup = AreaGroup(areaName: string, areaId: int, accounts: seq<AccountRef>)

  function Ref(item: MappingItem): AccountRef {
    AccountRef(item.accountId, item.accountName)
  }

  /** The position of the group named `name`, or |groups| when there is none. */
  function IndexOfName(groups: seq<AreaGroup>, name: string): (k: nat)
    ensures k <= |groups|
    ensures k < |groups| ==> groups[k].areaName == name
    ensures k == |groups| ==> forall j :: 0 <= j < |groups| ==> groups[j].areaName != name
  {
    if groups == [] then 0
    else if groups[0].areaName == name then 0
    else 1 + IndexOfName(groups[1..], name)
  }

  /** The dictionary after the loop has seen `mapping`, as its items in insertion order. */
  function GroupByName(mapping: seq<MappingItem>): seq<AreaGroup>
  {
    if mapping == [] then []
    else
      var groups := GroupByName(mapping[..|mapping| - 1]);
      var item := mapping[|mapping| - 1];
      var k := IndexOfName(groups, item.areaName);
      if k < |groups| then groups[k := groups[k].(accounts := groups[k].accounts + [Ref(item)])]
      else groups + [AreaGroup(item.areaName, item.areaId, [Ref(item)])]
  }

  /** The references of the mapping rows named `name`, in mapping order. */
  function RefsNamed(mapping: seq<MappingItem>, name: string): seq<AccountRef>
  {
    if mapping == [] then []
    else
      var last := mapping[|mapping| - 1];
      RefsNamed(mapping[..|mapping| - 1], name) + (if last.areaName == name then [Ref(last)] else [])
  }

  /** The first mapping position whose branch is named `name`, or |mapping|. */
  function FirstIndexOfName(mapping: seq<MappingItem>, name: string): (i: nat)
    ensures i <= |mapping|
    ensures i < |mapping| ==> mapping[i].areaName == name
    ensures forall j :: 0 <= j < i ==> mapping[j].areaName != name
  {
    if mapping == [] then 0
    else if mapping[0].areaName == name then 0
    else 1 + FirstIndexOfName(mapping[1..], name)
  }

  /** The number of accounts over all groups. */
  function AccountCount(groups: seq<AreaGroup>): nat
  {
    if groups == [] then 0 else AccountCount(groups[..|groups| - 1]) + |groups[|groups| - 1].accounts|
  }

  predicate DistinctNames(groups: seq<AreaGroup>) {
    forall i, j :: 0 <= i < j < |groups| ==> groups[i].areaName != groups[j].areaName
  }

  lemma {:induction false} RefsNamedAbsent(mapping: seq<MappingItem>, name: string)
    requires forall x :: x in mapping ==> x.areaName != name
    ensures RefsNamed(mapping, name) == []
  {
    if mapping != [] {
      assert forall x :: x in mapping[..|mapping| - 1] ==> x in mapping;
      RefsNamedAbsent(mapping[..|mapping| - 1], name);
    }
  }

  lemma {:induction false} AccountCountUpdate(groups: seq<AreaGroup>, k: nat, g: AreaGroup)
    requires k < |groups|
    ensures AccountCount(groups[k := g]) == AccountCount(groups) - |groups[k].accounts| + |g.accounts|
  {
    var n := |groups| - 1;
    var updated := groups[k := g];
    assert updated[..n] == if k < n then groups[..n][k := g] else groups[..n];
    if k < n {
      AccountCountUpdate(groups[..n], k, g);
    }
  }

  lemma AccountCountAppend(groups: seq<AreaGroup>, g: AreaGroup)
    ensures AccountCount(groups + [g]) == AccountCount(groups) + |g.accounts|
  {
    assert (groups + [g])[..|groups|] == groups;
  }

  /** What appending one mapping row does to the groups: the group with its
      name gains its account at the end, or a new group is added last. */
  lemma GroupStep(prefix: seq<MappingItem>, item: MappingItem)
    ensures var before := GroupByName(prefix);
      var after := GroupByName(prefix + [item]);
      var k := IndexOfName(before, item.areaName);
      && |after| == (if k < |before| then |before| else |before| + 1)
      && (forall i :: 0 <= i < |before| ==>
            after[i].areaName == before[i].areaName && after[i].areaId == before[i].areaId
            && after[i].accounts == before[i].accounts + (if i == k then [Ref(item)] else []))
      && (k == |before| ==> after[|before|] == AreaGroup(item.areaName, item.areaId, [Ref(item)]))
  {
    assert (prefix + [item])[..|prefix|] == prefix;
  }

  /** The names are distinct, every mapping row's name has a group, and every
      group's name occurs in the mapping. */
  lemma {:induction false} GroupNamesFacts(mapping: seq<MappingItem>)
    ensures var groups := GroupByName(mapping);
      && DistinctNames(groups)
      && (forall j :: 0 <= j < |mapping| ==> IndexOfName(groups, mapping[j].areaName) < |groups|)
      && (forall i :: 0 <= i < |groups| ==> FirstIndexOfName(mapping, groups[i].areaName) < |mapping|)
  {
    if mapping == [] {
      return;
    }
    var prefix := mapping[..|mapping| - 1];
    var item := mapping[|mapping| - 1];
    assert mapping == prefix + [item];
    GroupNamesFacts(prefix);
    GroupStep(prefix, item);
    var before := GroupByName(prefix);
    var after := GroupByName(mapping);
    var k := IndexOfName(before, item.areaName);
    forall j | 0 <= j < |mapping|
      ensures IndexOfName(after, mapping[j].areaName) < |after|
    {
      var name := mapping[j].areaName;
      var c := if j < |prefix| then IndexOfName(before, prefix[j].areaName) else if k < |before| then k else |before|;
      assert after[c].areaName == name;
    }
    forall i | 0 <= i < |after|
      ensures FirstIndexOfName(mapping, after[i].areaName) < |mapping|
    {
      if i < |before| {
        var b := FirstIndexOfName(prefix, before[i].areaName);
        assert mapping[b] == prefix[b];
      } else {
        assert mapping[|prefix|].areaName == after[i].areaName;
      }
    }
  }

  /** The first occurrence of a name already seen in `prefix` does not move when a row is appended. */
  lemma FirstIndexStable(prefix: seq<MappingItem>, item: MappingItem, name: string)
    requires FirstIndexOfName(prefix, name) < |prefix|
    ensures FirstIndexOfName(prefix + [item], name) == FirstIndexOfName(prefix, name)
  {
    var m := prefix + [item];
    var b := FirstIndexOfName(prefix, name);
    assert m[b] == prefix[b];
    assert forall j :: 0 <= j < b ==> m[j] == prefix[j];
  }

  /** A name not seen in `prefix` first occurs at the appended row. */
  lemma FirstIndexNew(prefix: seq<MappingItem>, item: MappingItem)
    requires forall j :: 0 <= j < |prefix| ==> prefix[j].areaName != item.areaName
    ensures FirstIndexOfName(prefix + [item], item.areaName) == |prefix|
  {
    var m := prefix + [item];
    assert m[|prefix|] == item;
    assert forall j :: 0 <= j < |prefix| ==> m[j] == prefix[j];
  }

  /** Each group holds the accounts of all rows with its name, in mapping order. */
  lemma {:induction false} GroupAccountsFacts(mapping: seq<MappingItem>)
    ensures var groups := GroupByName(mapping);
      forall i :: 0 <= i < |groups| ==> groups[i].accounts == RefsNamed(mapping, groups[i].areaName)
  {
    if mapping == [] {
      return;
    }
    var prefix := mapping[..|mapping| - 1];
    var item := mapping[|mapping| - 1];
    assert mapping == prefix + [item];
    GroupAccountsFacts(prefix);
    GroupStep(prefix, item);
    var before := GroupByName(prefix);
    var after := GroupByName(mapping);
    var k := IndexOfName(before, item.areaName);
    if k == |before| {
      GroupNamesCovered(prefix);
      forall x | x in prefix ensures x.areaName != item.areaName {
        var j :| 0 <= j < |prefix| && prefix[j] == x;
        assert IndexOfName(before, prefix[j].areaName) < |before|;
      }
      RefsNamedAbsent(prefix, item.areaName);
    } else {
      GroupNamesDistinct(prefix);
    }
    forall i | 0 <= i < |after|
      ensures after[i].accounts == RefsNamed(mapping, after[i].areaName)
    {
      assert RefsNamed(mapping, after[i].areaName) ==
        RefsNamed(prefix, after[i].areaName) + (if item.areaName == after[i].areaName then [Ref(item)] else []);
    }
  }

  /** Each group keeps the branch id of the first row with its name. */
  lemma {:induction false} GroupIdFacts(mapping: seq<MappingItem>)
    ensures var groups := GroupByName(mapping);
      forall i :: 0 <= i < |groups| ==>
        FirstIndexOfName(mapping, groups[i].areaName) < |mapping| &&
        groups[i].areaId == mapping[FirstIndexOfName(mapping, groups[i].areaName)].areaId
  {
    GroupNamesOccur(mapping);
    if mapping == [] {
      return;
    }
    var prefix := mapping[..|mapping| - 1];
    var item := mapping[|mapping| - 1];
    assert mapping == prefix + [item];
    GroupIdFacts(prefix);
    GroupNamesCovered(prefix);
    GroupStep(prefix, item);
    var before := GroupByName(prefix);
    var after := GroupByName(mapping);
    var k := IndexOfName(before, item.areaName);
    forall i | 0 <= i < |after|
      ensures after[i].areaId == mapping[FirstIndexOfName(mapping, after[i].areaName)].areaId
    {
      if i < |before| {
        FirstIndexStable(prefix, item, before[i].areaName);
        var b := FirstIndexOfName(prefix, before[i].areaName);
        assert mapping[b] == prefix[b];
      } else {
        forall j | 0 <= j < |prefix| ensures prefix[j].areaName != item.areaName {
          assert IndexOfName(before, prefix[j].areaName) < |before|;
        }
        FirstIndexNew(prefix, item);
      }
    }
  }

  /** The groups come in the order their names first appear in the mapping. */
  lemma {:induction false} GroupOrderFacts(mapping: seq<MappingItem>)
    ensures var groups := GroupByName(mapping);
      forall i, j :: 0 <= i < j < |groups| ==>
        FirstIndexOfName(mapping, groups[i].areaName) < FirstIndexOfName(mapping, groups[j].areaName)
  {
    if mapping == [] {
      return;
    }
    var prefix := mapping[..|mapping| - 1];
    var item := mapping[|mapping| - 1];
    assert mapping == prefix + [item];
    GroupOrderFacts(prefix);
    GroupNamesFacts(prefix);
    GroupStep(prefix, item);
    var before := GroupByName(prefix);
    var after := GroupByName(mapping);
    var k := IndexOfName(before, item.areaName);
    forall i | 0 <= i < |before|
      ensures FirstIndexOfName(mapping, after[i].areaName) == FirstIndexOfName(prefix, before[i].areaName)
    {
      FirstIndexStable(prefix, item, before[i].areaName);
    }
    if k == |before| {
      forall j | 0 <= j < |prefix| ensures prefix[j].areaName != item.areaName {
        assert IndexOfName(before, prefix[j].areaName) < |before|;
      }
      FirstIndexNew(prefix, item);
    }
  }

  /** Every mapping row lands in exactly one group. */
  lemma {:induction false} GroupCountFacts(mapping: seq<MappingItem>)
    ensures AccountCount(GroupByName(mapping)) == |mapping|
  {
    if mapping == [] {
      return;
    }
    var prefix := mapping[..|mapping| - 1];
    var item := mapping[|mapping| - 1];
    GroupCountFacts(prefix);
    var before := GroupByName(prefix);
    var k := IndexOfName(before, item.areaName);
    if k < |before| {
      AccountCountUpdate(before, k, before[k].(accounts := before[k].accounts + [Ref(item)]));
    } else {
      AccountCountAppend(before, AreaGroup(item.areaName, item.areaId, [Ref(item)]));
    }
  }

  /** `areas` and its key order `order` hold exactly `groups`. */
  ghost predicate Mirrors(areas: map<string, AreaGroup>, order: seq<string>, groups: seq<AreaGroup>) {
    && |order| == |groups|
    && (forall k :: 0 <= k < |order| ==> order[k] == groups[k].areaName && order[k] in areas && areas[order[k]] == groups[k])
    && (forall name :: name in areas ==> name in order)
  }

  /** A row whose branch name is new adds a group at the end. */
  lemma MirrorsStepNew(areas: map<string, AreaGroup>, order: seq<string>, prefix: seq<MappingItem>, item: MappingItem)
    requires Mirrors(areas, order, GroupByName(prefix))
    requires item.areaName !in areas
    ensures Mirrors(areas[item.areaName := AreaGroup(item.areaName, item.areaId, [Ref(item)])],
                    order + [item.areaName], GroupByName(prefix + [item]))
  {
    var name := item.areaName;
    var before := GroupByName(prefix);
    var after := GroupByName(prefix + [item]);
    var areas' := areas[name := AreaGroup(name, item.areaId, [Ref(item)])];
    var order' := order + [name];
    GroupStep(prefix, item);
    forall j | 0 <= j < |before| ensures before[j].areaName != name {
      assert order[j] in areas;
    }
    assert IndexOfName(before, name) == |before|;
    assert |after| == |order'|;
    forall k | 0 <= k < |order'|
      ensures order'[k] == after[k].areaName && order'[k] in areas' && areas'[order'[k]] == after[k]
    {
      if k < |order| {
        assert order'[k] == order[k] && order[k] != name;
        assert after[k] == before[k];
      }
    }
    forall n | n in areas' ensures n in order' {
      if n != name {
        assert n in areas;
      }
    }
  }

  lemma GroupNamesCovered(mapping: seq<MappingItem>)
    ensures forall j :: 0 <= j < |mapping| ==> IndexOfName(GroupByName(mapping), mapping[j].areaName) < |GroupByName(mapping)|
  {
    GroupNamesFacts(mapping);
  }

  lemma GroupNamesOccur(mapping: seq<MappingItem>)
    ensures forall i :: 0 <= i < |GroupByName(mapping)| ==> FirstIndexOfName(mapping, GroupByName(mapping)[i].areaName) < |mapping|
  {
    GroupNamesFacts(mapping);
  }

  lemma GroupNamesDistinct(mapping: seq<MappingItem>)
    ensures DistinctNames(GroupByName(mapping))
  {
    GroupNamesFacts(mapping);
  }

  /** Looking up a group's own name finds that group, since names are distinct. */
  lemma GroupIndexOfOwnName(mapping: seq<MappingItem>, j: nat)
    requires j < |GroupByName(mapping)|
    ensures IndexOfName(GroupByName(mapping), GroupByName(mapping)[j].areaName) == j
  {
    GroupNamesFacts(mapping);
  }

  /** A row whose branch name is known extends that group's accounts. */
  lemma MirrorsStepKnown(areas: map<string, AreaGroup>, order: seq<string>, prefix: seq<MappingItem>, item: MappingItem)
    requires Mirrors(areas, order, GroupByName(prefix))
    requires item.areaName in areas
    ensures Mirrors(areas[item.areaName := areas[item.areaName].(accounts := areas[item.areaName].accounts + [Ref(item)])],
                    order, GroupByName(prefix + [item]))
  {
    var name := item.areaName;
    var before := GroupByName(prefix);
    var after := GroupByName(prefix + [item]);
    var j :| 0 <= j < |order| && order[j] == name;
    assert before[j].areaName == name;
    GroupIndexOfOwnName(prefix, j);
    GroupNamesDistinct(prefix);
    GroupStep(prefix, item);
    assert after[j] == areas[name].(accounts := areas[name].accounts + [Ref(item)]);
    var areas' := areas[name := areas[name].(accounts := areas[name].accounts + [Ref(item)])];
    forall i | 0 <= i < |order|
      ensures order[i] == after[i].areaName && order[i] in areas' && areas'[order[i]] == after[i]
    {
      if i != j {
        assert before[i].areaName != before[j].areaName;
        assert after[i] == before[i];
      }
    }
  }

  /** The `for item in mapping` loop that fills the `areas` dictionary: `order`
      keeps the keys in insertion order, as a Python dict does. */
  method GroupMappingByName(mapping: seq<MappingItem>) returns (groups: seq<AreaGroup>)
    ensures groups == GroupByName(mapping)
  {
    var areas: map<string, AreaGroup> := map[];
    var order: seq<string> := [];
    for i := 0 to |mapping|
      invariant Mirrors(areas, order, GroupByName(mapping[..i]))
    {
      assert mapping[..i + 1] == mapping[..i] + [mapping[i]];
      areas, order := AddRow(areas, order, mapping[..i], mapping[i]);
    }
    assert mapping[..|mapping|] == mapping;
    groups := DictItems(areas, order, GroupByName(mapping));
  }

  /** The loop body: a new name gets an empty group appended to the key
      order, then the row's account joins its name's group. */
  method AddRow(areas: map<string, AreaGroup>, order: seq<string>, ghost prefix: seq<MappingItem>, item: MappingItem)
    returns (areas': map<string, AreaGroup>, order': seq<string>)
    requires Mirrors(areas, order, GroupByName(prefix))
    ensures Mirrors(areas', order', GroupByName(prefix + [item]))
  {
    var name := item.areaName;
    areas', order' := areas, order;
    if name !in areas' {
      MirrorsStepNew(areas, order, prefix, item);
      areas' := areas'[name := AreaGroup(name, item.areaId, [])];
      order' := order' + [name];
    } else {
      MirrorsStepKnown(areas, order, prefix, item);
    }
    areas' := areas'[name := areas'[name].(accounts := areas'[name].accounts + [Ref(item)])];
  }

  /** `areas.items()`: the values in key insertion order. */
  method DictItems(areas: map<string, AreaGroup>, order: seq<string>, ghost expected: seq<AreaGroup>)
    returns (groups: seq<AreaGroup>)
    requires Mirrors(areas, order, expected)
    ensures groups == expected
  {
    groups := [];
    for k := 0 to |order|
      invariant groups == expected[..k]
    {
      groups := groups + [areas[order[k]]];
    }
  }
}
