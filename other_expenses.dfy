/** The other-expenses page: expenses grouped by calendar month (newest first), the
    per-month open/closed toggles, the dd/mm/yyyy date column and the page's updates of
    its in-memory list after each remote call. */
module OtherExpenses {
  import opened Base
  import opened Types
  import Strings
  import Numbers
  import Lists
  import MonthLabels

  /** A calendar day as `Date`'s local getters report it. */
  datatype CalendarDay = CalendarDay(year: int, month: int, day: int)

  /** How the page reads dates: `new Date(s)` for a stored string, and `new Date()` for
      the current moment. */
  datatype Calendar = Calendar(dateOf: string -> CalendarDay, today: CalendarDay)

  /** The period of a calendar day. */
  function PeriodOf(d: CalendarDay): YearMonth {
    YearMonth(d.year, d.month)
  }

  /** `oe.date ?? oe.createdAt ?? null`, with null written as "" since both are falsy. */
  function DateSource(oe: OtherExpense): string {
    if oe.date.Some? then oe.date.value
    else if oe.createdAt.Some? then oe.createdAt.value
    else ""
  }

  /** The month an expense is grouped under: the period of its date source, or of today
      when that source is missing or empty. */
  function KeyOf(oe: OtherExpense, cal: Calendar): YearMonth {
    var s := DateSource(oe);
    if s == "" then PeriodOf(cal.today) else PeriodOf(cal.dateOf(s))
  }

  /** The date wins over the creation time; the creation time is read only when there is
      no date at all; a present but empty date means today, not the creation time. */
  lemma KeyOfSources(oe: OtherExpense, cal: Calendar)
    ensures oe.date.Some? && oe.date.value != "" ==> KeyOf(oe, cal) == PeriodOf(cal.dateOf(oe.date.value))
    ensures oe.date.None? && oe.createdAt.Some? && oe.createdAt.value != "" ==>
      KeyOf(oe, cal) == PeriodOf(cal.dateOf(oe.createdAt.value))
    ensures oe.date == Some("") ==> KeyOf(oe, cal) == PeriodOf(cal.today)
    ensures oe.date.None? && (oe.createdAt.None? || oe.createdAt == Some("")) ==>
      KeyOf(oe, cal) == PeriodOf(cal.today)
  {
  }

  /** One month group: its month, its items in list order and their total. */
  datatype MonthGroup = MonthGroup(key: YearMonth, items: seq<OtherExpense>, total: int)

  /** The group's "<Mon> <year>" heading, fixed by its month when the group is created. */
  function Title(g: MonthGroup): string {
    MonthLabels.GroupLabel(g.key.month, g.key.year)
  }

  /** The expenses grouped under `k`, in list order. */
  function ItemsIn(es: seq<OtherExpense>, k: YearMonth, cal: Calendar): seq<OtherExpense> {
    if es == [] then []
    else
      var last := es[|es| - 1];
      ItemsIn(es[..|es| - 1], k, cal) + (if KeyOf(last, cal) == k then [last] else [])
  }

  /** What the group of month `k` should hold. */
  function GroupOf(es: seq<OtherExpense>, k: YearMonth, cal: Calendar): MonthGroup {
    var items := ItemsIn(es, k, cal);
    MonthGroup(k, items, SumOtherAmounts(items))
  }

  /** `a` is a later month than `b`: the comparator `b.year - a.year || b.month - a.month`
      puts `a` first. */
  predicate Later(a: YearMonth, b: YearMonth) {
    a.year > b.year || (a.year == b.year && a.month > b.month)
  }

  predicate StrictlyDescending(gs: seq<MonthGroup>) {
    forall i, j :: 0 <= i < j < |gs| ==> Later(gs[i].key, gs[j].key)
  }

  predicate DistinctKeys(gs: seq<MonthGroup>) {
    forall i, j :: 0 <= i < |gs| && 0 <= j < |gs| && i != j ==> gs[i].key != gs[j].key
  }

  /** Inserts a group before the first group that is not later than it. */
  function InsertGroup(g: MonthGroup, gs: seq<MonthGroup>): (r: seq<MonthGroup>)
    ensures multiset(r) == multiset(gs) + multiset{g}
  {
    if gs == [] then [g]
    else if Later(g.key, gs[0].key) || g.key == gs[0].key then [g] + gs
    else
      assert gs == [gs[0]] + gs[1..];
      [gs[0]] + InsertGroup(g, gs[1..])
  }

  /** The `sort` of the groups, newest month first. */
  function SortGroups(gs: seq<MonthGroup>): (r: seq<MonthGroup>)
    ensures multiset(r) == multiset(gs)
  {
    if gs == [] then []
    else
      assert gs == gs[..|gs| - 1] + [gs[|gs| - 1]];
      InsertGroup(gs[|gs| - 1], SortGroups(gs[..|gs| - 1]))
  }

  /** A group later than every group of a sorted list can go in front of it. */
  lemma ConsSorted(g: MonthGroup, gs: seq<MonthGroup>)
    requires StrictlyDescending(gs)
    requires forall j :: 0 <= j < |gs| ==> Later(g.key, gs[j].key)
    ensures StrictlyDescending([g] + gs)
  {
    var r := [g] + gs;
    forall i, j | 0 <= i < j < |r|
      ensures Later(r[i].key, r[j].key)
    {
      assert r[j] == gs[j - 1];
      if i > 0 {
        assert r[i] == gs[i - 1];
      }
    }
  }

  lemma {:induction false} InsertGroupSorted(g: MonthGroup, gs: seq<MonthGroup>)
    requires StrictlyDescending(gs)
    requires forall i :: 0 <= i < |gs| ==> gs[i].key != g.key
    ensures StrictlyDescending(InsertGroup(g, gs))
  {
    if gs == [] {
    } else if Later(g.key, gs[0].key) {
      ConsSorted(g, gs);
    } else {
      var rest := gs[1..];
      InsertGroupSorted(g, rest);
      var tail := InsertGroup(g, rest);
      forall j | 0 <= j < |tail|
        ensures Later(gs[0].key, tail[j].key)
      {
        var x := tail[j];
        assert x in multiset(rest) + multiset{g};
        if x != g {
          var k :| 0 <= k < |rest| && rest[k] == x;
          assert gs[k + 1] == x;
        }
      }
      ConsSorted(gs[0], tail);
    }
  }

  /** Sorting groups with distinct keys orders them strictly newest first. */
  lemma {:induction false} SortGroupsSorted(gs: seq<MonthGroup>)
    requires DistinctKeys(gs)
    ensures StrictlyDescending(SortGroups(gs))
  {
    if gs != [] {
      var init, last := gs[..|gs| - 1], gs[|gs| - 1];
      var sorted := SortGroups(init);
      SortGroupsSorted(init);
      forall i | 0 <= i < |sorted|
        ensures sorted[i].key != last.key
      {
        assert sorted[i] in multiset(init);
        var k :| 0 <= k < |init| && init[k] == sorted[i];
        assert gs[k] == init[k];
      }
      InsertGroupSorted(last, sorted);
    }
  }

  /** The group an expense of month `key` joins: the existing one, or a fresh empty
      group created on the month's first expense. */
  function GroupFor(byKey: map<YearMonth, MonthGroup>, key: YearMonth): MonthGroup {
    if key in byKey then byKey[key] else MonthGroup(key, [], 0)
  }

  /** `group.items.push(oe); group.total += oe.amount`. */
  function AddToGroup(g: MonthGroup, oe: OtherExpense): MonthGroup {
    g.(items := g.items + [oe], total := g.total + oe.amount)
  }

  /** The groups by month after the grouping loop has seen `es`. */
  function GroupsMap(es: seq<OtherExpense>, cal: Calendar): map<YearMonth, MonthGroup> {
    if es == [] then map[]
    else
      var m := GroupsMap(es[..|es| - 1], cal);
      var k := KeyOf(es[|es| - 1], cal);
      m[k := AddToGroup(GroupFor(m, k), es[|es| - 1])]
  }

  /** The months in the order the grouping loop first meets them (`Object.values` order). */
  function FirstSeen(es: seq<OtherExpense>, cal: Calendar): seq<YearMonth> {
    if es == [] then []
    else
      var k := KeyOf(es[|es| - 1], cal);
      if k in GroupsMap(es[..|es| - 1], cal) then FirstSeen(es[..|es| - 1], cal)
      else FirstSeen(es[..|es| - 1], cal) + [k]
  }

  /** Each month's group holds exactly that month's expenses, in list order, and their total. */
  lemma {:induction false} GroupsMapIsGroupOf(es: seq<OtherExpense>, cal: Calendar)
    ensures forall k :: GroupFor(GroupsMap(es, cal), k) == GroupOf(es, k, cal)
  {
    if es != [] {
      var init := es[..|es| - 1];
      var key := KeyOf(es[|es| - 1], cal);
      GroupsMapIsGroupOf(init, cal);
      AddToGroupIsGroupOf(es, key, cal);
      forall k | k != key
        ensures GroupFor(GroupsMap(es, cal), k) == GroupOf(es, k, cal)
      {
        OtherMonthUnchanged(es, k, cal);
        assert GroupFor(GroupsMap(es, cal), k) == GroupFor(GroupsMap(init, cal), k);
      }
    }
  }

  /** No group is empty: a group is created only for an expense that joins it. */
  lemma {:induction false} GroupsMapNonEmpty(es: seq<OtherExpense>, cal: Calendar)
    ensures forall k :: k in GroupsMap(es, cal) ==> |GroupsMap(es, cal)[k].items| > 0
  {
    if es != [] {
      GroupsMapNonEmpty(es[..|es| - 1], cal);
    }
  }

  /** `FirstSeen` lists exactly the months that have a group, each once. */
  lemma {:induction false} FirstSeenIsKeys(es: seq<OtherExpense>, cal: Calendar)
    ensures forall j :: 0 <= j < |FirstSeen(es, cal)| ==> FirstSeen(es, cal)[j] in GroupsMap(es, cal)
    ensures forall k :: k in GroupsMap(es, cal) ==> k in FirstSeen(es, cal)
    ensures forall a, b :: 0 <= a < b < |FirstSeen(es, cal)| ==> FirstSeen(es, cal)[a] != FirstSeen(es, cal)[b]
  {
    if es != [] {
      var init := es[..|es| - 1];
      var key := KeyOf(es[|es| - 1], cal);
      FirstSeenIsKeys(init, cal);
      var o, o' := FirstSeen(init, cal), FirstSeen(es, cal);
      if key !in GroupsMap(init, cal) {
        assert o' == o + [key];
        forall a | 0 <= a < |o|
          ensures o[a] != key
        {
        }
      }
    }
  }

  /** Every expense's month is among the months met. */
  lemma {:induction false} FirstSeenCovers(es: seq<OtherExpense>, cal: Calendar)
    ensures forall j :: 0 <= j < |es| ==> KeyOf(es[j], cal) in FirstSeen(es, cal)
  {
    if es != [] {
      var init := es[..|es| - 1];
      var key := KeyOf(es[|es| - 1], cal);
      FirstSeenCovers(init, cal);
      FirstSeenIsKeys(init, cal);
      var o, o' := FirstSeen(init, cal), FirstSeen(es, cal);
      assert forall k :: k in o ==> k in o';
      forall j | 0 <= j < |es|
        ensures KeyOf(es[j], cal) in o'
      {
        if j < |init| {
          assert es[j] == init[j];
        }
      }
    }
  }

  /** The grouping loop of the page followed by the sort: one group per distinct month,
      newest first, each holding exactly that month's expenses in list order and their
      total, and no expense without a group. */
  method GroupByMonth(es: seq<OtherExpense>, cal: Calendar) returns (groups: seq<MonthGroup>)
    ensures StrictlyDescending(groups)
    ensures forall i :: 0 <= i < |groups| ==> groups[i] == GroupOf(es, groups[i].key, cal)
    ensures forall i :: 0 <= i < |groups| ==> |groups[i].items| > 0
    ensures forall j :: 0 <= j < |es| ==> KeyOf(es[j], cal) in Keys(groups)
  {
    var byKey: map<YearMonth, MonthGroup> := map[];
    var order: seq<YearMonth> := [];
    for i := 0 to |es|
      invariant byKey == GroupsMap(es[..i], cal)
      invariant order == FirstSeen(es[..i], cal)
    {
      var oe := es[i];
      assert es[..i + 1][..i] == es[..i];
      assert es[..i + 1][i] == oe;
      var key := KeyOf(oe, cal);
      var g := GroupFor(byKey, key);
      if key !in byKey {
        order := order + [key];
      }
      byKey := byKey[key := AddToGroup(g, oe)];
    }
    assert es[..|es|] == es;
    FirstSeenIsKeys(es, cal);
    FirstSeenCovers(es, cal);
    var values := seq(|order|, j requires 0 <= j < |order| => byKey[order[j]]);
    ValuesOfOrder(es, values, cal);
    groups := SortGroups(values);
    GroupsOfOrder(es, FirstSeen(es, cal), values, groups, cal);
  }

  /** The groups read off the map in first-appearance order are the months' groups. */
  lemma ValuesOfOrder(es: seq<OtherExpense>, values: seq<MonthGroup>, cal: Calendar)
    requires forall j :: 0 <= j < |FirstSeen(es, cal)| ==> FirstSeen(es, cal)[j] in GroupsMap(es, cal)
    requires |values| == |FirstSeen(es, cal)|
    requires forall j :: 0 <= j < |values| ==> values[j] == GroupsMap(es, cal)[FirstSeen(es, cal)[j]]
    ensures forall j :: 0 <= j < |values| ==>
      values[j] == GroupOf(es, FirstSeen(es, cal)[j], cal) && |values[j].items| > 0
  {
    var m, o := GroupsMap(es, cal), FirstSeen(es, cal);
    GroupsMapIsGroupOf(es, cal);
    GroupsMapNonEmpty(es, cal);
    forall j | 0 <= j < |values|
      ensures values[j] == GroupOf(es, o[j], cal) && |values[j].items| > 0
    {
      assert GroupFor(m, o[j]) == m[o[j]];
    }
  }

  /** The last expense of a list joins the group its month had before it. */
  lemma AddToGroupIsGroupOf(es: seq<OtherExpense>, k: YearMonth, cal: Calendar)
    requires |es| > 0 && KeyOf(es[|es| - 1], cal) == k
    ensures GroupOf(es, k, cal) == AddToGroup(GroupOf(es[..|es| - 1], k, cal), es[|es| - 1])
  {
    var oe := es[|es| - 1];
    var items := ItemsIn(es[..|es| - 1], k, cal);
    SumOtherAmountsConcat(items, [oe]);
    assert SumOtherAmounts([oe]) == oe.amount by { assert [oe][..0] == []; }
  }

  /** The last expense of a list leaves the groups of the other months as they were. */
  lemma OtherMonthUnchanged(es: seq<OtherExpense>, k: YearMonth, cal: Calendar)
    requires |es| > 0 && KeyOf(es[|es| - 1], cal) != k
    ensures GroupOf(es, k, cal) == GroupOf(es[..|es| - 1], k, cal)
  {
    var items := ItemsIn(es[..|es| - 1], k, cal);
    assert items + [] == items;
  }

  /** The groups listed in first-appearance order, once sorted, meet the contract of
      `GroupByMonth`. */
  lemma GroupsOfOrder(es: seq<OtherExpense>, order: seq<YearMonth>, values: seq<MonthGroup>,
                      groups: seq<MonthGroup>, cal: Calendar)
    requires |values| == |order|
    requires forall j :: 0 <= j < |order| ==> values[j] == GroupOf(es, order[j], cal) && |values[j].items| > 0
    requires forall a, b :: 0 <= a < b < |order| ==> order[a] != order[b]
    requires forall j :: 0 <= j < |es| ==> KeyOf(es[j], cal) in order
    requires groups == SortGroups(values)
    ensures StrictlyDescending(groups)
    ensures forall i :: 0 <= i < |groups| ==> groups[i] == GroupOf(es, groups[i].key, cal) && |groups[i].items| > 0
    ensures forall j :: 0 <= j < |es| ==> KeyOf(es[j], cal) in Keys(groups)
  {
    forall a, b | 0 <= a < |values| && 0 <= b < |values| && a != b
      ensures values[a].key != values[b].key
    {
    }
    SortGroupsSorted(values);
    forall i | 0 <= i < |groups|
      ensures groups[i] == GroupOf(es, groups[i].key, cal) && |groups[i].items| > 0
    {
      assert groups[i] in multiset(values);
      var a :| 0 <= a < |values| && values[a] == groups[i];
    }
    forall j | 0 <= j < |es|
      ensures KeyOf(es[j], cal) in Keys(groups)
    {
      var k := KeyOf(es[j], cal);
      var a :| 0 <= a < |order| && order[a] == k;
      assert values[a] in multiset(groups);
      var i :| 0 <= i < |groups| && groups[i] == values[a];
      assert Keys(groups)[i] == k;
    }
  }

  /** The sum of the group totals. */
  function SumTotals(gs: seq<MonthGroup>): int {
    if gs == [] then 0 else SumTotals(gs[..|gs| - 1]) + gs[|gs| - 1].total
  }

  function Keys(gs: seq<MonthGroup>): (ks: seq<YearMonth>)
    ensures |ks| == |gs|
    ensures forall i :: 0 <= i < |gs| ==> ks[i] == gs[i].key
  {
    seq(|gs|, i requires 0 <= i < |gs| => gs[i].key)
  }

  /** The total of the expenses grouped under each of the keys. */
  function KeysSum(es: seq<OtherExpense>, ks: seq<YearMonth>, cal: Calendar): int {
    if ks == [] then 0 else KeysSum(es, ks[..|ks| - 1], cal) + SumOtherAmounts(ItemsIn(es, ks[|ks| - 1], cal))
  }

  /** `a` once for each occurrence of `k` in `ks`. */
  function Hits(ks: seq<YearMonth>, k: YearMonth, a: int): int {
    if ks == [] then 0 else Hits(ks[..|ks| - 1], k, a) + (if ks[|ks| - 1] == k then a else 0)
  }

  lemma {:induction false} GroupsAreKeysSum(es: seq<OtherExpense>, gs: seq<MonthGroup>, cal: Calendar)
    requires forall i :: 0 <= i < |gs| ==> gs[i] == GroupOf(es, gs[i].key, cal)
    ensures SumTotals(gs) == KeysSum(es, Keys(gs), cal)
  {
    if gs != [] {
      var init := gs[..|gs| - 1];
      assert Keys(gs)[..|gs| - 1] == Keys(init);
      GroupsAreKeysSum(es, init, cal);
    }
  }

  lemma {:induction false} KeysSumStep(es: seq<OtherExpense>, ks: seq<YearMonth>, cal: Calendar)
    requires es != []
    ensures KeysSum(es, ks, cal) == KeysSum(es[..|es| - 1], ks, cal) + Hits(ks, KeyOf(es[|es| - 1], cal), es[|es| - 1].amount)
  {
    if ks != [] {
      var init, last := es[..|es| - 1], es[|es| - 1];
      var k := ks[|ks| - 1];
      KeysSumStep(es, ks[..|ks| - 1], cal);
      SumOtherAmountsConcat(ItemsIn(init, k, cal), if KeyOf(last, cal) == k then [last] else []);
      if KeyOf(last, cal) == k {
        assert SumOtherAmounts([last]) == last.amount by { assert [last][..0] == []; }
      }
    }
  }

  lemma {:induction false} HitsNone(ks: seq<YearMonth>, k: YearMonth, a: int)
    requires k !in ks
    ensures Hits(ks, k, a) == 0
  {
    if ks != [] {
      HitsNone(ks[..|ks| - 1], k, a);
    }
  }

  lemma {:induction false} HitsOnce(ks: seq<YearMonth>, k: YearMonth, a: int)
    requires forall i, j :: 0 <= i < j < |ks| ==> ks[i] != ks[j]
    requires k in ks
    ensures Hits(ks, k, a) == a
  {
    var init := ks[..|ks| - 1];
    if ks[|ks| - 1] == k {
      forall i | 0 <= i < |init|
        ensures init[i] != k
      {
        assert init[i] == ks[i];
      }
      HitsNone(init, k, a);
    } else {
      assert k in init by {
        var i :| 0 <= i < |ks| && ks[i] == k;
        assert init[i] == k;
      }
      HitsOnce(init, k, a);
    }
  }

  lemma {:induction false} KeysSumCovers(es: seq<OtherExpense>, ks: seq<YearMonth>, cal: Calendar)
    requires forall i, j :: 0 <= i < j < |ks| ==> ks[i] != ks[j]
    requires forall j :: 0 <= j < |es| ==> KeyOf(es[j], cal) in ks
    ensures KeysSum(es, ks, cal) == SumOtherAmounts(es)
  {
    if es == [] {
      KeysSumEmpty(ks, cal);
    } else {
      var init := es[..|es| - 1];
      assert forall j :: 0 <= j < |init| ==> init[j] == es[j];
      KeysSumCovers(init, ks, cal);
      KeysSumStep(es, ks, cal);
      HitsOnce(ks, KeyOf(es[|es| - 1], cal), es[|es| - 1].amount);
    }
  }

  lemma {:induction false} KeysSumEmpty(ks: seq<YearMonth>, cal: Calendar)
    ensures KeysSum([], ks, cal) == 0
  {
    if ks != [] {
      KeysSumEmpty(ks[..|ks| - 1], cal);
    }
  }

  /** The month groups partition the list: their totals add up to the page total. */
  lemma GroupTotalsConserved(es: seq<OtherExpense>, groups: seq<MonthGroup>, cal: Calendar)
    requires StrictlyDescending(groups)
    requires forall i :: 0 <= i < |groups| ==> groups[i] == GroupOf(es, groups[i].key, cal)
    requires forall j :: 0 <= j < |es| ==> KeyOf(es[j], cal) in Keys(groups)
    ensures SumTotals(groups) == SumOtherAmounts(es)
  {
    var ks := Keys(groups);
    forall i, j | 0 <= i < j < |ks|
      ensures ks[i] != ks[j]
    {
      assert Later(groups[i].key, groups[j].key);
    }
    GroupsAreKeysSum(es, groups, cal);
    KeysSumCovers(es, ks, cal);
  }

  /** `!!openMonths[key]`: a month is open only once it has been toggled open. */
  function IsOpen(open: map<YearMonth, bool>, k: YearMonth): bool {
    k in open && open[k]
  }

  /** `{ ...prev, [key]: !prev[key] }`. */
  function Toggle(open: map<YearMonth, bool>, k: YearMonth): (r: map<YearMonth, bool>)
    ensures IsOpen(r, k) == !IsOpen(open, k)
    ensures forall k' :: k' != k ==> IsOpen(r, k') == IsOpen(open, k')
  {
    open[k := !IsOpen(open, k)]
  }

  /** Toggling a month twice leaves every month as it was. */
  lemma ToggleTwice(open: map<YearMonth, bool>, k: YearMonth)
    ensures forall k' :: IsOpen(Toggle(Toggle(open, k), k), k') == IsOpen(open, k')
  {
  }

  /** The dd/mm/yyyy date column: empty for a missing or empty date. */
  function FormatDate(iso: Option<string>, cal: Calendar): string {
    if iso.None? || iso.value == "" then ""
    else
      var d := cal.dateOf(iso.value);
      Numbers.Pad2(d.day) + "/" + Numbers.Pad2(d.month) + "/" + Numbers.IntToString(d.year)
  }

  /** The fields of "dd/mm/yyyy" sit at fixed places once day and month have two characters. */
  lemma SlashFields(dd: string, mm: string, yy: string)
    requires |dd| == 2 && |mm| == 2
    ensures var r := dd + "/" + mm + "/" + yy;
      |r| == 6 + |yy| && r[2] == '/' && r[5] == '/' && r[..2] == dd && r[3..5] == mm && r[6..] == yy
  {
    var r := dd + "/" + mm + "/" + yy;
    assert r[..2] == dd;
    assert r[3..5] == mm;
    assert r[6..] == yy;
  }

  /** A missing date prints empty; a real date prints two-digit day and month and the
      year, separated by slashes, and each field reads back as the date's own number. */
  lemma FormatDateFields(iso: Option<string>, cal: Calendar)
    ensures iso.None? || iso == Some("") ==> FormatDate(iso, cal) == ""
    ensures iso.Some? && iso.value != "" && 1 <= cal.dateOf(iso.value).day <= 31 &&
            1 <= cal.dateOf(iso.value).month <= 12 && cal.dateOf(iso.value).year >= 0 ==>
      var r := FormatDate(iso, cal);
      var d := cal.dateOf(iso.value);
      |r| >= 7 && r[2] == '/' && r[5] == '/' &&
      Numbers.ToNumber(r[..2]) == Numbers.Int(d.day) &&
      Numbers.ToNumber(r[3..5]) == Numbers.Int(d.month) &&
      Numbers.ToNumber(r[6..]) == Numbers.Int(d.year)
  {
    if iso.Some? && iso.value != "" {
      var d := cal.dateOf(iso.value);
      if 1 <= d.day <= 31 && 1 <= d.month <= 12 && d.year >= 0 {
        var dd, mm, yy := Numbers.Pad2(d.day), Numbers.Pad2(d.month), Numbers.IntToString(d.year);
        Numbers.Pad2Length(d.day);
        Numbers.Pad2Length(d.month);
        assert FormatDate(iso, cal) == dd + "/" + mm + "/" + yy;
        SlashFields(dd, mm, yy);
        Numbers.NumberOfPad2(d.day);
        Numbers.NumberOfPad2(d.month);
        Numbers.NumberOfString(d.year);
      }
    }
  }

  /** A fetched row of the `other_expenses` table. */
  datatype OtherExpenseRow = OtherExpenseRow(
    id: string,
    userId: string,
    category: string,
    amount: int,
    expenseDate: Option<string>,
    description: Option<string>,
    createdAt: Option<string>)

  /** The in-memory expense of a row: the date cut to its first ten characters, empty
      dates dropped. */
  function ExpenseOfRow(r: OtherExpenseRow): (e: OtherExpense)
    ensures e.id == r.id && e.userId == r.userId && e.category == r.category && e.amount == r.amount
    ensures r.expenseDate.None? || r.expenseDate == Some("") ==> e.date.None?
    ensures r.expenseDate.Some? && r.expenseDate.value != "" ==>
      e.date == Some(Strings.Take(r.expenseDate.value, 10))
    ensures e.description == r.description && e.createdAt == r.createdAt
  {
    OtherExpense(r.id, r.userId, r.category, r.amount,
                 if r.expenseDate.Some? && r.expenseDate.value != "" then Some(Strings.Take(r.expenseDate.value, 10)) else None,
                 r.description, r.createdAt)
  }

  function ExpensesOfRows(rows: seq<OtherExpenseRow>): (es: seq<OtherExpense>)
    ensures |es| == |rows|
    ensures forall i :: 0 <= i < |rows| ==> es[i] == ExpenseOfRow(rows[i])
  {
    seq(|rows|, i requires 0 <= i < |rows| => ExpenseOfRow(rows[i]))
  }

  /** The page state: the signed-in user, the list, and the loading and error flags. */
  class OtherExpensesPage {
    var userId: Option<string>
    var expenses: seq<OtherExpense>
    var loading: bool
    var error: Option<string>

    /** The first render: nothing loaded yet. */
    constructor(userId: Option<string>)
      ensures this.userId == userId && expenses == [] && loading && error.None?
    {
      this.userId := userId;
      expenses := [];
      loading := true;
      error := None;
    }

    /** The page total. */
    function Total(): int
      reads this
    {
      SumOtherAmounts(expenses)
    }

    /** Loading the user's expenses: without a user nothing happens; a failed query keeps
        the list and shows the message; otherwise the rows replace the list. */
    method Load(fetch: Fetch<OtherExpenseRow>)
      modifies this
      ensures userId == old(userId)
      ensures !SignedIn(old(userId)) ==>
        expenses == old(expenses) && loading == old(loading) && error == old(error)
      ensures SignedIn(old(userId)) && fetch.FetchError? ==>
        expenses == old(expenses) && !loading && error == Some(fetch.message)
      ensures SignedIn(old(userId)) && fetch.Rows? ==>
        expenses == ExpensesOfRows(fetch.rows) && !loading && error.None?
    {
      if !SignedIn(userId) {
        return;
      }
      loading := true;
      error := None;
      match fetch {
        case FetchError(message) =>
          error := Some(message);
        case Rows(rows) =>
          expenses := ExpensesOfRows(rows);
      }
      loading := false;
    }

    /** The add dialog's `onAdd`: the stored row comes back from the insert and is
        appended; it keeps its creation time, or gets the current one when it has none. */
    method AddOther(insert: Written<OtherExpenseRow>, nowIso: string)
      modifies this
      ensures userId == old(userId) && loading == old(loading) && error == old(error)
      ensures !SignedIn(old(userId)) || insert.WriteFailed? ==> expenses == old(expenses)
      ensures SignedIn(old(userId)) && insert.Written? ==>
        expenses == old(expenses) + [ExpenseOfRow(insert.value).(createdAt := Some(insert.value.createdAt.GetOr(nowIso)))]
    {
      if !SignedIn(userId) {
        return;
      }
      if insert.WriteFailed? {
        return;
      }
      var row := insert.value;
      expenses := expenses + [ExpenseOfRow(row).(createdAt := Some(row.createdAt.GetOr(nowIso)))];
    }

    /** Saving an edited expense replaces the one with its id once the update succeeds. */
    method SaveOther(updated: OtherExpense, update: Outcome)
      modifies this
      ensures userId == old(userId) && loading == old(loading) && error == old(error)
      ensures !SignedIn(old(userId)) || update.Failed? ==> expenses == old(expenses)
      ensures SignedIn(old(userId)) && update.Ok? ==>
        expenses == Lists.ReplaceById(old(expenses), updated, OtherExpenseId)
    {
      if !SignedIn(userId) || update.Failed? {
        return;
      }
      expenses := Lists.ReplaceById(expenses, updated, OtherExpenseId);
    }

    /** Deleting an expense drops every entry with its id once the delete succeeds. */
    method ConfirmDeleteOther(id: string, delete: Outcome)
      modifies this
      ensures userId == old(userId) && loading == old(loading) && error == old(error)
      ensures !SignedIn(old(userId)) || delete.Failed? ==> expenses == old(expenses)
      ensures SignedIn(old(userId)) && delete.Ok? ==>
        expenses == Lists.RemoveByKey(old(expenses), id, OtherExpenseId)
    {
      if !SignedIn(userId) || delete.Failed? {
        return;
      }
      expenses := Lists.RemoveByKey(expenses, id, OtherExpenseId);
    }
  }
}
