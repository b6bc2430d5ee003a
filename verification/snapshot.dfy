/**
 * The snapshot program (main.go): which groups and categories are written, the
 * six-column CSV record of a category, the name and location of the snapshot file, and
 * the order in which the rows of all budgets are produced.
 */
module Snapshot {
  import opened Wrappers
  import opened Strconv
  import opened Text
  import opened Types
  import opened HttpClient
  import opened Paths

  // ---------------------------------------------------------------------------------
  // The snapshot file

  /** A number in base 10, padded with a leading zero to at least two digits (the `%02d` verb). */
  function Pad2(n: nat): (s: string)
    ensures |s| >= 2
  {
    if n < 10 then ['0', DigitChar(n)] else DecimalString(n)
  }

  /** The padded rendering is made of digits, denotes the number, and has no extra leading zero. */
  lemma Pad2Value(n: nat)
    ensures AllDigits(Pad2(n)) && Value(Pad2(n)) == n
    ensures |Pad2(n)| > 2 ==> Pad2(n)[0] != '0'
  {
    DecimalDigits(n);
    var s := Pad2(n);
    if n < 10 {
      assert s[..1] == "0" && s[..1][..0] == "";
      assert Value(s[..1]) == 0;
      assert DigitValue(s[1]) == n;
    } else {
      ValueOfDecimal(n);
    }
  }

  /** The date part of the file name: year, month and day, each padded to two digits, separated by dashes. */
  function DateStamp(year: nat, month: nat, day: nat): string {
    Pad2(year) + "-" + Pad2(month) + "-" + Pad2(day)
  }

  /** The date stamp holds only digits and dashes. */
  lemma DateStampChars(year: nat, month: nat, day: nat)
    ensures forall k :: 0 <= k < |DateStamp(year, month, day)| ==>
      DateStamp(year, month, day)[k] == '-' || IsDigit(DateStamp(year, month, day)[k])
  {
    Pad2Value(year);
    Pad2Value(month);
    Pad2Value(day);
  }

  /** The month part of the file name: CURRENT for the current month, the requested month otherwise. */
  function MonthLabel(snapshotMonth: string): string {
    if snapshotMonth == CurrentMonth then "CURRENT" else snapshotMonth
  }

  /** What follows the month in every file name: two words joined by an underscore. */
  const CategoryWord := "category"
  const SnapshotWord := "snapshot.csv"
  const FileSuffix := CategoryWord + "_" + SnapshotWord

  /** The name of the snapshot file for the date it is taken and the month it shows. */
  function SnapshotFileName(year: nat, month: nat, day: nat, snapshotMonth: string): string {
    DateStamp(year, month, day) + "_" + MonthLabel(snapshotMonth) + "_" + FileSuffix
  }

  /** Where the file is created: the name alone when no target is given, otherwise the name joined to the target. */
  function SnapshotPath(target: string, fileName: string): string {
    if |target| > 0 then JoinPath(target, fileName) else fileName
  }

  /** The date stamp splits at its dashes into the three padded numbers, which read back as the date. */
  lemma DateStampFields(year: nat, month: nat, day: nat)
    ensures Split(DateStamp(year, month, day), '-') == [Pad2(year), Pad2(month), Pad2(day)]
    ensures Value(Pad2(year)) == year && Value(Pad2(month)) == month && Value(Pad2(day)) == day
  {
    Pad2Value(year);
    Pad2Value(month);
    Pad2Value(day);
    var y, m, d := Pad2(year), Pad2(month), Pad2(day);
    assert '-' !in y && '-' !in m && '-' !in d by {
      assert !IsDigit('-');
    }
    SplitWithout(d, '-');
    SplitAfter(m, '-', d);
    SplitAfter(y, '-', m + "-" + d);
    assert DateStamp(year, month, day) == y + "-" + (m + "-" + d);
  }

  lemma SuffixFields()
    ensures Split(FileSuffix, '_') == [CategoryWord, SnapshotWord]
    ensures '/' !in FileSuffix
  {
    assert '_' !in CategoryWord && '_' !in SnapshotWord;
    assert '/' !in CategoryWord && '/' !in SnapshotWord;
    SplitWithout(SnapshotWord, '_');
    SplitAfter(CategoryWord, '_', SnapshotWord);
  }

  /**
   * The file name splits at its underscores into the date stamp, the month label, and
   * the two words of the suffix, provided the requested month holds no
   * underscore; the label is CURRENT for the current month and for a month given as
   * CURRENT, and for no other.
   */
  lemma SnapshotFileNameFields(year: nat, month: nat, day: nat, snapshotMonth: string)
    requires '_' !in snapshotMonth
    ensures Split(SnapshotFileName(year, month, day, snapshotMonth), '_')
      == [DateStamp(year, month, day), MonthLabel(snapshotMonth), CategoryWord, SnapshotWord]
    ensures MonthLabel(snapshotMonth) == "CURRENT" <==> snapshotMonth in {CurrentMonth, "CURRENT"}
  {
    var date, tag := DateStamp(year, month, day), MonthLabel(snapshotMonth);
    assert '_' !in date by {
      DateStampChars(year, month, day);
      assert !IsDigit('_');
    }
    SuffixFields();
    FieldsSplit(date, tag, FileSuffix, [CategoryWord, SnapshotWord]);
  }

  /** Two underscore-free fields in front of a string add two pieces in front of its split. */
  lemma FieldsSplit(a: string, b: string, rest: string, tail: seq<string>)
    requires '_' !in a && '_' !in b && Split(rest, '_') == tail
    ensures Split(a + "_" + b + "_" + rest, '_') == [a, b] + tail
  {
    SplitAfter(b, '_', rest);
    SplitAfter(a, '_', b + "_" + rest);
    assert a + "_" + b + "_" + rest == a + "_" + (b + "_" + rest);
  }

  /** A file name is one plain path element when the requested month holds no slash. */
  lemma SnapshotFileNamePlain(year: nat, month: nat, day: nat, snapshotMonth: string)
    requires '/' !in snapshotMonth
    ensures Plain(SnapshotFileName(year, month, day, snapshotMonth))
  {
    var date, tag := DateStamp(year, month, day), MonthLabel(snapshotMonth);
    DateStampChars(year, month, day);
    assert '/' !in date by {
      assert !IsDigit('/');
    }
    assert '/' !in tag;
    SuffixFields();
    var name := SnapshotFileName(year, month, day, snapshotMonth);
    assert name == date + "_" + tag + "_" + FileSuffix;
    assert |name| > 2;
  }

  /**
   * Without a target the file is created under its name alone; with one, it lies under
   * the cleaned target: the file name follows it after a single slash, or stands alone
   * when the target cleans to ".".
   */
  lemma SnapshotPathUnder(target: string, year: nat, month: nat, day: nat, snapshotMonth: string)
    requires '/' !in snapshotMonth
    ensures var name := SnapshotFileName(year, month, day, snapshotMonth);
      SnapshotPath(target, name) == if |target| == 0 then name else Under(Clean(target), name)
  {
    if |target| > 0 {
      SnapshotFileNamePlain(year, month, day, snapshotMonth);
      JoinPathUnder(target, SnapshotFileName(year, month, day, snapshotMonth));
    }
  }

  // ---------------------------------------------------------------------------------
  // Which entries are written

  /** Groups the budgeting service uses for its own bookkeeping. */
  const SpecialGroupNames: set<string> := {"Internal Master Category", "Hidden Categories"}

  /** A group is left out when hidden, deleted, or one of the special groups. */
  predicate SkipGroup(group: CategoryGroup) {
    group.hidden || group.deleted || group.name in SpecialGroupNames
  }

  /**
   * A category is left out when hidden, deleted, or when nothing is budgeted and
   * nothing is left (the conjunction binds tighter than the disjunctions).
   */
  predicate SkipCategory(c: CategoryFields) {
    c.hidden || c.deleted || (c.budgeted == 0 && c.balance == 0)
  }

  /** The values of the categories that are written, in slice order. */
  function KeptFields(categories: seq<Category>): (kept: seq<CategoryFields>)
    reads categories
    ensures |kept| <= |categories|
    decreases |categories|
  {
    if |categories| == 0 then []
    else
      var v := categories[|categories| - 1].Value();
      KeptFields(categories[..|categories| - 1]) + (if SkipCategory(v) then [] else [v])
  }

  /** A value is kept exactly when some category holds it and that category is not skipped. */
  lemma {:induction false} KeptFieldsMembers(categories: seq<Category>, v: CategoryFields)
    ensures v in KeptFields(categories) <==>
      !SkipCategory(v) && exists k :: 0 <= k < |categories| && categories[k].Value() == v
    decreases |categories|
  {
    if |categories| > 0 {
      var n := |categories| - 1;
      var init := categories[..n];
      KeptFieldsMembers(init, v);
      if v in KeptFields(init) {
        var k :| 0 <= k < |init| && init[k].Value() == v;
        assert categories[k] == init[k];
      }
      if exists k :: 0 <= k < |categories| && categories[k].Value() == v {
        var k :| 0 <= k < |categories| && categories[k].Value() == v;
        if k < n {
          assert init[k] == categories[k];
        }
      }
    }
  }

  /** Keeping distributes over concatenation: the kept values stay in slice order. */
  lemma {:induction false} KeptFieldsAppend(a: seq<Category>, b: seq<Category>)
    ensures KeptFields(a + b) == KeptFields(a) + KeptFields(b)
    decreases |b|
  {
    if |b| == 0 {
      assert a + b == a;
    } else {
      var ab := a + b;
      assert ab[..|ab| - 1] == a + b[..|b| - 1];
      assert ab[|ab| - 1] == b[|b| - 1];
      KeptFieldsAppend(a, b[..|b| - 1]);
    }
  }

  // ---------------------------------------------------------------------------------
  // The CSV record

  /** The header row, written before any category. */
  const Header: seq<string> := ["id", "budget_id", "group_id", "name", "budgeted", "balance"]

  /** The six columns of a written category, the amounts in base 10. */
  function Record(budget: Budget, c: CategoryFields): (r: seq<string>)
    ensures |r| == |Header|
  {
    [c.id, budget.id, c.categoryGroupId, c.name, FormatInt(c.budgeted as int), FormatInt(c.balance as int)]
  }

  /** What a record says, column by column. */
  datatype Row = Row(categoryId: string, budgetId: string, groupId: string, name: string, budgeted: int, balance: int)

  /** Reads a record back: six columns, the last two decimal integers. */
  function ParseRecord(r: seq<string>): Option<Row> {
    if |r| != |Header| then None
    else
      match (ParseInt(r[4]), ParseInt(r[5]))
      case (Some(budgeted), Some(balance)) => Some(Row(r[0], r[1], r[2], r[3], budgeted, balance))
      case _ => None
  }

  /** Every record reads back as the category's identifier, budget, group, name and amounts. */
  lemma RecordRoundTrip(budget: Budget, c: CategoryFields)
    ensures ParseRecord(Record(budget, c))
      == Some(Row(c.id, budget.id, c.categoryGroupId, c.name, c.budgeted as int, c.balance as int))
  {
    FormatIntRoundTrip(c.budgeted as int);
    FormatIntRoundTrip(c.balance as int);
  }

  /** The records of the given values, in order. */
  function Records(budget: Budget, values: seq<CategoryFields>): (rows: seq<seq<string>>)
    ensures |rows| == |values|
  {
    seq(|values|, k requires 0 <= k < |values| => Record(budget, values[k]))
  }

  lemma RecordsAppend(budget: Budget, a: seq<CategoryFields>, b: seq<CategoryFields>)
    ensures Records(budget, a + b) == Records(budget, a) + Records(budget, b)
  {
    assert forall k :: 0 <= k < |a + b| ==> Records(budget, a + b)[k] == (Records(budget, a) + Records(budget, b))[k];
  }

  // ---------------------------------------------------------------------------------
  // The console line of a category

  /**
   * A category that is written although Format cannot render its balance: 5 dollars
   * budgeted and all of it spent. FormattedTotal renders that balance.
   */
  lemma WrittenBalanceUnformattable()
    ensures var c := CategoryFields("c", "g", "Rent", false, "", "", 5000, -5000, 0, "", "", 0, "", 0, false);
      && !SkipCategory(c)
      && !FormatDefined(Usd, c.balance)
      && FormattedTotal(Usd, c.balance) == "$0.00"
  {
    FormattedTotalSmall();
  }

  // ---------------------------------------------------------------------------------
  // Producing the rows

  /** One more category adds its record at the end, unless it is skipped. */
  lemma KeptRecordsSnoc(budget: Budget, categories: seq<Category>, i: nat)
    requires i < |categories|
    ensures Records(budget, KeptFields(categories[..i + 1]))
      == Records(budget, KeptFields(categories[..i]))
        + (if SkipCategory(categories[i].Value()) then [] else [Record(budget, categories[i].Value())])
  {
    var v := categories[i].Value();
    var kept := KeptFields(categories[..i]);
    assert categories[..i + 1][..i] == categories[..i];
    if SkipCategory(v) {
      assert KeptFields(categories[..i + 1]) == kept + [];
      assert kept + [] == kept;
    } else {
      assert KeptFields(categories[..i + 1]) == kept + [v];
      RecordsAppend(budget, kept, [v]);
    }
  }

  /**
   * printCategoryGroup with writeRow: for each category in slice order that is not
   * skipped, its record is handed to the CSV writer.
   */
  method PrintCategoryGroup(budget: Budget, group: CategoryGroup) returns (rows: seq<seq<string>>)
    ensures rows == Records(budget, KeptFields(group.categories))
  {
    var categories := group.categories;
    rows := [];
    var i := 0;
    while i < |categories|
      invariant 0 <= i <= |categories|
      invariant rows == Records(budget, KeptFields(categories[..i]))
    {
      var category := categories[i].Value();
      KeptRecordsSnoc(budget, categories, i);
      if !SkipCategory(category) {
        rows := rows + [Record(budget, category)];
      }
      i := i + 1;
    }
    assert categories[..i] == categories;
  }

  /** The rows of a budget's groups: the kept categories of each group that is not skipped, group by group. */
  function GroupsRows(budget: Budget, groups: seq<CategoryGroup>): seq<seq<string>>
    reads set c | c in Flatten(groups)
    decreases |groups|
  {
    if |groups| == 0 then []
    else
      var last := groups[|groups| - 1];
      GroupsRows(budget, groups[..|groups| - 1])
        + (if SkipGroup(last) then [] else Records(budget, KeptFields(last.categories)))
  }

  /** `r` is the record, for `budget`, of the `k`-th of `categories`, which is not skipped. */
  predicate RecordOf(budget: Budget, categories: seq<Category>, k: int, r: seq<string>)
    reads categories
  {
    0 <= k < |categories| && !SkipCategory(categories[k].Value()) && r == Record(budget, categories[k].Value())
  }

  /** The records of a group's categories are those of its categories that are not skipped. */
  lemma CategoryRowsMembers(budget: Budget, categories: seq<Category>, r: seq<string>)
    ensures r in Records(budget, KeptFields(categories)) <==> exists k :: RecordOf(budget, categories, k, r)
  {
    var kept := KeptFields(categories);
    if r in Records(budget, kept) {
      var m :| 0 <= m < |kept| && Records(budget, kept)[m] == r;
      KeptFieldsMembers(categories, kept[m]);
      var k :| 0 <= k < |categories| && categories[k].Value() == kept[m];
      assert RecordOf(budget, categories, k, r);
    }
    if exists k :: RecordOf(budget, categories, k, r) {
      var k :| RecordOf(budget, categories, k, r);
      KeptFieldsMembers(categories, categories[k].Value());
      var m :| 0 <= m < |kept| && kept[m] == categories[k].Value();
      assert Records(budget, kept)[m] == r;
    }
  }

  /** The record of a category that is not skipped, in a group that is not skipped, is written. */
  lemma {:induction false} GroupsRowsHas(budget: Budget, groups: seq<CategoryGroup>, g: nat, k: int, r: seq<string>)
    requires g < |groups| && !SkipGroup(groups[g]) && RecordOf(budget, groups[g].categories, k, r)
    ensures r in GroupsRows(budget, groups)
    decreases |groups|
  {
    var n := |groups| - 1;
    var init := groups[..n];
    var last := groups[n];
    var tail := if SkipGroup(last) then [] else Records(budget, KeptFields(last.categories));
    assert GroupsRows(budget, groups) == GroupsRows(budget, init) + tail;
    if g < n {
      assert init[g] == groups[g];
      GroupsRowsHas(budget, init, g, k, r);
    } else {
      assert g == n && last == groups[g] && !SkipGroup(last);
      assert tail == Records(budget, KeptFields(last.categories));
      assert RecordOf(budget, last.categories, k, r);
      CategoryRowsMembers(budget, last.categories, r);
    }
  }

  /** Every written row is the record of a category that is not skipped, in a group that is not skipped. */
  lemma {:induction false} GroupsRowsFrom(budget: Budget, groups: seq<CategoryGroup>, r: seq<string>)
    requires r in GroupsRows(budget, groups)
    ensures exists g, k :: 0 <= g < |groups| && !SkipGroup(groups[g]) && RecordOf(budget, groups[g].categories, k, r)
    decreases |groups|
  {
    var n := |groups| - 1;
    var init := groups[..n];
    var last := groups[n];
    var tail := if SkipGroup(last) then [] else Records(budget, KeptFields(last.categories));
    assert GroupsRows(budget, groups) == GroupsRows(budget, init) + tail;
    if r in GroupsRows(budget, init) {
      GroupsRowsFrom(budget, init, r);
      var g, k :| 0 <= g < |init| && !SkipGroup(init[g]) && RecordOf(budget, init[g].categories, k, r);
      assert groups[g] == init[g];
    } else {
      CategoryRowsMembers(budget, last.categories, r);
      var k :| RecordOf(budget, last.categories, k, r);
      assert !SkipGroup(groups[n]) && RecordOf(budget, groups[n].categories, k, r);
    }
  }

  /**
   * A row is written for a budget exactly when it is the record of a category that is not
   * skipped, in a group that is not skipped.
   */
  lemma GroupsRowsMembers(budget: Budget, groups: seq<CategoryGroup>, r: seq<string>)
    ensures r in GroupsRows(budget, groups) <==>
      exists g, k :: 0 <= g < |groups| && !SkipGroup(groups[g]) && RecordOf(budget, groups[g].categories, k, r)
  {
    if r in GroupsRows(budget, groups) {
      GroupsRowsFrom(budget, groups, r);
    }
    if exists g, k :: 0 <= g < |groups| && !SkipGroup(groups[g]) && RecordOf(budget, groups[g].categories, k, r) {
      var g, k :| 0 <= g < |groups| && !SkipGroup(groups[g]) && RecordOf(budget, groups[g].categories, k, r);
      GroupsRowsHas(budget, groups, g, k, r);
    }
  }

  /** The loop of main over a budget's groups, handing each group that is not skipped to printCategoryGroup. */
  method PrintGroups(budget: Budget, groups: seq<CategoryGroup>) returns (rows: seq<seq<string>>)
    ensures rows == GroupsRows(budget, groups)
  {
    forall n, c | 0 <= n <= |groups| && c in Flatten(groups[..n])
      ensures allocated(c)
    {
      FlattenMembers(groups[..n], c);
    }
    rows := [];
    var g := 0;
    while g < |groups|
      invariant 0 <= g <= |groups|
      invariant rows == GroupsRows(budget, groups[..g])
    {
      var group := groups[g];
      assert groups[..g + 1][..g] == groups[..g];
      if !SkipGroup(group) {
        var groupRows := PrintCategoryGroup(budget, group);
        rows := rows + groupRows;
      } else {
        assert GroupsRows(budget, groups[..g + 1]) == rows + [];
      }
      g := g + 1;
    }
    assert groups[..g] == groups;
  }

  /** The categories of every listing that succeeded, budget by budget. */
  function ListedSlots(listings: seq<Result<seq<CategoryGroup>>>): seq<Category>
    decreases |listings|
  {
    if |listings| == 0 then []
    else
      var last := listings[|listings| - 1];
      ListedSlots(listings[..|listings| - 1]) + (if last.Success? then Flatten(last.value) else [])
  }

  /** Every listed category is a category of one of the listings that succeeded. */
  lemma {:induction false} ListedSlotsMembers(listings: seq<Result<seq<CategoryGroup>>>, c: Category)
    requires c in ListedSlots(listings)
    ensures exists i :: 0 <= i < |listings| && listings[i].Success? && c in Flatten(listings[i].value)
    decreases |listings|
  {
    var n := |listings| - 1;
    if c in ListedSlots(listings[..n]) {
      ListedSlotsMembers(listings[..n], c);
      var i :| 0 <= i < n && listings[..n][i].Success? && c in Flatten(listings[..n][i].value);
      assert listings[i] == listings[..n][i];
    }
  }

  /** The categories the listings hold, in any prefix of them, exist. */
  lemma ListedAllocated(listings: seq<Result<seq<CategoryGroup>>>)
    ensures forall n, c | 0 <= n <= |listings| && c in ListedSlots(listings[..n]) :: allocated(c)
  {
    forall n, c | 0 <= n <= |listings| && c in ListedSlots(listings[..n])
      ensures allocated(c)
    {
      ListedSlotsMembers(listings[..n], c);
      var i :| 0 <= i < n && listings[..n][i].Success? && c in Flatten(listings[..n][i].value);
      FlattenMembers(listings[..n][i].value, c);
    }
  }

  /** The data rows of the snapshot: the rows of each budget whose listing succeeded, budget by budget. */
  function SnapshotRows(budgets: seq<Budget>, listings: seq<Result<seq<CategoryGroup>>>): seq<seq<string>>
    requires |budgets| == |listings|
    reads set c | c in ListedSlots(listings)
    decreases |listings|
  {
    if |listings| == 0 then []
    else
      var n := |listings| - 1;
      SnapshotRows(budgets[..n], listings[..n]) + (if listings[n].Success? then GroupsRows(budgets[n], listings[n].value) else [])
  }

  /** One more budget adds its rows at the end. */
  lemma SnapshotRowsSnoc(budgets: seq<Budget>, listings: seq<Result<seq<CategoryGroup>>>, i: nat)
    requires |budgets| == |listings| && i < |listings|
    ensures SnapshotRows(budgets[..i + 1], listings[..i + 1])
         == SnapshotRows(budgets[..i], listings[..i]) + (if listings[i].Success? then GroupsRows(budgets[i], listings[i].value) else [])
  {
    assert budgets[..i + 1][..i] == budgets[..i];
    assert listings[..i + 1][..i] == listings[..i];
    assert listings[..i + 1][i] == listings[i] && budgets[..i + 1][i] == budgets[i];
  }

  /** The rows of a budget whose categories were listed are part of the snapshot. */
  lemma {:induction false} SnapshotRowsHas(budgets: seq<Budget>, listings: seq<Result<seq<CategoryGroup>>>, i: nat, r: seq<string>)
    requires |budgets| == |listings| && i < |listings| && listings[i].Success?
    requires r in GroupsRows(budgets[i], listings[i].value)
    ensures r in SnapshotRows(budgets, listings)
    decreases |listings|
  {
    var n := |listings| - 1;
    SnapshotRowsSnoc(budgets, listings, n);
    assert budgets[..n + 1] == budgets && listings[..n + 1] == listings;
    if i < n {
      assert budgets[..n][i] == budgets[i] && listings[..n][i] == listings[i];
      SnapshotRowsHas(budgets[..n], listings[..n], i, r);
    }
  }

  /** Every data row of the snapshot comes from a budget whose categories were listed. */
  lemma {:induction false} SnapshotRowsFrom(budgets: seq<Budget>, listings: seq<Result<seq<CategoryGroup>>>, r: seq<string>)
    requires |budgets| == |listings| && r in SnapshotRows(budgets, listings)
    ensures exists i :: 0 <= i < |listings| && listings[i].Success? && r in GroupsRows(budgets[i], listings[i].value)
    decreases |listings|
  {
    var n := |listings| - 1;
    SnapshotRowsSnoc(budgets, listings, n);
    assert budgets[..n + 1] == budgets && listings[..n + 1] == listings;
    if r in SnapshotRows(budgets[..n], listings[..n]) {
      SnapshotRowsFrom(budgets[..n], listings[..n], r);
      var i :| 0 <= i < n && listings[..n][i].Success? && r in GroupsRows(budgets[..n][i], listings[..n][i].value);
      assert budgets[..n][i] == budgets[i] && listings[..n][i] == listings[i];
    }
  }

  /**
   * A row is a data row of the snapshot exactly when it is written for one of the budgets
   * whose categories were listed; a budget whose listing failed contributes nothing.
   */
  lemma SnapshotRowsMembers(budgets: seq<Budget>, listings: seq<Result<seq<CategoryGroup>>>, r: seq<string>)
    requires |budgets| == |listings|
    ensures r in SnapshotRows(budgets, listings) <==>
      exists i :: 0 <= i < |listings| && listings[i].Success? && r in GroupsRows(budgets[i], listings[i].value)
  {
    if r in SnapshotRows(budgets, listings) {
      SnapshotRowsFrom(budgets, listings, r);
    }
    if exists i :: 0 <= i < |listings| && listings[i].Success? && r in GroupsRows(budgets[i], listings[i].value) {
      var i :| 0 <= i < |listings| && listings[i].Success? && r in GroupsRows(budgets[i], listings[i].value);
      SnapshotRowsHas(budgets, listings, i, r);
    }
  }

  /** The message printed on the error stream for a listing that failed. */
  function ListingError(error: string): string {
    "Error parsing response: " + error
  }

  /** The error messages of the listings that failed, in budget order. */
  function ListingErrors(listings: seq<Result<seq<CategoryGroup>>>): seq<string>
    decreases |listings|
  {
    if |listings| == 0 then []
    else
      var n := |listings| - 1;
      ListingErrors(listings[..n]) + (if listings[n].Failure? then [ListingError(listings[n].error)] else [])
  }

  /** The rows of budget `i`, whose categories were listed, appended to those of the budgets before it. */
  method WriteBudget(budgets: seq<Budget>, listings: seq<Result<seq<CategoryGroup>>>, i: nat, body: seq<seq<string>>)
    returns (rows: seq<seq<string>>)
    requires |budgets| == |listings| && i < |listings| && listings[i].Success?
    requires body == SnapshotRows(budgets[..i], listings[..i])
    ensures rows == SnapshotRows(budgets[..i + 1], listings[..i + 1])
  {
    ListedAllocated(listings);
    forall c | c in Flatten(listings[i].value)
      ensures allocated(c)
    {
      FlattenMembers(listings[i].value, c);
    }
    SnapshotRowsSnoc(budgets, listings, i);
    ghost var next := SnapshotRows(budgets[..i + 1], listings[..i + 1]);
    ghost var expected := GroupsRows(budgets[i], listings[i].value);
    var budgetRows := PrintGroups(budgets[i], listings[i].value);
    assert next == SnapshotRows(budgets[..i + 1], listings[..i + 1]);
    assert budgetRows == expected;
    rows := body + budgetRows;
  }

  /**
   * The body of main after the budgets are known: the header row, then for each budget
   * the rows of its groups when its categories were listed, or an error message when
   * they were not. `listings[i]` is what GetCategories returned for `budgets[i]`.
   */
  method WriteSnapshot(budgets: seq<Budget>, listings: seq<Result<seq<CategoryGroup>>>)
    returns (rows: seq<seq<string>>, errors: seq<string>)
    requires |listings| == |budgets|
    ensures rows == [Header] + SnapshotRows(budgets, listings)
    ensures errors == ListingErrors(listings)
  {
    var body: seq<seq<string>> := [];
    errors := [];
    var i := 0;
    while i < |budgets|
      invariant 0 <= i <= |budgets|
      invariant body == SnapshotRows(budgets[..i], listings[..i])
      invariant errors == ListingErrors(listings[..i])
    {
      assert listings[..i + 1][..i] == listings[..i];
      var listing := listings[i];
      if listing.Failure? {
        SnapshotRowsSnoc(budgets, listings, i);
        errors := errors + [ListingError(listing.error)];
      } else {
        body := WriteBudget(budgets, listings, i, body);
        assert ListingErrors(listings[..i + 1]) == ListingErrors(listings[..i]) + [];
      }
      i := i + 1;
    }
    assert budgets[..i] == budgets && listings[..i] == listings;
    rows := [Header] + body;
  }
}
