/**
 * The records of the budgeting service (client/types.go): currency formats, budgets,
 * categories and category groups, the field-by-field category copy used when a
 * month-specific lookup is merged, and the rendering of a milliunit amount.
 */
module Types {
  import opened Strconv
  import opened Text

  /** How a budget's currency is shown on the screen. */
  datatype CurrencyFormat = CurrencyFormat(
    isoCode: string,
    exampleFormat: string,
    decimalDigits: int,
    decimalSeparator: string,
    symbolFirst: bool,
    groupSeparator: string,
    currencySymbol: string,
    displaySymbol: bool)

  datatype Budget = Budget(
    id: string,
    name: string,
    lastModifiedOn: string,
    firstMonth: string,
    lastMonth: string,
    dateFormat: string,
    currencyFormat: CurrencyFormat)

  /** The fifteen fields of a category, in declaration order: the abstract value of a Category. */
  datatype CategoryFields = CategoryFields(
    id: string,
    categoryGroupId: string,
    name: string,
    hidden: bool,
    originalCategoryGroupId: string,
    note: string,
    budgeted: int64,
    activity: int64,
    balance: int64,
    goalType: string,
    goalCreationMonth: string,
    goalTarget: int64,
    goalTargetMonth: string,
    goalPercentageComplete: int64,
    deleted: bool)

  /** A spending category. Its fields are overwritten in place when a monthly lookup is merged. */
  class Category {
    var id: string
    var categoryGroupId: string
    var name: string
    var hidden: bool
    var originalCategoryGroupId: string
    var note: string
    var budgeted: int64
    var activity: int64
    var balance: int64
    var goalType: string
    var goalCreationMonth: string
    var goalTarget: int64
    var goalTargetMonth: string
    var goalPercentageComplete: int64
    var deleted: bool

    /** All fifteen fields as one value. */
    function Value(): CategoryFields
      reads this
    {
      CategoryFields(id, categoryGroupId, name, hidden, originalCategoryGroupId, note,
        budgeted, activity, balance, goalType, goalCreationMonth, goalTarget,
        goalTargetMonth, goalPercentageComplete, deleted)
    }

    /** A category as decoded from a response. */
    constructor (v: CategoryFields)
      ensures Value() == v
    {
      id := v.id;
      categoryGroupId := v.categoryGroupId;
      name := v.name;
      hidden := v.hidden;
      originalCategoryGroupId := v.originalCategoryGroupId;
      note := v.note;
      budgeted := v.budgeted;
      activity := v.activity;
      balance := v.balance;
      goalType := v.goalType;
      goalCreationMonth := v.goalCreationMonth;
      goalTarget := v.goalTarget;
      goalTargetMonth := v.goalTargetMonth;
      goalPercentageComplete := v.goalPercentageComplete;
      deleted := v.deleted;
    }

    /** Overwrites fields one to five: identifiers, name and visibility; the other fields keep their values. */
    method AssignIdentity(v: CategoryFields)
      modifies this`id, this`categoryGroupId, this`name, this`hidden, this`originalCategoryGroupId
      ensures id == v.id && categoryGroupId == v.categoryGroupId && name == v.name && hidden == v.hidden && originalCategoryGroupId == v.originalCategoryGroupId
    {
      id := v.id;
      categoryGroupId := v.categoryGroupId;
      name := v.name;
      hidden := v.hidden;
      originalCategoryGroupId := v.originalCategoryGroupId;
    }

    /** Overwrites fields six to ten: note, amounts and goal type; the other fields keep their values. */
    method AssignBudget(v: CategoryFields)
      modifies this`note, this`budgeted, this`activity, this`balance, this`goalType
      ensures note == v.note && budgeted == v.budgeted && activity == v.activity && balance == v.balance && goalType == v.goalType
    {
      note := v.note;
      budgeted := v.budgeted;
      activity := v.activity;
      balance := v.balance;
      goalType := v.goalType;
    }

    /** Overwrites fields eleven to fifteen: the rest of the goal and the deleted flag; the other fields keep their values. */
    method AssignGoal(v: CategoryFields)
      modifies this`goalCreationMonth, this`goalTarget, this`goalTargetMonth, this`goalPercentageComplete, this`deleted
      ensures goalCreationMonth == v.goalCreationMonth && goalTarget == v.goalTarget && goalTargetMonth == v.goalTargetMonth && goalPercentageComplete == v.goalPercentageComplete && deleted == v.deleted
    {
      goalCreationMonth := v.goalCreationMonth;
      goalTarget := v.goalTarget;
      goalTargetMonth := v.goalTargetMonth;
      goalPercentageComplete := v.goalPercentageComplete;
      deleted := v.deleted;
    }
  }

  /** A named group of categories; the group itself is never modified, only its categories. */
  datatype CategoryGroup = CategoryGroup(
    id: string,
    name: string,
    hidden: bool,
    deleted: bool,
    categories: seq<Category>)

  /**
   * Overwrites every field of `dst` with the field of `src` at the same position,
   * the identifier included; `src` is left as it was.
   */
  method CopyCategories(dst: Category, src: Category)
    modifies dst
    ensures dst.Value() == old(src.Value())
    ensures src.Value() == old(src.Value())
  {
    var v := src.Value();
    dst.AssignIdentity(v);
    dst.AssignBudget(v);
    dst.AssignGoal(v);
  }

  // ---------------------------------------------------------------------------------
  // Currency formatting

  /**
   * When Format returns instead of panicking: the decimal string of |number| must have
   * at least three digits, at most three fraction digits may be kept, and the number
   * must not be the one int64 whose negation overflows (its recursion never ends).
   */
  predicate FormatDefined(format: CurrencyFormat, number: int64) {
    && 0 <= format.decimalDigits <= 3
    && number != MinInt64
    && (number >= 100 || number <= -100)
  }

  /**
   * A digit string cut into groups of three from the right, most significant group first;
   * only the first group may be shorter.
   */
  function Groups(s: string): (g: seq<string>)
    ensures |g| >= 1
    decreases |s|
  {
    if |s| <= 3 then [s] else Groups(s[..|s| - 3]) + [s[|s| - 3..]]
  }

  /** The groups put back together give the string; the first has one to three characters, the others three. */
  lemma {:induction false} GroupsShape(s: string)
    requires |s| >= 1
    ensures Concat(Groups(s)) == s
    ensures 1 <= |Groups(s)[0]| <= 3
    ensures forall j :: 0 < j < |Groups(s)| ==> |Groups(s)[j]| == 3
    decreases |s|
  {
    if |s| > 3 {
      var g := Groups(s);
      GroupsShape(s[..|s| - 3]);
      assert g[..|g| - 1] == Groups(s[..|s| - 3]);
      assert s == s[..|s| - 3] + s[|s| - 3..];
    }
  }

  /** Any split of `s` with that shape is the one Groups computes. */
  lemma {:induction false} GroupsUnique(s: string, parts: seq<string>)
    requires |parts| >= 1 && Concat(parts) == s
    requires 1 <= |parts[0]| <= 3
    requires forall j :: 0 < j < |parts| ==> |parts[j]| == 3
    ensures parts == Groups(s)
    decreases |parts|
  {
    if |parts| == 1 {
      assert parts[..0] == [];
      assert "" + parts[0] == parts[0];
      assert parts == [s];
    } else {
      var init, last := parts[..|parts| - 1], parts[|parts| - 1];
      var head := Concat(init);
      assert parts == init + [last];
      assert s == head + last;
      ConcatLength(init);
      GroupsUnique(head, init);
      assert s[..|s| - 3] == head && s[|s| - 3..] == last;
    }
  }

  lemma {:induction false} ConcatLength(parts: seq<string>)
    requires |parts| >= 1 && |parts[0]| >= 1
    ensures |Concat(parts)| >= 1
    decreases |parts|
  {
    if |parts| > 1 {
      ConcatLength(parts[..|parts| - 1]);
    }
  }

  /** With a digit-free separator, the digits of the grouped string are the original digits. */
  lemma {:induction false} GroupedDigits(s: string, sep: string)
    requires AllDigits(s) && NoDigits(sep)
    ensures DigitsOf(Join(Groups(s), sep)) == s
    decreases |s|
  {
    if |s| <= 3 {
      DigitsOfPure(s);
    } else {
      var g := Groups(s);
      var head, tail := s[..|s| - 3], s[|s| - 3..];
      assert g[..|g| - 1] == Groups(head);
      assert Join(g, sep) == Join(Groups(head), sep) + sep + tail;
      GroupedDigits(head, sep);
      DigitsOfAppend(Join(Groups(head), sep) + sep, tail);
      DigitsOfAppend(Join(Groups(head), sep), sep);
      DigitsOfPure(sep);
      DigitsOfPure(tail);
      assert s == head + tail;
    }
  }

  /** The three digits of a milliunit remainder 0..999, zero-padded. */
  function Millis(m: nat): (d: string)
    requires m < 1000
  {
    [DigitChar(m / 10 / 10), DigitChar(m / 10 % 10), DigitChar(m % 10)]
  }

  function Pow10(k: nat): (p: nat)
    ensures p >= 1
  {
    if k == 0 then 1 else 10 * Pow10(k - 1)
  }

  /** The three decimal digits behind Millis, as numbers. */
  lemma MillisDigits(m: nat) returns (d2: nat, d1: nat, d0: nat)
    requires m < 1000
    ensures d2 < 10 && d1 < 10 && d0 < 10 && m == 100 * d2 + 10 * d1 + d0
    ensures Millis(m) == [DigitChar(d2), DigitChar(d1), DigitChar(d0)]
  {
    var t := m / 10;
    d0 := m % 10;
    d1 := t % 10;
    d2 := t / 10;
    assert m == 10 * t + d0 && t == 10 * d2 + d1;
  }

  /** Appending a digit to a positive number appends its character to the rendering. */
  lemma DecimalAppend(a: nat, d: nat)
    requires a >= 1 && d < 10
    ensures DecimalString(10 * a + d) == DecimalString(a) + [DigitChar(d)]
  {
    var n := 10 * a + d;
    assert n / 10 == a && n % 10 == d;
  }

  /** The rendering of 1000 * q + r, r written as three digits, when it has at least three digits. */
  lemma ThousandsDecimal(q: nat, d2: nat, d1: nat, d0: nat)
    requires d2 < 10 && d1 < 10 && d0 < 10 && (q >= 1 || d2 >= 1)
    ensures DecimalString(1000 * q + 100 * d2 + 10 * d1 + d0)
      == (if q == 0 then "" else DecimalString(q)) + [DigitChar(d2), DigitChar(d1), DigitChar(d0)]
  {
    var m := 10 * q + d2;
    if q == 0 {
      assert DecimalString(m) == [DigitChar(d2)];
    } else {
      DecimalAppend(q, d2);
    }
    DecimalAppend(m, d1);
    DecimalAppend(10 * m + d1, d0);
    assert 10 * (10 * m + d1) + d0 == 1000 * q + 100 * d2 + 10 * d1 + d0;
  }

  /** The last three digits of a number of at least 100 are its millis; the rest is n / 1000 (empty below 1000). */
  lemma ThousandsSplit(n: nat)
    requires n >= 100
    ensures |DecimalString(n)| >= 3
    ensures var s := DecimalString(n);
      && s[..|s| - 3] == (if n < 1000 then "" else DecimalString(n / 1000))
      && s[|s| - 3..] == Millis(n % 1000)
  {
    var q, r := n / 1000, n % 1000;
    assert n == 1000 * q + r && (n < 1000 <==> q == 0);
    var d2, d1, d0 := MillisDigits(r);
    ThousandsDecimal(q, d2, d1, d0);
    var head := if q == 0 then "" else DecimalString(q);
    var s := DecimalString(n);
    assert s == head + Millis(r);
    assert s[..|s| - 3] == head;
  }

  /**
   * The unsigned body exactly as Format assembles it: the decimal string is cut three
   * characters from its end; the tail, truncated to DecimalDigits, is the fraction; the
   * head (or "0" when empty) is grouped in threes.
   */
  function Body(format: CurrencyFormat, number: nat): string
    requires number >= 100 && 0 <= format.decimalDigits <= 3
  {
    DecimalLength(number);
    var s := DecimalString(number);
    var before := s[..|s| - 3];
    var after := s[|s| - 3..][..format.decimalDigits];
    var integral := if |before| == 0 then "0" else before;
    Join(Groups(integral), format.groupSeparator) + format.decimalSeparator + after
  }

  /** Symbol placement as Format does it; without DisplaySymbol the result is empty. */
  function Placed(format: CurrencyFormat, body: string): string {
    if format.displaySymbol && !format.symbolFirst then body + " " + format.currencySymbol
    else if format.displaySymbol then format.currencySymbol + body
    else ""
  }

  /** What `CurrencyFormat.Format(number)` returns when it does not panic. */
  function Formatted(format: CurrencyFormat, number: int64): string
    requires FormatDefined(format, number)
    decreases if number < 0 then 1 else 0
  {
    if number < 0 then "-" + Formatted(format, -number)
    else Placed(format, Body(format, number as nat))
  }

  /**
   * `CurrencyFormat.Format`: negative amounts recurse on their negation behind a '-';
   * otherwise the decimal string is cut three digits from the end, the integral part is
   * split into groups of three from the right and written back most significant first
   * with the group separator between them, and the truncated fraction follows the
   * decimal separator. The symbol goes before or after the body, or the result stays
   * empty when the symbol is not displayed.
   */
  method Format(format: CurrencyFormat, number: int64) returns (result: string)
    requires FormatDefined(format, number)
    ensures result == Formatted(format, number)
    decreases if number < 0 then 1 else 0
  {
    var millis := 3;
    if number < 0 {
      millis := 4;
      var positive := Format(format, -number);
      FormattedSign(format, number);
      return "-" + positive;
    }
    var numberStr := FormatInt(number as int);
    DecimalLength(number as nat);
    DecimalDigits(number as nat);
    var before := numberStr[..|numberStr| - millis];
    var after := numberStr[|numberStr| - millis..];
    after := after[..format.decimalDigits];
    var remainder := "";
    if |before| == 0 {
      before := "0";
    } else if before[0] == '-' {
      // the digits of a non-negative number never start with a sign
      assert false;
    }
    var groups := SplitGroups(before);
    var b := remainder;
    var written := WriteGroups(groups, format.groupSeparator);
    assert written == Join(Groups(before), format.groupSeparator);
    assert b + written == written;
    b := b + written;
    b := b + format.decimalSeparator;
    b := b + after;
    BodyFrom(format, number as nat, before, after);
    FormattedSign(format, number);
    assert b == Body(format, number as nat);
    result := "";
    if format.displaySymbol && !format.symbolFirst {
      b := b + " ";
      b := b + format.currencySymbol;
      result := b;
    } else if format.displaySymbol {
      result := format.currencySymbol + b;
    }
    assert result == Placed(format, Body(format, number as nat));
  }

  /**
   * The `for true` loop of Format: three-digit groups are cut off the end of the
   * integral digits and appended, so the groups come out least significant first.
   */
  method SplitGroups(integral: string) returns (groups: seq<string>)
    requires |integral| >= 1
    ensures Reversed(groups) == Groups(integral)
  {
    var before := integral;
    groups := [];
    ghost var whole := Groups(integral);
    while true
      invariant 1 <= |before| && Collected(whole, before, groups)
      decreases |before|
    {
      if |before| <= 3 {
        GroupsLast(whole, before, groups);
        groups := groups + [before];
        break;
      } else {
        GroupsPeel(whole, before, groups);
        groups := groups + [before[|before| - 3..]];
        before := before[..|before| - 3];
      }
    }
  }

  /**
   * The writing loop of Format: the groups from last to first, with the separator after
   * every group but the first one collected.
   */
  method WriteGroups(groups: seq<string>, sep: string) returns (b: string)
    requires |groups| >= 1
    ensures b == Join(Reversed(groups), sep)
  {
    b := "";
    var i := |groups| - 1;
    while i >= 0
      invariant -1 <= i < |groups|
      invariant i >= 0 ==> b == JoinedFrom(groups, i + 1, sep)
      invariant i < 0 ==> b == JoinedFrom(groups, 1, sep) + groups[0]
      decreases i
    {
      b := b + groups[i];
      if i != 0 {
        b := b + sep;
      }
      i := i - 1;
    }
    JoinedFromAll(groups, 0, sep);
    assert groups[0..] == groups;
  }

  /** Body in terms of the integral digits (or "0") and the kept fraction digits. */
  lemma BodyFrom(format: CurrencyFormat, number: nat, integral: string, after: string)
    requires number >= 100 && 0 <= format.decimalDigits <= 3
    requires |DecimalString(number)| >= 3
    requires var s := DecimalString(number);
      && integral == (if |s| == 3 then "0" else s[..|s| - 3])
      && after == s[|s| - 3..][..format.decimalDigits]
    ensures Body(format, number) == Join(Groups(integral), format.groupSeparator) + format.decimalSeparator + after
  {
  }

  /**
   * The splitting loop's invariant: what is left of the integral part still has the
   * leading groups of `whole`, and `groups` holds the others, least significant first.
   */
  predicate Collected(whole: seq<string>, before: string, groups: seq<string>) {
    && |groups| < |whole|
    && Groups(before) == whole[..|whole| - |groups|]
    && forall k :: 0 <= k < |groups| ==> groups[k] == whole[|whole| - 1 - k]
  }

  /** Peeling the last three digits off `before` moves one group from it to the collected ones. */
  lemma GroupsPeel(whole: seq<string>, before: string, groups: seq<string>)
    requires |before| > 3 && Collected(whole, before, groups)
    ensures Collected(whole, before[..|before| - 3], groups + [before[|before| - 3..]])
  {
    var m := |whole| - |groups|;
    var rest := Groups(before[..|before| - 3]);
    assert Groups(before) == rest + [before[|before| - 3..]];
    assert whole[..m][..m - 1] == whole[..m - 1];
  }

  /** Once `before` is a single group, the collected groups reversed are all of them. */
  lemma GroupsLast(whole: seq<string>, before: string, groups: seq<string>)
    requires 1 <= |before| <= 3 && Collected(whole, before, groups)
    ensures Reversed(groups + [before]) == whole
  {
    var all := groups + [before];
    assert |whole| == |all|;
    forall k | 0 <= k < |all|
      ensures Reversed(all)[k] == whole[k]
    {
      ReversedAt(all, k);
    }
  }

  /**
   * What the writing loop has produced once the groups from index `i` downwards remain:
   * groups[|groups| - 1] down to groups[i], each followed by the separator.
   */
  function JoinedFrom(groups: seq<string>, i: nat, sep: string): string
    requires i <= |groups|
    decreases |groups| - i
  {
    if i == |groups| then "" else JoinedFrom(groups, i + 1, sep) + groups[i] + sep
  }

  /** Finishing with group i (no separator after it) gives the reversed groups from i on, joined. */
  lemma {:induction false} JoinedFromAll(groups: seq<string>, i: nat, sep: string)
    requires i < |groups|
    ensures JoinedFrom(groups, i + 1, sep) + groups[i] == Join(Reversed(groups[i..]), sep)
    decreases |groups| - i
  {
    if i + 1 == |groups| {
      assert groups[i..] == [groups[i]];
    } else {
      JoinedFromAll(groups, i + 1, sep);
      assert groups[i..] == [groups[i]] + groups[i + 1..];
      ReversedCons(groups[i], groups[i + 1..]);
      JoinLast(Reversed(groups[i + 1..]), groups[i], sep);
    }
  }

  /** One unfolding of Formatted: the sign, or the placed body. */
  lemma FormattedSign(format: CurrencyFormat, number: int64)
    requires FormatDefined(format, number)
    ensures number < 0 ==> Formatted(format, number) == "-" + Formatted(format, -number)
    ensures number >= 0 ==> Formatted(format, number) == Placed(format, Body(format, number as nat))
  {
  }

  /**
   * The body in arithmetic terms: the thousands (n / 1000) grouped in threes, the
   * separator, then the first DecimalDigits of the three millis digits (n % 1000).
   */
  function AmountBody(format: CurrencyFormat, number: nat): string
    requires 0 <= format.decimalDigits <= 3
  {
    Join(Groups(DecimalString(number / 1000)), format.groupSeparator)
      + format.decimalSeparator + Millis(number % 1000)[..format.decimalDigits]
  }

  /** |n| in unbounded arithmetic (Go's -n would wrap at the minimum). */
  function Abs(n: int64): nat {
    if n < 0 then -(n as int) else n as int
  }

  /**
   * Formatted in arithmetic terms: a '-' for negative numbers, then the symbol placed
   * around the thousands and truncated millis of |number|.
   */
  lemma FormattedMeaning(format: CurrencyFormat, number: int64)
    requires FormatDefined(format, number)
    ensures Formatted(format, number)
      == (if number < 0 then "-" else "") + Placed(format, AmountBody(format, Abs(number)))
  {
    var n := Abs(number);
    ThousandsSplit(n);
    assert Body(format, n) == AmountBody(format, n);
  }

  /** Without DisplaySymbol, Format returns nothing of the amount: at most the sign. */
  lemma HiddenSymbolDropsAmount(format: CurrencyFormat, number: int64)
    requires FormatDefined(format, number) && !format.displaySymbol
    ensures Formatted(format, number) == if number < 0 then "-" else ""
  {
    FormattedMeaning(format, number);
  }

  /** The symbol placed around the body; without DisplaySymbol, the body alone. */
  function Shown(format: CurrencyFormat, body: string): string {
    if format.displaySymbol then Placed(format, body) else body
  }

  /**
   * Format as evidently intended: defined for every int64 amount, amounts under 100
   * milliunits included, and keeping the amount when the symbol is not displayed.
   */
  function FormattedTotal(format: CurrencyFormat, number: int64): string
    requires 0 <= format.decimalDigits <= 3
  {
    (if number < 0 then "-" else "") + Shown(format, AmountBody(format, Abs(number)))
  }

  /** Wherever Format returns and shows the symbol, the intended rendering is what it returns. */
  lemma FormattedTotalAgrees(format: CurrencyFormat, number: int64)
    requires FormatDefined(format, number) && format.displaySymbol
    ensures FormattedTotal(format, number) == Formatted(format, number)
  {
    FormattedMeaning(format, number);
  }

  /**
   * With the symbol hidden, the intended rendering is the sign followed by the very body
   * that Format computes and then drops, wherever Format returns.
   */
  lemma FormattedTotalHidden(format: CurrencyFormat, number: int64)
    requires 0 <= format.decimalDigits <= 3 && !format.displaySymbol
    ensures FormatDefined(format, number) ==>
      FormattedTotal(format, number) == (if number < 0 then "-" else "") + Body(format, Abs(number))
  {
    if FormatDefined(format, number) {
      ThousandsSplit(Abs(number));
      assert Body(format, Abs(number)) == AmountBody(format, Abs(number));
    }
  }

  /** Amounts that make Format panic get a rendering: zero and five cents in US dollars. */
  lemma FormattedTotalSmall()
    ensures FormattedTotal(Usd, 0) == "$0.00"
    ensures FormattedTotal(Usd, -50) == "-$0.05"
  {
    assert AmountBody(Usd, 0) == "0.00" by {
      assert Millis(0) == "000";
    }
    assert AmountBody(Usd, 50) == "0.05" by {
      assert Millis(50) == "050";
    }
  }

  /**
   * The fraction digits are the millis truncated, not rounded, to DecimalDigits: scaled
   * back up they never exceed the millis and fall short of them by less than one step.
   */
  lemma FractionTruncated(m: nat, digits: nat)
    requires m < 1000 && digits <= 3
    ensures var kept := Value(Millis(m)[..digits]);
      kept * Pow10(3 - digits) <= m < (kept + 1) * Pow10(3 - digits)
  {
    var d2, d1, d0 := MillisDigits(m);
    var d := Millis(m);
    assert Value(d[..0]) == 0;
    assert d[..1][..0] == d[..0];
    assert Value(d[..1]) == d2;
    assert d[..2][..1] == d[..1];
    assert Value(d[..2]) == 10 * d2 + d1;
    assert d[..3][..2] == d[..2];
    assert Value(d[..3]) == m;
    assert Pow10(0) == 1 && Pow10(1) == 10 && Pow10(2) == 100 && Pow10(3) == 1000;
  }

  /**
   * With digit-free separators, the digits of the body are the decimal digits of the
   * number with its last 3 - DecimalDigits digits dropped, behind a "0" below 1000.
   */
  lemma BodyDigits(format: CurrencyFormat, number: nat)
    requires number >= 100 && 0 <= format.decimalDigits <= 3
    requires NoDigits(format.groupSeparator) && NoDigits(format.decimalSeparator)
    ensures |DecimalString(number)| >= 3
    ensures var s := DecimalString(number);
      DigitsOf(Body(format, number))
        == (if number < 1000 then "0" else "") + s[..|s| - 3 + format.decimalDigits]
  {
    var integral, after := BodyParts(format, number);
    GroupedDigits(integral, format.groupSeparator);
    DigitsAroundSeparator(Join(Groups(integral), format.groupSeparator), format.decimalSeparator, after);
  }

  /** Body as grouped integral digits, separator and fraction digits, the latter two read off the decimal string. */
  lemma BodyParts(format: CurrencyFormat, number: nat) returns (integral: string, after: string)
    requires number >= 100 && 0 <= format.decimalDigits <= 3
    ensures |DecimalString(number)| >= 3
    ensures AllDigits(integral) && AllDigits(after)
    ensures Body(format, number) == Join(Groups(integral), format.groupSeparator) + format.decimalSeparator + after
    ensures var s := DecimalString(number);
      integral + after == (if number < 1000 then "0" else "") + s[..|s| - 3 + format.decimalDigits]
  {
    var s := DecimalString(number);
    assert |s| >= 3 by {
      DecimalLength(number);
    }
    var k := |s| - 3;
    var before := s[..k];
    assert |before| == 0 <==> number < 1000 by {
      ThousandsSplit(number);
    }
    after := s[k..][..format.decimalDigits];
    integral := if |before| == 0 then "0" else before;
    assert AllDigits(after) && AllDigits(before) by {
      DecimalDigits(number);
      assert forall i :: 0 <= i < |after| ==> after[i] == s[k + i];
    }
    BodyFrom(format, number, integral, after);
    var prefix := if number < 1000 then "0" else "";
    assert integral == prefix + before;
    PrefixThenSlice(s, k, k + format.decimalDigits);
  }

  lemma DigitsAroundSeparator(head: string, sep: string, tail: string)
    requires NoDigits(sep) && AllDigits(tail)
    ensures DigitsOf(head + sep + tail) == DigitsOf(head) + tail
  {
    DigitsOfAppend(head + sep, tail);
    DigitsOfAppend(head, sep);
    DigitsOfPure(sep);
    DigitsOfPure(tail);
    assert DigitsOf(head) + "" == DigitsOf(head);
  }

  lemma PrefixThenSlice(s: string, i: nat, j: nat)
    requires i <= j <= |s|
    ensures s[..i] + s[i..][..j - i] == s[..j]
  {
  }

  /** The formatting used by the tests: US dollars with two fraction digits. */
  const Usd := CurrencyFormat("USD", "$35.42", 2, ".", true, ",", "$", true)

  /**
   * Formatted with the symbol displayed first, given the grouped thousands and the
   * kept fraction digits of |number|.
   */
  lemma SymbolFirstAmount(format: CurrencyFormat, number: int64, q: nat, r: nat, thousands: string, fraction: string)
    requires FormatDefined(format, number) && format.displaySymbol && format.symbolFirst
    requires Abs(number) / 1000 == q && Abs(number) % 1000 == r
    requires Join(Groups(DecimalString(q)), format.groupSeparator) == thousands
    requires Millis(r)[..format.decimalDigits] == fraction
    ensures Formatted(format, number)
      == (if number < 0 then "-" else "") + format.currencySymbol + thousands + format.decimalSeparator + fraction
  {
    FormattedMeaning(format, number);
    var sign := if number < 0 then "-" else "";
    var body := thousands + format.decimalSeparator + fraction;
    assert AmountBody(format, Abs(number)) == body;
    assert Placed(format, body) == format.currencySymbol + body;
    assert Formatted(format, number) == sign + (format.currencySymbol + body);
    Regrouped(sign, format.currencySymbol, thousands, format.decimalSeparator, fraction);
  }

  lemma Regrouped(a: string, b: string, c: string, d: string, e: string)
    ensures a + (b + (c + d + e)) == a + b + c + d + e
  {
  }

  /** From 1000 on, the groups of n are the groups of n / 1000 followed by the three digits of n % 1000. */
  lemma GroupsThousands(n: nat)
    requires n >= 1000
    ensures Groups(DecimalString(n)) == Groups(DecimalString(n / 1000)) + [Millis(n % 1000)]
  {
    ThousandsSplit(n);
    var s := DecimalString(n);
    assert |s[..|s| - 3]| >= 1;
  }

  /** The fraction digits of the test cases. */
  lemma UsdFractions()
    ensures Millis(100)[..2] == "10" && Millis(200)[..2] == "20"
    ensures Millis(210)[..2] == "21" && Millis(0)[..2] == "00"
  {
  }

  /** One, ten and a hundred are rendered as themselves. */
  lemma PowersOfTen()
    ensures DecimalString(1) == "1" && DecimalString(10) == "10" && DecimalString(100) == "100"
  {
    DecimalAppend(1, 0);
    DecimalAppend(10, 0);
  }

  /** The integral part of the third test case, grouped. */
  lemma UsdIntegral10250()
    ensures Join(Groups(DecimalString(10250)), ",") == "10,250"
  {
    PowersOfTen();
    GroupsThousands(10250);
    JoinLast(["10"], Millis(250), ",");
  }

  /** TestCurrencyFormat_Format_USD, first case: 100 milliunits, below one dollar. */
  lemma UsdCents()
    ensures Formatted(Usd, 100) == "$0.10"
  {
    UsdFractions();
    SymbolFirstAmount(Usd, 100, 0, 100, "0", "10");
  }

  /** Second case: 85200 milliunits, two integral digits. */
  lemma UsdDollars()
    ensures Formatted(Usd, 85200) == "$85.20"
  {
    DecimalAppend(8, 5);
    UsdFractions();
    SymbolFirstAmount(Usd, 85200, 85, 200, "85", "20");
  }

  /** Third case: 10250210 milliunits, two groups and a non-zero fraction. */
  lemma UsdThousands()
    ensures Formatted(Usd, 10250210) == "$10,250.21"
  {
    UsdIntegral10250();
    UsdFractions();
    SymbolFirstAmount(Usd, 10250210, 10250, 210, "10,250", "21");
    assert "" + "$" + "10,250" + "." + "21" == "$10,250.21";
  }

  /** Fifth case: -15000 milliunits, the sign ahead of the symbol. */
  lemma UsdNegative()
    ensures Formatted(Usd, -15000) == "-$15.00"
  {
    DecimalAppend(1, 5);
    UsdFractions();
    SymbolFirstAmount(Usd, -15000, 15, 0, "15", "00");
  }
}
