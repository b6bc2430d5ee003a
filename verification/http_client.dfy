/**
 * The client of the budgeting service's REST interface (client/http_client.go): request
 * paths, URLs and headers, and the sequential skeleton of GetCategories, which looks up
 * every category of a month one request at a time and merges each answer into the
 * category it belongs to.
 */
module HttpClient {
  import opened Wrappers
  import opened Text
  import opened Types

  const BaseUrl := "https://api.youneedabudget.com/v1"

  /** The month value that asks for the categories as they are now, with no per-month lookup. */
  const CurrentMonth := "current"

  // ---------------------------------------------------------------------------------
  // Paths, URLs and headers

  /** The path of the category listing of a budget. */
  function CategoriesPath(budgetId: string): string {
    "/budgets/" + budgetId + "/categories"
  }

  /** The path GetCategoryForMonth requests: one category as of the first day of `month`. */
  function MonthCategoryPath(budgetId: string, categoryId: string, month: string): string {
    "/budgets/" + budgetId + "/months/" + month + "-01/categories/" + categoryId
  }

  /** makeRequest's URL: the base URL with the path appended. */
  function RequestUrl(path: string): string {
    BaseUrl + path
  }

  /** makeRequest's Authorization header value. */
  function AuthorizationHeader(apiKey: string): string {
    "Bearer " + apiKey
  }

  /** The month path splits at '/' into its seven segments, so the three values can be read back. */
  lemma MonthCategoryPathSegments(budgetId: string, categoryId: string, month: string)
    requires '/' !in budgetId && '/' !in categoryId && '/' !in month
    ensures Split(MonthCategoryPath(budgetId, categoryId, month), '/')
      == ["", "budgets", budgetId, "months", month + "-01", "categories", categoryId]
  {
    var m := month + "-01";
    assert '/' !in m by {
      assert forall i :: 0 <= i < |m| ==> m[i] == (if i < |month| then month[i] else "-01"[i - |month|]);
    }
    var s6 := "categories" + "/" + categoryId;
    var s5 := m + "/" + s6;
    var s4 := "months" + "/" + s5;
    var s3 := budgetId + "/" + s4;
    var s2 := "budgets" + "/" + s3;
    MonthCategoryPathShape(budgetId, categoryId, month);
    SplitWithout(categoryId, '/');
    SplitAfter("categories", '/', categoryId);
    SplitAfter(m, '/', s6);
    SplitAfter("months", '/', s5);
    SplitAfter(budgetId, '/', s4);
    SplitAfter("budgets", '/', s3);
    SplitAfter("", '/', s2);
  }

  /** The month path regrouped as segments each followed by a separator. */
  lemma MonthCategoryPathShape(budgetId: string, categoryId: string, month: string)
    ensures MonthCategoryPath(budgetId, categoryId, month)
      == "" + "/" + ("budgets" + "/" + (budgetId + "/" + ("months" + "/" + ((month + "-01") + "/" + ("categories" + "/" + categoryId)))))
  {
    var head := "/budgets/" + budgetId + "/months/";
    var tail := month + "-01/categories/" + categoryId;
    assert MonthCategoryPath(budgetId, categoryId, month) == head + tail;
    TailShape(month, categoryId);
    HeadShape(budgetId, tail);
  }

  lemma TailShape(month: string, categoryId: string)
    ensures month + "-01/categories/" + categoryId == (month + "-01") + "/" + ("categories" + "/" + categoryId)
  {
    assert "-01/categories/" == "-01" + "/" + "categories" + "/";
  }

  lemma HeadShape(budgetId: string, tail: string)
    ensures "/budgets/" + budgetId + "/months/" + tail == "" + "/" + ("budgets" + "/" + (budgetId + "/" + ("months" + "/" + tail)))
  {
    assert "/months/" + tail == "/" + ("months" + "/" + tail);
  }

  /** The URL starts with the base URL and the rest of it is the path. */
  lemma RequestUrlParts(path: string)
    ensures |RequestUrl(path)| == |BaseUrl| + |path|
    ensures RequestUrl(path)[..|BaseUrl|] == BaseUrl && RequestUrl(path)[|BaseUrl|..] == path
  {
  }

  /** The header is "Bearer " followed by exactly the key. */
  lemma AuthorizationHeaderParts(apiKey: string)
    ensures AuthorizationHeader(apiKey)[..7] == "Bearer " && AuthorizationHeader(apiKey)[7..] == apiKey
  {
  }

  // ---------------------------------------------------------------------------------
  // GetCategories: dispatch and collection

  /**
   * What one lookup delivers on its channel: the category as of the month, or the
   * error of the request.
   */
  datatype ChanResult = Fetched(category: Category) | Failed(error: string)

  /**
   * A pending lookup: the category slot it will be merged into and the channel it
   * answers on. Channels are numbered in dispatch order.
   */
  datatype CategoryRef = CategoryRef(category: Category, receiver: nat)

  /** The categories of all groups: group by group, each group's categories in order. */
  function Flatten(groups: seq<CategoryGroup>): (r: seq<Category>)
    decreases |groups|
  {
    if |groups| == 0 then [] else Flatten(groups[..|groups| - 1]) + groups[|groups| - 1].categories
  }

  /** Flattening one more group appends its categories. */
  lemma FlattenSnoc(groups: seq<CategoryGroup>, g: nat)
    requires g < |groups|
    ensures Flatten(groups[..g + 1]) == Flatten(groups[..g]) + groups[g].categories
  {
    assert groups[..g + 1][..g] == groups[..g];
  }

  /** The position of the first category of group `g` in the flattened order. */
  function Offset(groups: seq<CategoryGroup>, g: nat): nat
    requires g <= |groups|
  {
    |Flatten(groups[..g])|
  }

  /** Every flattened category is a category of one of the groups. */
  lemma {:induction false} FlattenMembers(groups: seq<CategoryGroup>, c: Category)
    requires c in Flatten(groups)
    ensures exists g, j :: 0 <= g < |groups| && 0 <= j < |groups[g].categories| && groups[g].categories[j] == c
    decreases |groups|
  {
    var n := |groups| - 1;
    if c in Flatten(groups[..n]) {
      FlattenMembers(groups[..n], c);
      var g, j :| 0 <= g < n && 0 <= j < |groups[..n][g].categories| && groups[..n][g].categories[j] == c;
      assert groups[g] == groups[..n][g];
    } else {
      var j :| 0 <= j < |groups[n].categories| && groups[n].categories[j] == c;
    }
  }

  /** The categories of group `g` fit inside the flattened order, starting at its offset. */
  lemma {:induction false} OffsetWithin(groups: seq<CategoryGroup>, g: nat)
    requires g < |groups|
    ensures Offset(groups, g) + |groups[g].categories| <= |Flatten(groups)|
    decreases |groups|
  {
    var n := |groups|;
    assert groups[..n] == groups;
    FlattenSnoc(groups, n - 1);
    if g < n - 1 {
      var init := groups[..n - 1];
      assert init[..g] == groups[..g];
      OffsetWithin(init, g);
    }
  }

  /**
   * Category `c` of group `g` comes after every category of the earlier groups and
   * after the earlier categories of its own group.
   */
  lemma {:induction false} FlattenAt(groups: seq<CategoryGroup>, g: nat, c: nat)
    requires g < |groups| && c < |groups[g].categories|
    ensures Offset(groups, g) + c < |Flatten(groups)|
    ensures Flatten(groups)[Offset(groups, g) + c] == groups[g].categories[c]
    decreases |groups|
  {
    var n := |groups|;
    assert groups[..n] == groups;
    FlattenSnoc(groups, n - 1);
    if g < n - 1 {
      var init := groups[..n - 1];
      assert init[..g] == groups[..g];
      FlattenAt(init, g, c);
    }
  }

  /** No category object occurs twice: each slot of the groups is a distinct object. */
  predicate DistinctSlots(categories: seq<Category>) {
    forall j, k :: 0 <= j < k < |categories| ==> categories[j] != categories[k]
  }

  /** The pending entries the dispatch loops build: entry `k` is category `k` of the listing, answering on channel `k`. */
  function Dispatched(groups: seq<CategoryGroup>): (refs: seq<CategoryRef>)
    ensures |refs| == |Flatten(groups)|
  {
    var slots := Flatten(groups);
    seq(|slots|, k requires 0 <= k < |slots| => CategoryRef(slots[k], k))
  }

  /**
   * The dispatch loops: one pending entry per category, in group-then-category order,
   * each pointing at the category's own slot and answering on its own channel; and the
   * month lookup each of them requests.
   */
  method Dispatch(budgetId: string, month: string, groups: seq<CategoryGroup>)
    returns (refs: seq<CategoryRef>, requests: seq<string>)
    ensures |refs| == |requests| == |Flatten(groups)|
    ensures forall k :: 0 <= k < |refs| ==> refs[k] == CategoryRef(Flatten(groups)[k], k)
    ensures forall k :: 0 <= k < |refs| ==> requests[k] == MonthCategoryPath(budgetId, Flatten(groups)[k].id, month)
  {
    refs, requests := [], [];
    ghost var seen: seq<Category> := [];
    var g := 0;
    while g < |groups|
      invariant 0 <= g <= |groups|
      invariant seen == Flatten(groups[..g])
      invariant |refs| == |requests| == |seen|
      invariant forall k :: 0 <= k < |refs| ==> refs[k] == CategoryRef(seen[k], k)
      invariant forall k :: 0 <= k < |refs| ==> requests[k] == MonthCategoryPath(budgetId, seen[k].id, month)
    {
      var group := groups[g];
      var c := 0;
      while c < |group.categories|
        invariant 0 <= c <= |group.categories|
        invariant seen == Flatten(groups[..g]) + group.categories[..c]
        invariant |refs| == |requests| == |seen|
        invariant forall k :: 0 <= k < |refs| ==> refs[k] == CategoryRef(seen[k], k)
        invariant forall k :: 0 <= k < |refs| ==> requests[k] == MonthCategoryPath(budgetId, seen[k].id, month)
      {
        var category := group.categories[c];
        var categoryId := category.id;
        refs := refs + [CategoryRef(category, |refs|)];
        requests := requests + [MonthCategoryPath(budgetId, categoryId, month)];
        seen := seen + [category];
        assert group.categories[..c + 1] == group.categories[..c] + [category];
        c := c + 1;
      }
      assert group.categories[..c] == group.categories;
      FlattenSnoc(groups, g);
      g := g + 1;
    }
    assert groups[..g] == groups;
  }

  /** Receivers are numbered by position, as Dispatch numbers them. */
  predicate Numbered(refs: seq<CategoryRef>) {
    forall k :: 0 <= k < |refs| ==> refs[k].receiver == k
  }

  /** The entries whose channel is not among `merged`, in their original order. */
  function Unmerged(refs: seq<CategoryRef>, merged: seq<nat>): (r: seq<CategoryRef>)
    ensures |r| <= |refs|
    decreases |refs|
  {
    if |refs| == 0 then []
    else
      var last := refs[|refs| - 1];
      Unmerged(refs[..|refs| - 1], merged) + (if last.receiver in merged then [] else [last])
  }

  /** Before any merge every entry is pending. */
  lemma {:induction false} UnmergedNone(refs: seq<CategoryRef>)
    ensures Unmerged(refs, []) == refs
    decreases |refs|
  {
    if |refs| > 0 {
      UnmergedNone(refs[..|refs| - 1]);
      assert refs[..|refs| - 1] + [refs[|refs| - 1]] == refs;
    }
  }

  /** A pending entry is the entry of its own channel, and that channel has not been merged. */
  lemma {:induction false} UnmergedAt(refs: seq<CategoryRef>, merged: seq<nat>, i: nat)
    requires Numbered(refs) && i < |Unmerged(refs, merged)|
    ensures Unmerged(refs, merged)[i].receiver < |refs|
    ensures refs[Unmerged(refs, merged)[i].receiver] == Unmerged(refs, merged)[i]
    ensures Unmerged(refs, merged)[i].receiver !in merged
    decreases |refs|
  {
    var init := refs[..|refs| - 1];
    if i < |Unmerged(init, merged)| {
      UnmergedAt(init, merged, i);
    }
  }

  /** An entry whose channel has not been merged is still pending. */
  lemma {:induction false} UnmergedKeeps(refs: seq<CategoryRef>, merged: seq<nat>, k: nat)
    requires Numbered(refs) && k < |refs| && k !in merged
    ensures refs[k] in Unmerged(refs, merged)
    decreases |refs|
  {
    if k < |refs| - 1 {
      UnmergedKeeps(refs[..|refs| - 1], merged, k);
    }
  }

  /** Nothing is pending exactly when every channel has been merged. */
  lemma {:induction false} UnmergedEmpty(refs: seq<CategoryRef>, merged: seq<nat>)
    requires Numbered(refs)
    ensures Unmerged(refs, merged) == [] <==> forall k :: 0 <= k < |refs| ==> k in merged
    decreases |refs|
  {
    if |refs| > 0 {
      UnmergedEmpty(refs[..|refs| - 1], merged);
      if Unmerged(refs, merged) == [] {
        forall k | 0 <= k < |refs|
          ensures k in merged
        {
          if k !in merged {
            UnmergedKeeps(refs, merged, k);
          }
        }
      }
    }
  }

  /** Merging a channel that no entry answers on changes nothing. */
  lemma {:induction false} UnmergedIgnores(refs: seq<CategoryRef>, merged: seq<nat>, x: nat)
    requires Numbered(refs) && x >= |refs|
    ensures Unmerged(refs, merged + [x]) == Unmerged(refs, merged)
    decreases |refs|
  {
    if |refs| > 0 {
      UnmergedIgnores(refs[..|refs| - 1], merged, x);
    }
  }

  /**
   * Merging the channel of pending entry `i` removes exactly that entry; the others keep
   * their relative order.
   */
  lemma {:induction false} UnmergedRemove(refs: seq<CategoryRef>, merged: seq<nat>, i: nat)
    requires Numbered(refs) && i < |Unmerged(refs, merged)|
    ensures Unmerged(refs, merged + [Unmerged(refs, merged)[i].receiver])
      == Unmerged(refs, merged)[..i] + Unmerged(refs, merged)[i + 1..]
    decreases |refs|
  {
    var p := Unmerged(refs, merged);
    var n := |refs|;
    var init := refs[..n - 1];
    var q := Unmerged(init, merged);
    var x := p[i].receiver;
    UnmergedAt(refs, merged, i);
    if n - 1 in merged {
      assert p == q;
      UnmergedRemove(init, merged, i);
    } else if x == n - 1 {
      if i < |q| {
        UnmergedAt(init, merged, i);
      }
      assert p[..i] + p[i + 1..] == q;
      UnmergedIgnores(init, merged, x);
    } else {
      assert i < |q|;
      UnmergedRemove(init, merged, i);
      assert p[..i] + p[i + 1..] == (q[..i] + q[i + 1..]) + [refs[n - 1]];
    }
  }

  /** No two entries point at the same category slot. */
  predicate DistinctRefs(refs: seq<CategoryRef>) {
    forall j, k :: 0 <= j < k < |refs| ==> refs[j].category != refs[k].category
  }

  /** The category slots the entries point at. */
  function Slots(refs: seq<CategoryRef>): set<Category> {
    set r | r in refs :: r.category
  }

  /** The categories the lookups delivered. */
  function Sources(messages: seq<ChanResult>): set<Category> {
    set m | m in messages && m.Fetched? :: m.category
  }

  predicate AllFetched(messages: seq<ChanResult>) {
    forall k :: 0 <= k < |messages| ==> messages[k].Fetched?
  }

  predicate AllReady(ready: seq<bool>) {
    forall j :: 0 <= j < |ready| ==> ready[j]
  }

  /**
   * reflect.DeepEqual between a *Category and a *categoryChanResult: values of different
   * types are never deeply equal.
   */
  predicate DeepEqual(category: Category, result: ChanResult) {
    false
  }

  /** The line written to the error stream when a lookup failed. */
  function ErrorLine(categoryId: string, error: string): string {
    "error loading category " + categoryId + ": " + error + "\n"
  }

  /** The merged channels are distinct channels of fetched lookups. */
  predicate MergedOnce(messages: seq<ChanResult>, merged: seq<nat>) {
    && (forall j :: 0 <= j < |merged| ==> merged[j] < |messages| && messages[merged[j]].Fetched?)
    && (forall i, j :: 0 <= i < j < |merged| ==> merged[i] != merged[j])
  }

  /** Merging one more fetched channel, not merged before, keeps every channel merged at most once. */
  lemma MergedOnceAdd(messages: seq<ChanResult>, merged: seq<nat>, x: nat)
    requires MergedOnce(messages, merged) && x < |messages| && messages[x].Fetched? && x !in merged
    ensures MergedOnce(messages, merged + [x])
  {
  }

  /** The values of the slots, in entry order. */
  function Values(refs: seq<CategoryRef>): (v: seq<CategoryFields>)
    reads Slots(refs)
    ensures |v| == |refs| && forall k :: 0 <= k < |refs| ==> v[k] == refs[k].category.Value()
  {
    seq(|refs|, k requires 0 <= k < |refs| reads Slots(refs) => refs[k].category.Value())
  }

  /**
   * Each slot holds the delivered category if its channel was merged, and the value it had
   * at dispatch (`before`) otherwise.
   */
  ghost predicate Copied(refs: seq<CategoryRef>, messages: seq<ChanResult>, merged: seq<nat>, before: seq<CategoryFields>)
    requires |messages| == |refs| == |before|
    reads Slots(refs), Sources(messages)
  {
    forall k :: 0 <= k < |refs| ==>
      refs[k].category.Value() == (if k in merged && messages[k].Fetched? then messages[k].category.Value() else before[k])
  }

  /** Line `i` of the log reports the failed lookup `failures[i]` under the category's dispatch-time identifier. */
  predicate Logged(messages: seq<ChanResult>, before: seq<CategoryFields>, log: seq<string>, failures: seq<nat>)
    requires |messages| == |before|
  {
    && |failures| == |log|
    && forall i :: 0 <= i < |log| ==>
         failures[i] < |messages| && messages[failures[i]].Failed? &&
         log[i] == ErrorLine(before[failures[i]].id, messages[failures[i]].error)
  }

  /** Logging one more failed lookup under its dispatch-time identifier keeps the log faithful. */
  lemma LoggedAdd(messages: seq<ChanResult>, before: seq<CategoryFields>, log: seq<string>, failures: seq<nat>, x: nat)
    requires |messages| == |before| && Logged(messages, before, log, failures)
    requires x < |messages| && messages[x].Failed?
    ensures Logged(messages, before, log + [ErrorLine(before[x].id, messages[x].error)], failures + [x])
  {
  }

  /**
   * The lines logged for the answers on `channels`, in order: one for each failed lookup,
   * under the category's dispatch-time identifier, and none for the others.
   */
  function ErrorLines(messages: seq<ChanResult>, before: seq<CategoryFields>, channels: seq<nat>): seq<string>
    requires |messages| == |before|
    decreases |channels|
  {
    if |channels| == 0 then []
    else
      var c := channels[|channels| - 1];
      ErrorLines(messages, before, channels[..|channels| - 1])
        + (if c < |messages| && messages[c].Failed? then [ErrorLine(before[c].id, messages[c].error)] else [])
  }

  /** The logged lines report exactly the failures among the answers, one line each and in order. */
  lemma {:induction false} ErrorLinesLogged(messages: seq<ChanResult>, before: seq<CategoryFields>, channels: seq<nat>)
    requires |messages| == |before|
    ensures Logged(messages, before, ErrorLines(messages, before, channels), Failures(channels, messages))
    decreases |channels|
  {
    if |channels| > 0 {
      var init, c := channels[..|channels| - 1], channels[|channels| - 1];
      ErrorLinesLogged(messages, before, init);
      if c < |messages| && messages[c].Failed? {
        LoggedAdd(messages, before, ErrorLines(messages, before, init), Failures(init, messages), c);
      }
    }
  }

  /**
   * The channels whose receive found an answer waiting: receive `p` polls channel
   * `polled[p]` and finds its answer when `ready[p]` holds. In receive order.
   */
  function ReadyReceives(polled: seq<nat>, ready: seq<bool>): seq<nat>
    decreases |polled|
  {
    if |polled| == 0 then []
    else
      var p := |polled| - 1;
      ReadyReceives(polled[..p], ready) + (if p < |ready| && ready[p] then [polled[p]] else [])
  }

  /** A channel is among the answered receives exactly when some ready receive polled it. */
  lemma {:induction false} ReadyReceivesExactly(polled: seq<nat>, ready: seq<bool>, c: nat)
    ensures c in ReadyReceives(polled, ready) <==> exists p :: 0 <= p < |polled| && p < |ready| && ready[p] && polled[p] == c
    decreases |polled|
  {
    if |polled| > 0 {
      var q := |polled| - 1;
      ReadyReceivesExactly(polled[..q], ready, c);
      if exists p :: 0 <= p < |polled| && p < |ready| && ready[p] && polled[p] == c {
        var p :| 0 <= p < |polled| && p < |ready| && ready[p] && polled[p] == c;
        if p < q {
          assert polled[..q][p] == c;
        }
      }
      if exists p :: 0 <= p < q && p < |ready| && ready[p] && polled[..q][p] == c {
        var p :| 0 <= p < q && p < |ready| && ready[p] && polled[..q][p] == c;
        assert polled[p] == c;
      }
    }
  }

  /** The channels, among `channels`, whose lookup failed, in order. */
  function Failures(channels: seq<nat>, messages: seq<ChanResult>): seq<nat>
    decreases |channels|
  {
    if |channels| == 0 then []
    else
      var c := channels[|channels| - 1];
      Failures(channels[..|channels| - 1], messages) + (if c < |messages| && messages[c].Failed? then [c] else [])
  }

  /** A channel is among the failures exactly when it is among `channels` and its lookup failed. */
  lemma {:induction false} FailuresExactly(channels: seq<nat>, messages: seq<ChanResult>, c: nat)
    ensures c in Failures(channels, messages) <==> c in channels && c < |messages| && messages[c].Failed?
    decreases |channels|
  {
    if |channels| > 0 {
      var init := channels[..|channels| - 1];
      FailuresExactly(init, messages, c);
      assert channels == init + [channels[|channels| - 1]];
    }
  }

  /** A channel is among the fetches exactly when it is among `channels` and its lookup delivered. */
  lemma {:induction false} FetchesExactly(channels: seq<nat>, messages: seq<ChanResult>, c: nat)
    ensures c in Fetches(channels, messages) <==> c in channels && c < |messages| && messages[c].Fetched?
    decreases |channels|
  {
    if |channels| > 0 {
      var init := channels[..|channels| - 1];
      FetchesExactly(init, messages, c);
      assert channels == init + [channels[|channels| - 1]];
    }
  }

  /** The channels, among `channels`, whose lookup delivered a category, in order. */
  function Fetches(channels: seq<nat>, messages: seq<ChanResult>): seq<nat>
    decreases |channels|
  {
    if |channels| == 0 then []
    else
      var c := channels[|channels| - 1];
      Fetches(channels[..|channels| - 1], messages) + (if c < |messages| && messages[c].Fetched? then [c] else [])
  }

  /** The channels of the entries, in order. */
  function Receivers(entries: seq<CategoryRef>): (r: seq<nat>)
    ensures |r| == |entries|
  {
    if |entries| == 0 then [] else Receivers(entries[..|entries| - 1]) + [entries[|entries| - 1].receiver]
  }

  /**
   * The channels, among the first `n` pending entries polled one by one from receive
   * `polls0` on, whose receive found an answer.
   */
  function Answered(pending: seq<CategoryRef>, ready: seq<bool>, polls0: nat, n: nat): seq<nat>
    requires n <= |pending|
    decreases n
  {
    if n == 0 then []
    else
      var j := n - 1;
      Answered(pending, ready, polls0, j) + (if polls0 + j < |ready| && ready[polls0 + j] then [pending[j].receiver] else [])
  }

  /**
   * In a scan that starts at receive `polls0`, the receive on entry `j` of `pending`,
   * which is receive `polls0 + j`, finds a fetched category waiting.
   */
  predicate Hit(pending: seq<CategoryRef>, j: nat, messages: seq<ChanResult>, ready: seq<bool>, polls0: nat) {
    && j < |pending| && polls0 + j < |ready| && ready[polls0 + j]
    && pending[j].receiver < |messages| && messages[pending[j].receiver].Fetched?
  }

  /**
   * Where a scan that starts at receive `polls0` stops, searching from entry `j`: at the
   * first entry whose receive finds a fetched category, or after the last entry, or when
   * the receives run out.
   */
  function ScanStop(pending: seq<CategoryRef>, messages: seq<ChanResult>, ready: seq<bool>, polls0: nat, j: nat): (i: nat)
    requires j <= |pending|
    ensures j <= i <= |pending| && (polls0 + j <= |ready| ==> polls0 + i <= |ready|)
    ensures i == |pending| || polls0 + i >= |ready| || Hit(pending, i, messages, ready, polls0)
    decreases |pending| - j
  {
    if j == |pending| || polls0 + j >= |ready| || Hit(pending, j, messages, ready, polls0) then j
    else ScanStop(pending, messages, ready, polls0, j + 1)
  }

  /** The number of receives a scan makes: one per entry it passes, and one more when it delivers. */
  function ScanCount(pending: seq<CategoryRef>, messages: seq<ChanResult>, ready: seq<bool>, polls0: nat): (n: nat)
    ensures n <= |pending| && (polls0 <= |ready| ==> polls0 + n <= |ready|)
    ensures |pending| > 0 && polls0 < |ready| ==> n > 0
  {
    var i := ScanStop(pending, messages, ready, polls0, 0);
    if Hit(pending, i, messages, ready, polls0) then i + 1 else i
  }

  /** The pending list after a scan: without the entry that delivered, if one did. */
  function AfterScan(pending: seq<CategoryRef>, messages: seq<ChanResult>, ready: seq<bool>, polls0: nat): seq<CategoryRef> {
    var i := ScanStop(pending, messages, ready, polls0, 0);
    if Hit(pending, i, messages, ready, polls0) then Removed(pending, i) else pending
  }

  /**
   * The reference collector: the channels it polls, receive by receive, from receive
   * `polls` on. While entries are pending and receives remain, a scan polls the pending
   * entries from the first one on and stops as ScanStop says; then the next scan starts
   * over on what is still pending.
   */
  function CollectorTrace(pending: seq<CategoryRef>, messages: seq<ChanResult>, ready: seq<bool>, polls: nat): seq<nat>
    decreases |ready| - polls
  {
    if |pending| == 0 || polls >= |ready| then []
    else
      var n := ScanCount(pending, messages, ready, polls);
      Receivers(pending[..n]) + CollectorTrace(AfterScan(pending, messages, ready, polls), messages, ready, polls + n)
  }

  /** Entry by entry, the channels the entries answer on. */
  lemma {:induction false} ReceiversAt(entries: seq<CategoryRef>)
    ensures forall k :: 0 <= k < |entries| ==> Receivers(entries)[k] == entries[k].receiver
    decreases |entries|
  {
    if |entries| > 0 {
      ReceiversAt(entries[..|entries| - 1]);
    }
  }

  /**
   * When every lookup has delivered a category and every receive finds its answer
   * ready, the collector takes the entries in order, one receive each: every scan
   * delivers on its first entry.
   */
  lemma CollectorAllReady(pending: seq<CategoryRef>, messages: seq<ChanResult>, ready: seq<bool>, polls: nat)
    requires AllReady(ready) && AllFetched(messages) && polls + |pending| <= |ready|
    requires forall k :: 0 <= k < |pending| ==> pending[k].receiver < |messages|
    ensures CollectorTrace(pending, messages, ready, polls) == Receivers(pending)
  {
    CollectorInOrder(pending, messages, ready, polls);
  }

  /** When every entry's receive, in order from receive `polls` on, finds a fetched category, the collector takes them in order. */
  lemma {:induction false} CollectorInOrder(pending: seq<CategoryRef>, messages: seq<ChanResult>, ready: seq<bool>, polls: nat)
    requires forall k :: 0 <= k < |pending| ==> Hit(pending, k, messages, ready, polls)
    ensures CollectorTrace(pending, messages, ready, polls) == Receivers(pending)
    decreases |pending|
  {
    if |pending| > 0 {
      HitsShift(pending, messages, ready, polls, pending[1..], polls + 1);
      CollectorInOrder(pending[1..], messages, ready, polls + 1);
      FirstDelivers(pending, messages, ready, polls);
    }
  }

  /** Entries that all hit from receive `polls` on still all hit, from the next receive on, once the first is gone. */
  lemma HitsShift(pending: seq<CategoryRef>, messages: seq<ChanResult>, ready: seq<bool>, polls: nat,
                  rest: seq<CategoryRef>, next: nat)
    requires |pending| > 0 && forall k :: 0 <= k < |pending| ==> Hit(pending, k, messages, ready, polls)
    requires rest == pending[1..] && next == polls + 1
    ensures forall k :: 0 <= k < |rest| ==> Hit(rest, k, messages, ready, next)
  {
    forall k | 0 <= k < |rest|
      ensures Hit(rest, k, messages, ready, next)
    {
      assert Hit(pending, k + 1, messages, ready, polls);
    }
  }

  /**
   * A scan whose first receive finds a fetched category makes that one receive; when the
   * collector then takes the rest in order, it takes all of the entries in order.
   */
  lemma FirstDelivers(pending: seq<CategoryRef>, messages: seq<ChanResult>, ready: seq<bool>, polls: nat)
    requires Hit(pending, 0, messages, ready, polls)
    requires CollectorTrace(pending[1..], messages, ready, polls + 1) == Receivers(pending[1..])
    ensures CollectorTrace(pending, messages, ready, polls) == Receivers(pending)
  {
    var rest := pending[1..];
    assert Removed(pending, 0) == rest;
    ScanMatches(pending, messages, ready, polls, 0, true, 1, rest);
    TraceStep(pending, messages, ready, polls, [], 1, rest, polls + 1, Receivers(pending[..1]));
    assert [] + CollectorTrace(pending, messages, ready, polls) == CollectorTrace(pending, messages, ready, polls);
    ReceiversSplit(pending, 1);
  }

  /** The channels of a list of entries are those of its first `n` entries followed by those of the rest. */
  lemma ReceiversSplit(entries: seq<CategoryRef>, n: nat)
    requires n <= |entries|
    ensures Receivers(entries[..n]) + Receivers(entries[n..]) == Receivers(entries)
  {
    ReceiversAt(entries[..n]);
    ReceiversAt(entries[n..]);
    ReceiversAt(entries);
  }

  /** A scan that passed entries `0..i` without a hit and stopped at `i` stopped where ScanStop says. */
  lemma {:induction false} ScanStopAt(pending: seq<CategoryRef>, messages: seq<ChanResult>, ready: seq<bool>, polls0: nat,
                                      i: nat, received: bool, j: nat)
    requires j <= i <= |pending| && polls0 + i <= |ready|
    requires forall k :: 0 <= k < i ==> !Hit(pending, k, messages, ready, polls0)
    requires received ==> Hit(pending, i, messages, ready, polls0)
    requires !received ==> i == |pending| || polls0 + i == |ready|
    ensures ScanStop(pending, messages, ready, polls0, j) == i && received == Hit(pending, i, messages, ready, polls0)
    decreases i - j
  {
    if j < i {
      assert !Hit(pending, j, messages, ready, polls0);
      ScanStopAt(pending, messages, ready, polls0, i, received, j + 1);
    }
  }

  /**
   * One scan that stopped at entry `i` where the reference scan stops, and delivered
   * exactly when that entry's receive finds a fetched category, is the first step of
   * the reference collector: its receives come first in the trace, and the rest of the
   * trace starts from the pending list it leaves.
   */
  lemma ScanStep(pending0: seq<CategoryRef>, messages: seq<ChanResult>, ready: seq<bool>, polls0: nat, polled0: seq<nat>,
                 i: nat, received: bool, pending: seq<CategoryRef>, polls: nat, polled: seq<nat>)
    requires |pending0| > 0 && polls0 < |ready|
    requires i <= |pending0| && polls == polls0 + i + (if received then 1 else 0) <= |ready|
    requires forall k :: 0 <= k < i ==> !Hit(pending0, k, messages, ready, polls0)
    requires received ==> i < |pending0| && Hit(pending0, i, messages, ready, polls0) && pending == Removed(pending0, i)
    requires !received ==> pending == pending0 && (i == |pending0| || polls == |ready|)
    requires polled == polled0 + Receivers(pending0[..polls - polls0])
    ensures polled + CollectorTrace(pending, messages, ready, polls) == polled0 + CollectorTrace(pending0, messages, ready, polls0)
  {
    ScanMatches(pending0, messages, ready, polls0, i, received, polls - polls0, pending);
    TraceStep(pending0, messages, ready, polls0, polled0, polls - polls0, pending, polls, polled);
  }

  /** The scan that stopped at `i` received `n` times and left what the reference scan leaves. */
  lemma ScanMatches(pending0: seq<CategoryRef>, messages: seq<ChanResult>, ready: seq<bool>, polls0: nat,
                    i: nat, received: bool, n: nat, pending: seq<CategoryRef>)
    requires i <= |pending0| && polls0 + i <= |ready|
    requires forall k :: 0 <= k < i ==> !Hit(pending0, k, messages, ready, polls0)
    requires received ==> i < |pending0| && Hit(pending0, i, messages, ready, polls0) && pending == Removed(pending0, i)
    requires !received ==> (i == |pending0| || polls0 + i == |ready|) && pending == pending0
    requires n == if received then i + 1 else i
    ensures ScanCount(pending0, messages, ready, polls0) == n && AfterScan(pending0, messages, ready, polls0) == pending
  {
    ScanStopAt(pending0, messages, ready, polls0, i, received, 0);
  }

  /** The reference collector's trace is its first scan's receives followed by the trace from what that scan leaves. */
  lemma TraceStep(pending0: seq<CategoryRef>, messages: seq<ChanResult>, ready: seq<bool>, polls0: nat, polled0: seq<nat>,
                  n: nat, pending: seq<CategoryRef>, polls: nat, polled: seq<nat>)
    requires |pending0| > 0 && polls0 < |ready|
    requires n == ScanCount(pending0, messages, ready, polls0) && pending == AfterScan(pending0, messages, ready, polls0)
    requires polls == polls0 + n && polled == polled0 + Receivers(pending0[..n])
    ensures polled + CollectorTrace(pending, messages, ready, polls) == polled0 + CollectorTrace(pending0, messages, ready, polls0)
  {
    CollectorUnfold(pending0, messages, ready, polls0, n, pending, polls);
    var rest := CollectorTrace(pending, messages, ready, polls);
    assert polled + rest == polled0 + (Receivers(pending0[..n]) + rest);
  }

  /** One step of the reference collector, with its receive count and remaining entries named. */
  lemma CollectorUnfold(pending0: seq<CategoryRef>, messages: seq<ChanResult>, ready: seq<bool>, polls0: nat,
                        n: nat, pending: seq<CategoryRef>, polls: nat)
    requires |pending0| > 0 && polls0 < |ready|
    requires n == ScanCount(pending0, messages, ready, polls0) && pending == AfterScan(pending0, messages, ready, polls0)
    requires polls == polls0 + n
    ensures CollectorTrace(pending0, messages, ready, polls0) == Receivers(pending0[..n]) + CollectorTrace(pending, messages, ready, polls)
  {
  }

  /** Receives split at any point: the later ones see the later readiness flags. */
  lemma {:induction false} ReadyReceivesAppend(a: seq<nat>, b: seq<nat>, ready: seq<bool>)
    requires |a| <= |ready|
    ensures ReadyReceives(a + b, ready) == ReadyReceives(a, ready) + ReadyReceives(b, ready[|a|..])
    decreases |b|
  {
    if |b| == 0 {
      assert a + b == a;
    } else {
      var n := |b| - 1;
      assert (a + b)[..|a| + n] == a + b[..n];
      assert (a + b)[|a| + n] == b[n];
      ReadyReceivesAppend(a, b[..n], ready);
      assert (|a| + n < |ready|) == (n < |ready[|a|..]|);
      if |a| + n < |ready| {
        assert ready[|a| + n] == ready[|a|..][n];
      }
    }
  }

  /** Fetches distribute over concatenation. */
  lemma {:induction false} FetchesAppend(x: seq<nat>, y: seq<nat>, messages: seq<ChanResult>)
    ensures Fetches(x + y, messages) == Fetches(x, messages) + Fetches(y, messages)
    decreases |y|
  {
    if |y| == 0 {
      assert x + y == x;
    } else {
      var n := |y| - 1;
      assert (x + y)[..|x| + n] == x + y[..n];
      assert (x + y)[|x| + n] == y[n];
      FetchesAppend(x, y[..n], messages);
    }
  }

  /** Logged lines distribute over concatenation. */
  lemma {:induction false} ErrorLinesAppend(x: seq<nat>, y: seq<nat>, messages: seq<ChanResult>, before: seq<CategoryFields>)
    requires |messages| == |before|
    ensures ErrorLines(messages, before, x + y) == ErrorLines(messages, before, x) + ErrorLines(messages, before, y)
    decreases |y|
  {
    if |y| == 0 {
      assert x + y == x;
    } else {
      var n := |y| - 1;
      assert (x + y)[..|x| + n] == x + y[..n];
      assert (x + y)[|x| + n] == y[n];
      ErrorLinesAppend(x, y[..n], messages, before);
    }
  }

  /** The entries polled by a scan, as a trace of receives: the scan's answers are the ready ones. */
  lemma {:induction false} AnsweredReceives(pending: seq<CategoryRef>, ready: seq<bool>, polls0: nat, n: nat)
    requires n <= |pending| && polls0 <= |ready|
    ensures Answered(pending, ready, polls0, n) == ReadyReceives(Receivers(pending[..n]), ready[polls0..])
    decreases n
  {
    if n > 0 {
      var polled := Receivers(pending[..n]);
      assert pending[..n][..n - 1] == pending[..n - 1];
      assert polled == Receivers(pending[..n - 1]) + [pending[n - 1].receiver];
      assert polled[..n - 1] == Receivers(pending[..n - 1]);
      AnsweredReceives(pending, ready, polls0, n - 1);
      if polls0 + n - 1 < |ready| {
        assert ready[polls0..][n - 1] == ready[polls0 + n - 1];
      }
    }
  }

  /**
   * Polling one more entry adds its channel to the failures or the fetches, and its line
   * to the log, according to its answer, when that answer is waiting.
   */
  lemma AnsweredNext(pending: seq<CategoryRef>, messages: seq<ChanResult>, before: seq<CategoryFields>, ready: seq<bool>,
                     polls0: nat, n: nat)
    requires n < |pending| && |messages| == |before|
    ensures Failures(Answered(pending, ready, polls0, n + 1), messages)
      == Failures(Answered(pending, ready, polls0, n), messages)
        + (if polls0 + n < |ready| && ready[polls0 + n] && pending[n].receiver < |messages| && messages[pending[n].receiver].Failed?
           then [pending[n].receiver] else [])
    ensures Fetches(Answered(pending, ready, polls0, n + 1), messages)
      == Fetches(Answered(pending, ready, polls0, n), messages)
        + (if Hit(pending, n, messages, ready, polls0) then [pending[n].receiver] else [])
    ensures ErrorLines(messages, before, Answered(pending, ready, polls0, n + 1))
      == ErrorLines(messages, before, Answered(pending, ready, polls0, n))
        + (if polls0 + n < |ready| && ready[polls0 + n] && pending[n].receiver < |messages| && messages[pending[n].receiver].Failed?
           then [ErrorLine(before[pending[n].receiver].id, messages[pending[n].receiver].error)] else [])
  {
    var prior := Answered(pending, ready, polls0, n);
    if polls0 + n < |ready| && ready[polls0 + n] {
      assert Answered(pending, ready, polls0, n + 1) == prior + [pending[n].receiver];
      TraceSnoc(prior, pending[n].receiver, messages, before);
    } else {
      assert Answered(pending, ready, polls0, n + 1) == prior;
    }
  }

  /** When no receive among the first `n` entries found a fetched category, none was fetched. */
  lemma {:induction false} NoHitNoFetch(pending: seq<CategoryRef>, messages: seq<ChanResult>, ready: seq<bool>, polls0: nat, n: nat)
    requires n <= |pending|
    requires forall j :: 0 <= j < n ==> !Hit(pending, j, messages, ready, polls0)
    ensures Fetches(Answered(pending, ready, polls0, n), messages) == []
    decreases n
  {
    if n > 0 {
      NoHitNoFetch(pending, messages, ready, polls0, n - 1);
      var prior, r := Answered(pending, ready, polls0, n - 1), pending[n - 1].receiver;
      if polls0 + n - 1 < |ready| && ready[polls0 + n - 1] {
        assert Answered(pending, ready, polls0, n) == prior + [r];
        assert (prior + [r])[..|prior|] == prior;
        assert !Hit(pending, n - 1, messages, ready, polls0);
        assert Fetches(prior + [r], messages) == Fetches(prior, messages);
      } else {
        assert Answered(pending, ready, polls0, n) == prior;
      }
    }
  }

  /** A channel after others: it is a failure, with its line logged, or a fetch, according to its answer. */
  lemma TraceSnoc(x: seq<nat>, c: nat, messages: seq<ChanResult>, before: seq<CategoryFields>)
    requires |messages| == |before|
    ensures Failures(x + [c], messages) == Failures(x, messages) + (if c < |messages| && messages[c].Failed? then [c] else [])
    ensures Fetches(x + [c], messages) == Fetches(x, messages) + (if c < |messages| && messages[c].Fetched? then [c] else [])
    ensures ErrorLines(messages, before, x + [c])
      == ErrorLines(messages, before, x)
        + (if c < |messages| && messages[c].Failed? then [ErrorLine(before[c].id, messages[c].error)] else [])
  {
    assert (x + [c])[..|x|] == x;
  }

  /**
   * A scan that polled entries `0..i` of `pending` from receive `polls0` on, and stopped at
   * entry `i` when it delivered, extends the trace of the receives before it: its lines
   * follow the earlier ones and its delivery, if any, follows the earlier fetches.
   */
  lemma ScanTrace(pending: seq<CategoryRef>, messages: seq<ChanResult>, before: seq<CategoryFields>, ready: seq<bool>,
                  polls0: nat, i: nat, received: bool, polled: seq<nat>, n: nat)
    requires |messages| == |before| && |polled| == polls0 <= |ready| && i <= |pending|
    requires received ==> i < |pending| && Hit(pending, i, messages, ready, polls0)
    requires Fetches(Answered(pending, ready, polls0, i), messages) == []
    requires n == if received then i + 1 else i
    ensures ErrorLines(messages, before, ReadyReceives(polled + Receivers(pending[..n]), ready))
      == ErrorLines(messages, before, ReadyReceives(polled, ready)) + ErrorLines(messages, before, Answered(pending, ready, polls0, i))
    ensures Fetches(ReadyReceives(polled + Receivers(pending[..n]), ready), messages)
      == Fetches(ReadyReceives(polled, ready), messages) + (if received then [pending[i].receiver] else [])
  {
    TraceExtend(pending, messages, before, ready, polls0, n, polled);
    if received {
      ScanDelivered(pending, messages, before, ready, polls0, i);
      assert Fetches(Answered(pending, ready, polls0, n), messages) == [pending[i].receiver];
    }
  }

  /** The receives of a scan extend the trace: their lines and fetches follow the earlier ones. */
  lemma TraceExtend(pending: seq<CategoryRef>, messages: seq<ChanResult>, before: seq<CategoryFields>, ready: seq<bool>,
                    polls0: nat, n: nat, polled: seq<nat>)
    requires |messages| == |before| && |polled| == polls0 <= |ready| && n <= |pending|
    ensures ErrorLines(messages, before, ReadyReceives(polled + Receivers(pending[..n]), ready))
      == ErrorLines(messages, before, ReadyReceives(polled, ready)) + ErrorLines(messages, before, Answered(pending, ready, polls0, n))
    ensures Fetches(ReadyReceives(polled + Receivers(pending[..n]), ready), messages)
      == Fetches(ReadyReceives(polled, ready), messages) + Fetches(Answered(pending, ready, polls0, n), messages)
  {
    PolledAppend(pending, ready, polls0, n, polled);
    FetchesAppend(ReadyReceives(polled, ready), Answered(pending, ready, polls0, n), messages);
    ErrorLinesAppend(ReadyReceives(polled, ready), Answered(pending, ready, polls0, n), messages, before);
  }

  /** The delivering receive that ends a scan adds its fetch and no line. */
  lemma ScanDelivered(pending: seq<CategoryRef>, messages: seq<ChanResult>, before: seq<CategoryFields>, ready: seq<bool>,
                      polls0: nat, i: nat)
    requires |messages| == |before| && i < |pending| && Hit(pending, i, messages, ready, polls0)
    ensures ErrorLines(messages, before, Answered(pending, ready, polls0, i + 1))
      == ErrorLines(messages, before, Answered(pending, ready, polls0, i))
    ensures Fetches(Answered(pending, ready, polls0, i + 1), messages)
      == Fetches(Answered(pending, ready, polls0, i), messages) + [pending[i].receiver]
  {
    AnsweredNext(pending, messages, before, ready, polls0, i);
  }

  /** The receives of a scan follow those before it in the trace. */
  lemma PolledAppend(pending: seq<CategoryRef>, ready: seq<bool>, polls0: nat, n: nat, polled: seq<nat>)
    requires |polled| == polls0 <= |ready| && n <= |pending|
    ensures ReadyReceives(polled + Receivers(pending[..n]), ready) == ReadyReceives(polled, ready) + Answered(pending, ready, polls0, n)
  {
    AnsweredReceives(pending, ready, polls0, n);
    ReadyReceivesAppend(polled, Receivers(pending[..n]), ready);
  }

  /**
   * The collector loop: while entries are pending, scan them. `messages[k]` is what the
   * lookup of entry `k` delivers, and `ready[j]` says whether the channel polled by the
   * `j`-th non-blocking receive has delivered by then. The loop ends when nothing is
   * pending, or when the polls run out.
   */
  method Collect(refs: seq<CategoryRef>, messages: seq<ChanResult>, ready: seq<bool>, ghost before: seq<CategoryFields>)
    returns (pending: seq<CategoryRef>, log: seq<string>, polls: nat, ghost polled: seq<nat>, ghost merged: seq<nat>)
    requires Numbered(refs) && DistinctRefs(refs) && |messages| == |refs|
    requires Slots(refs) !! Sources(messages)
    requires before == Values(refs)
    modifies Slots(refs)
    ensures polls <= |ready| && (pending != [] ==> polls == |ready|)
    ensures |polled| == polls && polled == CollectorTrace(refs, messages, ready, 0)
    ensures log == ErrorLines(messages, before, ReadyReceives(polled, ready))
    ensures merged == Fetches(ReadyReceives(polled, ready), messages)
    ensures pending == Unmerged(refs, merged) && |pending| == |refs| - |merged|
    ensures MergedOnce(messages, merged)
    ensures Copied(refs, messages, merged, before)
    ensures AllReady(ready) && AllFetched(messages) ==> polls == |merged|
    ensures pending == [] <==> forall k :: 0 <= k < |refs| ==> k in merged
  {
    pending, log, polls, polled, merged := refs, [], 0, [], [];
    UnmergedNone(refs);
    assert polled + CollectorTrace(pending, messages, ready, polls) == CollectorTrace(refs, messages, ready, 0);
    while |pending| > 0 && polls < |ready|
      invariant polls <= |ready|
      invariant |polled| == polls
      invariant polled + CollectorTrace(pending, messages, ready, polls) == CollectorTrace(refs, messages, ready, 0)
      invariant log == ErrorLines(messages, before, ReadyReceives(polled, ready))
      invariant merged == Fetches(ReadyReceives(polled, ready), messages)
      invariant pending == Unmerged(refs, merged) && |pending| == |refs| - |merged|
      invariant MergedOnce(messages, merged)
      invariant Copied(refs, messages, merged, before)
      invariant AllReady(ready) && AllFetched(messages) ==> polls == |merged|
      decreases |ready| - polls
    {
      ghost var pending0, polls0, polled0 := pending, polls, polled;
      var i, received;
      pending, i, received, log, polls, polled, merged := Round(refs, messages, ready, pending, log, polls, polled, merged, before);
      ScanStep(pending0, messages, ready, polls0, polled0, i, received, pending, polls, polled);
    }
    assert polled + CollectorTrace(pending, messages, ready, polls) == polled + [];
    UnmergedEmpty(refs, merged);
  }

  /**
   * One pass of the collector loop: a scan, whose receives extend the trace of the
   * earlier ones.
   */
  method Round(refs: seq<CategoryRef>, messages: seq<ChanResult>, ready: seq<bool>, pending0: seq<CategoryRef>,
               log0: seq<string>, polls0: nat, ghost polled0: seq<nat>, ghost merged0: seq<nat>, ghost before: seq<CategoryFields>)
    returns (pending: seq<CategoryRef>, i: nat, received: bool, log: seq<string>, polls: nat, ghost polled: seq<nat>, ghost merged: seq<nat>)
    requires Numbered(refs) && DistinctRefs(refs) && |messages| == |refs| == |before|
    requires Slots(refs) !! Sources(messages)
    requires pending0 == Unmerged(refs, merged0) && |pending0| == |refs| - |merged0| && |pending0| > 0
    requires MergedOnce(messages, merged0) && Copied(refs, messages, merged0, before)
    requires polls0 < |ready| && |polled0| == polls0
    requires log0 == ErrorLines(messages, before, ReadyReceives(polled0, ready))
    requires merged0 == Fetches(ReadyReceives(polled0, ready), messages)
    modifies Slots(refs)
    ensures polls0 < polls <= |ready| && |polled| == polls
    ensures log == ErrorLines(messages, before, ReadyReceives(polled, ready))
    ensures merged == Fetches(ReadyReceives(polled, ready), messages)
    ensures pending == Unmerged(refs, merged) && |pending| == |refs| - |merged|
    ensures MergedOnce(messages, merged) && Copied(refs, messages, merged, before)
    ensures AllReady(ready) && AllFetched(messages) ==> polls == polls0 + 1 && |merged| == |merged0| + 1
    ensures i <= |pending0| && polls == polls0 + i + (if received then 1 else 0)
    ensures forall k :: 0 <= k < i ==> !Hit(pending0, k, messages, ready, polls0)
    ensures received ==> i < |pending0| && Hit(pending0, i, messages, ready, polls0) && pending == Removed(pending0, i)
    ensures !received ==> pending == pending0 && (i == |pending0| || polls == |ready|)
    ensures polled == polled0 + Receivers(pending0[..polls - polls0])
  {
    var lines;
    pending, i, lines, polls, received, merged := Scan(refs, messages, ready, pending0, polls0, merged0, before);
    ghost var n := if received then i + 1 else i;
    assert polls == polls0 + n && n <= |pending0|;
    polled := polled0 + Receivers(pending0[..n]);
    log := log0 + lines;
    ScanTrace(pending0, messages, before, ready, polls0, i, received, polled0, n);
  }

  /**
   * One scan of the pending entries, one non-blocking receive per entry, in order. An
   * error is logged and its entry stays pending; a fetched category is copied into its
   * slot, that entry alone is removed and the scan stops, so that the next one starts
   * again from the first entry. `polled` lists the channels the scan received on.
   */
  method Scan(refs: seq<CategoryRef>, messages: seq<ChanResult>, ready: seq<bool>, pending0: seq<CategoryRef>, polls0: nat,
              ghost merged0: seq<nat>, ghost before: seq<CategoryFields>)
    returns (pending: seq<CategoryRef>, i: nat, lines: seq<string>, polls: nat, received: bool, ghost merged: seq<nat>)
    requires Numbered(refs) && DistinctRefs(refs) && |messages| == |refs| == |before|
    requires Slots(refs) !! Sources(messages)
    requires pending0 == Unmerged(refs, merged0) && |pending0| == |refs| - |merged0| && |pending0| > 0
    requires MergedOnce(messages, merged0) && Copied(refs, messages, merged0, before)
    requires polls0 < |ready|
    modifies Slots(refs)
    ensures i <= |pending0| && polls == polls0 + i + (if received then 1 else 0) <= |ready|
    ensures forall j :: 0 <= j < i ==> !Hit(pending0, j, messages, ready, polls0)
    ensures received ==> i < |pending0| && Hit(pending0, i, messages, ready, polls0)
    ensures received ==> merged == merged0 + [pending0[i].receiver] && pending == Removed(pending0, i)
    ensures !received ==> merged == merged0 && pending == pending0 && (i == |pending0| || polls == |ready|)
    ensures lines == ErrorLines(messages, before, Answered(pending0, ready, polls0, i))
    ensures Fetches(Answered(pending0, ready, polls0, i), messages) == []
    ensures pending == Unmerged(refs, merged) && |pending| == |refs| - |merged|
    ensures MergedOnce(messages, merged) && Copied(refs, messages, merged, before)
    ensures AllReady(ready) && AllFetched(messages) ==> received && polls == polls0 + 1
  {
    pending, merged := pending0, merged0;
    PendingIdentified(refs, messages, merged0, before);
    i, lines, polls, received := Poll(messages, ready, pending0, polls0, before);
    if received {
      assert refs[pending[i].receiver] in refs;
      pending, merged := Receive(refs, messages, pending, i, merged, before);
    }
  }

  /** `s` without its element at index `i`. */
  function Removed<T>(s: seq<T>, i: nat): (r: seq<T>)
    requires i < |s|
    ensures |r| == |s| - 1
  {
    s[..i] + s[i + 1..]
  }

  /** Every pending entry names a channel, and its category still has its dispatch-time identifier. */
  lemma PendingIdentified(refs: seq<CategoryRef>, messages: seq<ChanResult>, merged: seq<nat>, before: seq<CategoryFields>)
    requires Numbered(refs) && |messages| == |refs| == |before|
    requires Copied(refs, messages, merged, before)
    ensures forall j :: 0 <= j < |Unmerged(refs, merged)| ==>
      && Unmerged(refs, merged)[j].receiver < |messages|
      && Unmerged(refs, merged)[j].category.id == before[Unmerged(refs, merged)[j].receiver].id
  {
    forall j | 0 <= j < |Unmerged(refs, merged)|
      ensures Unmerged(refs, merged)[j].receiver < |messages|
      ensures Unmerged(refs, merged)[j].category.id == before[Unmerged(refs, merged)[j].receiver].id
    {
      UnmergedAt(refs, merged, j);
    }
  }

  /**
   * The receives of one scan, one per pending entry and in order, up to the first that
   * delivers a fetched category: errors are logged under the category's identifier and
   * passed over. Returns the index of the entry that delivered, when one did.
   */
  method Poll(messages: seq<ChanResult>, ready: seq<bool>, pending0: seq<CategoryRef>, polls0: nat, ghost before: seq<CategoryFields>)
    returns (i: nat, lines: seq<string>, polls: nat, received: bool)
    requires |messages| == |before| && |pending0| > 0 && polls0 < |ready|
    requires forall j :: 0 <= j < |pending0| ==>
      pending0[j].receiver < |messages| && pending0[j].category.id == before[pending0[j].receiver].id
    ensures i <= |pending0| && polls == polls0 + i + (if received then 1 else 0) <= |ready|
    ensures forall j :: 0 <= j < i ==> !Hit(pending0, j, messages, ready, polls0)
    ensures received ==> i < |pending0| && Hit(pending0, i, messages, ready, polls0)
    ensures !received ==> i == |pending0| || polls == |ready|
    ensures lines == ErrorLines(messages, before, Answered(pending0, ready, polls0, i))
    ensures Fetches(Answered(pending0, ready, polls0, i), messages) == []
    ensures AllReady(ready) && AllFetched(messages) ==> received && i == 0 && polls == polls0 + 1
  {
    lines, polls, received := [], polls0, false;
    i := 0;
    while i < |pending0| && polls < |ready| && !received
      invariant 0 <= i <= |pending0| && polls == polls0 + i + (if received then 1 else 0) <= |ready|
      invariant forall j :: 0 <= j < i ==> !Hit(pending0, j, messages, ready, polls0)
      invariant received ==> i < |pending0| && Hit(pending0, i, messages, ready, polls0)
      invariant lines == ErrorLines(messages, before, Answered(pending0, ready, polls0, i))
      decreases |ready| - polls, !received
    {
      i, lines, polls, received := PollNext(messages, ready, pending0, polls0, i, lines, before);
    }
    ScanEnds(pending0, messages, ready, polls0, i, polls, received);
  }

  /** One step of a scan: the receive on entry `i0`, its line logged, and the scan moved past it unless it delivered. */
  method PollNext(messages: seq<ChanResult>, ready: seq<bool>, pending0: seq<CategoryRef>, polls0: nat, i0: nat,
                  lines0: seq<string>, ghost before: seq<CategoryFields>)
    returns (i: nat, lines: seq<string>, polls: nat, received: bool)
    requires |messages| == |before| && i0 < |pending0| && polls0 + i0 < |ready|
    requires pending0[i0].receiver < |messages| && pending0[i0].category.id == before[pending0[i0].receiver].id
    requires lines0 == ErrorLines(messages, before, Answered(pending0, ready, polls0, i0))
    ensures received == Hit(pending0, i0, messages, ready, polls0)
    ensures i == (if received then i0 else i0 + 1) && polls == polls0 + i0 + 1
    ensures lines == ErrorLines(messages, before, Answered(pending0, ready, polls0, i))
  {
    var line;
    received, line := PollEntry(messages, ready, pending0, polls0, i0, before);
    lines, polls := lines0 + line, polls0 + i0 + 1;
    i := if received then i0 else i0 + 1;
  }

  /**
   * Where a scan ends: it has fetched nothing before its last entry, and when every
   * answer is ready and fetched it ends on its first entry, having delivered.
   */
  lemma ScanEnds(pending0: seq<CategoryRef>, messages: seq<ChanResult>, ready: seq<bool>, polls0: nat,
                 i: nat, polls: nat, received: bool)
    requires |pending0| > 0 && pending0[0].receiver < |messages|
    requires i <= |pending0| && polls == polls0 + i + (if received then 1 else 0) && polls0 < |ready|
    requires forall j :: 0 <= j < i ==> !Hit(pending0, j, messages, ready, polls0)
    requires received || i == |pending0| || polls == |ready|
    ensures Fetches(Answered(pending0, ready, polls0, i), messages) == []
    ensures AllReady(ready) && AllFetched(messages) ==> received && i == 0 && polls == polls0 + 1
  {
    NoHitNoFetch(pending0, messages, ready, polls0, i);
    if AllReady(ready) && AllFetched(messages) {
      assert Hit(pending0, 0, messages, ready, polls0);
    }
  }

  /**
   * The non-blocking receive on entry `i` of a scan that started at receive `polls0`:
   * an error is logged under the category's identifier, and the scan goes on after an
   * error or an empty channel; a fetched category ends it.
   */
  method PollEntry(messages: seq<ChanResult>, ready: seq<bool>, pending0: seq<CategoryRef>, polls0: nat, i: nat,
                   ghost before: seq<CategoryFields>)
    returns (received: bool, line: seq<string>)
    requires |messages| == |before| && i < |pending0| && polls0 + i < |ready|
    requires pending0[i].receiver < |messages| && pending0[i].category.id == before[pending0[i].receiver].id
    ensures received == Hit(pending0, i, messages, ready, polls0)
    ensures line == if ready[polls0 + i] && messages[pending0[i].receiver].Failed?
      then [ErrorLine(before[pending0[i].receiver].id, messages[pending0[i].receiver].error)] else []
    ensures !received ==>
      ErrorLines(messages, before, Answered(pending0, ready, polls0, i + 1))
        == ErrorLines(messages, before, Answered(pending0, ready, polls0, i)) + line
  {
    AnsweredNext(pending0, messages, before, ready, polls0, i);
    var ref := pending0[i];
    received, line := false, [];
    if ready[polls0 + i] {
      var cat := messages[ref.receiver];
      if cat.Failed? {
        line := [ErrorLine(ref.category.id, cat.error)];
        return;
      }
      received := true;
    }
  }

  /**
   * A successful receive on entry `i` of the pending list: the delivered category is
   * merged into the entry's slot and the entry is spliced out of the list.
   */
  method Receive(refs: seq<CategoryRef>, messages: seq<ChanResult>, pending0: seq<CategoryRef>, i: nat,
                 ghost merged0: seq<nat>, ghost before: seq<CategoryFields>)
    returns (pending: seq<CategoryRef>, ghost merged: seq<nat>)
    requires Numbered(refs) && DistinctRefs(refs) && |messages| == |refs| == |before|
    requires Slots(refs) !! Sources(messages)
    requires pending0 == Unmerged(refs, merged0) && i < |pending0|
    requires pending0[i].receiver < |refs| && messages[pending0[i].receiver].Fetched?
    requires MergedOnce(messages, merged0) && Copied(refs, messages, merged0, before)
    modifies refs[pending0[i].receiver].category
    ensures merged == merged0 + [pending0[i].receiver]
    ensures pending == Removed(pending0, i) && pending == Unmerged(refs, merged)
    ensures MergedOnce(messages, merged) && Copied(refs, messages, merged, before)
  {
    var x := pending0[i].receiver;
    UnmergedAt(refs, merged0, i);
    Merge(refs, messages, x, merged0, before);
    UnmergedRemove(refs, merged0, i);
    MergedOnceAdd(messages, merged0, x);
    pending := Removed(pending0, i);
    merged := merged0 + [x];
  }

  /**
   * The merge of a successful receive on channel `x`: unless the DeepEqual guard holds,
   * which it never does, the delivered category is copied into the entry's slot.
   */
  method Merge(refs: seq<CategoryRef>, messages: seq<ChanResult>, x: nat, ghost merged0: seq<nat>, ghost before: seq<CategoryFields>)
    requires DistinctRefs(refs) && |messages| == |refs| == |before| && Slots(refs) !! Sources(messages)
    requires x < |refs| && messages[x].Fetched? && Copied(refs, messages, merged0, before)
    modifies refs[x].category
    ensures Copied(refs, messages, merged0 + [x], before)
  {
    var slot := refs[x].category;
    var cat := messages[x];
    if !DeepEqual(slot, cat) {
      CopyCategories(slot, cat.category);
    }
    forall k | 0 <= k < |refs|
      ensures refs[k].category.Value() ==
        (if k in merged0 + [x] && messages[k].Fetched? then messages[k].category.Value() else before[k])
    {
      if messages[k].Fetched? {
        assert refs[x] in refs && messages[k] in messages;
        var m := messages[k].category;
        assert m in Sources(messages) && m != slot;
        assert m.Value() == old(m.Value());
      }
      if k != x {
        var c := refs[k].category;
        assert c != slot;
        assert c.Value() == old(c.Value());
        assert (k in merged0 + [x]) == (k in merged0);
      }
    }
  }

  /** The category slots of a decoded listing; none when the listing failed. */
  function ListingSlots(listing: Result<seq<CategoryGroup>>): set<Category> {
    if listing.Success? then set c | c in Flatten(listing.value) else {}
  }

  /** What the lookups deliver: the answer to each request, in dispatch order. */
  function Answers(requests: seq<string>, remote: string -> ChanResult): (messages: seq<ChanResult>)
    ensures |messages| == |requests|
    ensures forall k :: 0 <= k < |requests| ==> messages[k] == remote(requests[k])
  {
    seq(|requests|, k requires 0 <= k < |requests| => remote(requests[k]))
  }

  /** The entries Dispatch builds meet what Collect needs of them. */
  lemma DispatchedRefs(refs: seq<CategoryRef>, slots: seq<Category>, messages: seq<ChanResult>)
    requires |refs| == |slots| == |messages| && DistinctSlots(slots)
    requires forall k :: 0 <= k < |refs| ==> refs[k] == CategoryRef(slots[k], k)
    requires forall k :: 0 <= k < |messages| && messages[k].Fetched? ==> messages[k].category !in slots
    ensures Numbered(refs) && DistinctRefs(refs)
    ensures Slots(refs) == set c | c in slots
    ensures Slots(refs) !! Sources(messages)
  {
    forall r | r in refs
      ensures r.category in slots
    {
      var k :| 0 <= k < |refs| && refs[k] == r;
    }
    forall c | c in slots
      ensures c in Slots(refs)
    {
      var k :| 0 <= k < |slots| && slots[k] == c;
      assert refs[k] in refs;
    }
    forall m | m in messages && m.Fetched?
      ensures m.category !in slots
    {
      var k :| 0 <= k < |messages| && messages[k] == m;
    }
  }

  /**
   * GetCategories. `listing` is the decoded answer to the listing request; `remote(p)` is
   * what the lookup of path `p` delivers, and `ready` drives the non-blocking receives.
   * A failed listing is returned as it is; for the current month the groups are
   * returned as decoded with no lookup; otherwise every category is looked up for the
   * month and the fetched categories are merged into the same groups.
   */
  method GetCategories(budgetId: string, month: string, listing: Result<seq<CategoryGroup>>,
                       remote: string -> ChanResult, ready: seq<bool>)
    returns (result: Result<seq<CategoryGroup>>, requests: seq<string>, log: seq<string>,
             ghost polled: seq<nat>, ghost merged: seq<nat>, ghost polls: nat, ghost before: seq<CategoryFields>)
    requires listing.Success? ==> DistinctSlots(Flatten(listing.value))
    requires listing.Success? ==> forall p :: remote(p).Fetched? ==> remote(p).category !in Flatten(listing.value)
    modifies ListingSlots(listing)
    ensures result == listing
    ensures |requests| >= 1 && requests[0] == CategoriesPath(budgetId)
    ensures listing.Failure? || month == CurrentMonth ==> requests == [CategoriesPath(budgetId)] && log == [] && merged == []
    ensures listing.Success? ==>
      && |before| == |Flatten(listing.value)|
      && forall g :: 0 <= g < |listing.value| ==> Offset(listing.value, g) + |listing.value[g].categories| <= |before|
    ensures listing.Success? ==>
      forall g, j :: 0 <= g < |listing.value| && 0 <= j < |listing.value[g].categories| ==>
        before[Offset(listing.value, g) + j] == old(listing.value[g].categories[j].Value())
    ensures listing.Success? && month == CurrentMonth ==>
      forall k :: 0 <= k < |before| ==> Flatten(listing.value)[k].Value() == before[k]
    ensures listing.Success? && month != CurrentMonth ==>
      && MonthLookedUp(budgetId, month, listing.value, remote, ready, before, requests[1..], log, polled, merged, polls)
      && forall k :: 0 <= k < |before| ==> requests[1 + k] == MonthCategoryPath(budgetId, before[k].id, month)
    ensures listing.Success? && month != CurrentMonth ==>
      forall k :: 0 <= k < |before| ==>
        Flatten(listing.value)[k].Value() == (if k in merged then remote(requests[1 + k]).category.Value() else before[k])
  {
    requests, log, polled, merged, polls, before := [CategoriesPath(budgetId)], [], [], [], 0, [];
    result := listing;
    if listing.Failure? {
      return;
    }
    var groups := listing.value;
    ghost var slots := Flatten(groups);
    before := seq(|slots|, k requires 0 <= k < |slots| reads slots => slots[k].Value());
    forall g | 0 <= g < |listing.value|
      ensures Offset(listing.value, g) + |listing.value[g].categories| <= |before|
    {
      OffsetWithin(groups, g);
    }
    forall g, j | 0 <= g < |listing.value| && 0 <= j < |listing.value[g].categories|
      ensures before[Offset(listing.value, g) + j] == old(listing.value[g].categories[j].Value())
    {
      FlattenAt(groups, g, j);
    }
    if month == CurrentMonth {
      return;
    }
    var lookups;
    lookups, log, polled, merged, polls := LookUpMonth(budgetId, month, groups, remote, ready, slots, before);
    requests := requests + lookups;
    assert requests[1..] == lookups;
  }

  /**
   * What the month lookups promise about the requests they made, the receives they
   * polled and the channels they merged. `polled[p]` is the channel of receive `p`: the
   * channels merged are exactly those whose receive found a fetched category, and the
   * lines logged are exactly the error lines of those whose receive found an error, both
   * in receive order. The receives are those of the reference collector run on the
   * dispatched entries. Every channel is merged at most once; the loop stops early only
   * when every channel has been merged; and when every lookup is fetched and every
   * receive finds its answer ready, all of them are merged.
   */
  predicate MonthLookedUp(budgetId: string, month: string, groups: seq<CategoryGroup>, remote: string -> ChanResult,
                          ready: seq<bool>, before: seq<CategoryFields>, lookups: seq<string>, log: seq<string>,
                          polled: seq<nat>, merged: seq<nat>, polls: nat)
  {
    && |lookups| == |Flatten(groups)| == |before|
    && |polled| == polls <= |ready|
    && polled == CollectorTrace(Dispatched(groups), Answers(lookups, remote), ready, 0)
    && merged == Fetches(ReadyReceives(polled, ready), Answers(lookups, remote))
    && log == ErrorLines(Answers(lookups, remote), before, ReadyReceives(polled, ready))
    && Logged(Answers(lookups, remote), before, log, Failures(ReadyReceives(polled, ready), Answers(lookups, remote)))
    && MergedOnce(Answers(lookups, remote), merged)
    && (polls < |ready| ==> forall k :: 0 <= k < |lookups| ==> k in merged)
    && (AllReady(ready) && AllFetched(Answers(lookups, remote)) && |ready| >= |lookups| ==>
          forall k :: 0 <= k < |lookups| ==> k in merged)
  }

  /**
   * The month branch of GetCategories: dispatch one lookup per category, then collect
   * the answers into the categories. `before` holds the categories' values at dispatch.
   */
  method LookUpMonth(budgetId: string, month: string, groups: seq<CategoryGroup>, remote: string -> ChanResult, ready: seq<bool>,
                     ghost slots: seq<Category>, ghost before: seq<CategoryFields>)
    returns (lookups: seq<string>, log: seq<string>, ghost polled: seq<nat>, ghost merged: seq<nat>, ghost polls: nat)
    requires slots == Flatten(groups) && DistinctSlots(slots)
    requires forall p :: remote(p).Fetched? ==> remote(p).category !in slots
    requires |before| == |slots| && forall k :: 0 <= k < |before| ==> before[k] == slots[k].Value()
    modifies set c | c in Flatten(groups)
    ensures MonthLookedUp(budgetId, month, groups, remote, ready, before, lookups, log, polled, merged, polls)
    ensures forall k :: 0 <= k < |lookups| ==> lookups[k] == MonthCategoryPath(budgetId, before[k].id, month)
    ensures forall k :: 0 <= k < |lookups| ==>
      Flatten(groups)[k].Value() == (if k in merged then remote(lookups[k]).category.Value() else before[k])
  {
    var refs;
    refs, lookups := Dispatch(budgetId, month, groups);
    assert refs == Dispatched(groups);
    var messages := Answers(lookups, remote);
    DispatchedRefs(refs, slots, messages);
    forall k | 0 <= k < |before|
      ensures before[k] == Values(refs)[k]
    {
      assert refs[k].category == slots[k];
      assert Values(refs)[k] == slots[k].Value();
      assert before[k] == slots[k].Value();
    }
    assert before == Values(refs);
    var pending;
    pending, log, polls, polled, merged := Collect(refs, messages, ready, before);
    ErrorLinesLogged(messages, before, ReadyReceives(polled, ready));
  }
}
