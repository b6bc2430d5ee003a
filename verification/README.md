# ynab-snapshot in Dafny

ynab-snapshot writes a CSV snapshot of the spending categories of every budget in a
YNAB ("You Need A Budget") account. It can take the snapshot for the current month or
for a month the user names. This project models the three pieces of that program that
are plain logic, and proves what they promise.

- **Currency formatting** (`client/types.go`). `CurrencyFormat.Format` renders an
  amount in milliunits. The last three decimal digits are the fraction, truncated to
  `DecimalDigits`. The rest is cut into groups of three, separated by `GroupSeparator`.
  The currency symbol goes before or after the amount. A negative amount is rendered
  by recursion, behind a `-`.
  - The model is an imperative method with the two loops of the original.
    - `SplitGroups` is the `for true` loop that peels groups off the integral part.
    - `WriteGroups` is the reverse loop that writes them out.
  - The method is proved equal to the specification function `Formatted`. The
    properties are proved about that function.
  - `copyCategories` is `CopyCategories`: fifteen in-place field assignments on the
    `Category` class, the identifier included.
- **The category listing** (`client/http_client.go`). `GetCategories` fetches the
  category groups of a budget.
  - For the month `"current"` it returns them as decoded.
  - For any other month it dispatches one lookup per category, in group-then-category
    order (`Dispatch`). It then scans the pending list (`Collect`, `Scan`, `Poll`).
  - A fetched category is copied into its slot in the listed groups (`Merge`). Only
    that entry is removed (`Receive`), and the scan starts over.
  - A failed lookup is logged. Its entry stays pending.
  - The goroutines and channels become two parameters:
    - `remote` maps a request path to the lookup's answer;
    - `ready` says, receive by receive, whether the answer had arrived.
  - The request path, URL and header strings are pure functions.
- **The snapshot program** (`main.go`).
  - The file name is built from the date and the month label. It is joined under the
    target directory the way Go's `path.Join` does (`Paths.Clean`, `Paths.JoinPath`).
  - The header row is written first.
  - Every budget's listing follows. Skipped groups and categories are passed over.
  - A category becomes a six-column record, with the amounts in base 10.

Integers are unbounded in Dafny. The `int64` amounts of the source are a newtype,
and the one place where their width matters is stated explicitly: negating the smallest
`int64` wraps, so `Format` never returns for it.

Two points where the code differs from what its names and comments suggest; the model does what the code does:

- `main.go` names the current-month sentinel `ynab.CURRENT_MONTH`. The client package
  defines it as `CurrentMonth = "current"`. The model uses the single value `"current"`
  (`HttpClient.CurrentMonth`).
- `DeepEqual(ref.Category, cat)` compares a `*Category` with a `*categoryChanResult`.
  Values of different types are never deeply equal, so the guard always holds and every
  fetched category is copied.

## Model

| member | source | states |
|---|---|---|
| Types.Category.constructor | client/types.go:35-52 | A category built from fifteen field values holds exactly those values. |
| Types.Category.AssignIdentity | client/types.go:67-69 | The first five fields (ID, group ID, name, hidden, original group ID) take the given values. |
| Types.Category.AssignBudget | client/types.go:67-69 | Fields six to ten (note, budgeted, activity, balance, goal type) take the given values. |
| Types.Category.AssignGoal | client/types.go:67-69 | Fields eleven to fifteen (the rest of the goal, deleted) take the given values. |
| Types.CopyCategories | client/types.go:63-70 | Afterwards every one of the fifteen fields of `dst`, ID and name included, equals the field of `src` before the call. `src` is unchanged. |
| Types.GroupsShape | client/types.go:101-109 | The groups of a non-empty digit string concatenate back to it. The first group has one to three digits, every other group exactly three. |
| Types.GroupsUnique | client/types.go:101-109 | Any cut of the string with that shape is the grouping itself, so the grouping is determined by the digits. |
| Types.SplitGroups | client/types.go:91-109 | The grouping loop collects the groups least significant first: its result, reversed, is the grouping. |
| Types.WriteGroups | client/types.go:111-118 | The writing loop emits the groups most significant first, with the separator between neighbours and after none of the last. |
| Types.GroupedDigits | client/types.go:101-118 | With a digit-free separator, the digits of the joined groups are exactly the grouped digit string. |
| Types.ThousandsSplit | client/types.go:86-88 | Cutting the decimal string three characters from its end leaves the decimal string of n / 1000 (empty below 1000) in front and the three digits of n % 1000 behind. |
| Types.Format | client/types.go:73-134 | Requires what keeps Format from panicking: DecimalDigits in 0..3, \|number\| at least 100, and number not the smallest int64. The method returns the specification `Formatted`. |
| Types.Body | client/types.go:86-121 | Definition of the amount's body for \|n\| ≥ 100: the decimal string cut three digits from its end, the front ("0" when empty) grouped in threes, the decimal separator, and the first DecimalDigits of the back. |
| Types.Placed | client/types.go:123-133 | Definition of the symbol placement: body, space and symbol; symbol and body; or "" when the symbol is hidden, since neither branch then assigns the result. |
| Types.Formatted | client/types.go:73-134 | Definition of what Format returns where it does not panic: "-" before the rendering of the negation for a negative amount, otherwise the body with the symbol placed. |
| Types.FormattedMeaning | client/types.go:76-133 | The rendering in arithmetic terms: a sign for negative amounts, then the symbol placed around the grouped digits of \|n\| / 1000, the decimal separator, and the first DecimalDigits of the three digits of \|n\| % 1000. |
| Types.SymbolFirstAmount | client/types.go:125-131 | With the symbol displayed first, the rendering is sign, symbol, grouped thousands, decimal separator and kept fraction digits, in that order. |
| Types.FractionTruncated | client/types.go:88-89 | The fraction is truncated, not rounded: scaled back up it never exceeds the millis and falls short of them by less than one step. |
| Types.BodyParts | client/types.go:86-121 | The body is the grouped integral digits ("0" below 1000), the decimal separator and the kept fraction digits, and integral plus fraction are the leading digits of the decimal string. |
| Types.BodyDigits | client/types.go:86-121 | With digit-free separators, the digits of the body are the decimal digits of the amount with the last 3 - DecimalDigits dropped, behind a "0" below 1000. |
| Types.HiddenSymbolDropsAmount | client/types.go:123-133 | With DisplaySymbol false, Format returns only the sign: "-" for a negative amount, "" otherwise. |
| Types.FormattedTotalAgrees | client/types.go:73-134 | Wherever Format returns and displays the symbol, the corrected rendering equals what Format returns. |
| Types.FormattedTotalHidden | client/types.go:123-133 | With the symbol hidden and wherever Format returns, the corrected rendering is the sign followed by the very body (`Body`) that Format computes and then drops. |
| Types.FormattedTotalSmall | client/types.go:86-88 | The corrected rendering is defined below 100 milliunits: 0 is "$0.00" and -50 is "-$0.05" in US dollars. |
| Types.GroupsThousands | client/types.go:101-109 | From 1000 on, the groups of n are the groups of n / 1000 followed by the three digits of n % 1000. |
| Types.UsdCents | client/types_test.go:26 | 100 milliunits in US dollars is "$0.10": an empty integral part becomes "0". |
| Types.UsdDollars | client/types_test.go:27 | 85200 milliunits in US dollars is "$85.20". |
| Types.UsdThousands | client/types_test.go:28 | 10250210 milliunits in US dollars is "$10,250.21": two groups, fraction truncated. |
| Types.UsdNegative | client/types_test.go:30 | -15000 milliunits in US dollars is "-$15.00": the sign goes ahead of the symbol. |
| Strconv.DecimalDigits | client/types.go:86 | The base-10 string of a natural number is all digits, and it starts with '0' exactly when the number is zero. |
| Strconv.DecimalLength | client/types.go:86-88 | The base-10 string has at least three digits exactly when the number is at least 100, which is when the cut three from the end is in range. |
| Strconv.FormatInt | client/types.go:86 | Definition of `strconv.FormatInt(n, 10)`: a "-" for negative numbers, then the base-10 digits of \|n\|. |
| Strconv.FormatIntRoundTrip | main.go:122 | Every integer written in base 10 parses back to itself. |
| HttpClient.CategoriesPath | client/http_client.go:72 | Definition of the listing request path: "/budgets/", the budget ID, "/categories". |
| HttpClient.MonthCategoryPath | client/http_client.go:139 | Definition of the lookup request path: "/budgets/", the budget ID, "/months/", the month, "-01/categories/", the category ID. |
| HttpClient.RequestUrl | client/http_client.go:148 | Definition of the request URL: the base URL followed by the path. |
| HttpClient.AuthorizationHeader | client/http_client.go:155 | Definition of the Authorization header value: "Bearer " followed by the API key. |
| HttpClient.DeepEqual | client/http_client.go:113 | The DeepEqual guard: a `*Category` and a `*categoryChanResult` are never deeply equal, so it is false. |
| HttpClient.ErrorLine | client/http_client.go:109 | Definition of the line written for a failed lookup: "error loading category ", the ID, ": ", the error and a newline. |
| HttpClient.MonthCategoryPathSegments | client/http_client.go:139 | For slash-free identifiers and month, the lookup path splits at '/' into "", "budgets", the budget ID, "months", the month followed by "-01", "categories" and the category ID. |
| HttpClient.RequestUrlParts | client/http_client.go:148 | The request URL is the base URL followed by the path, and both can be read back from it. |
| HttpClient.AuthorizationHeaderParts | client/http_client.go:155 | The Authorization header is "Bearer " followed by the API key. |
| HttpClient.FlattenAt | client/http_client.go:83-86 | Category j of group g sits at position Offset(g) + j of the group-then-category order. |
| HttpClient.FlattenMembers | client/http_client.go:83-86 | Every category in that order belongs to some group of the listing. |
| HttpClient.Dispatch | client/http_client.go:81-98 | One pending entry per category, in group-then-category order. Entry k points at the k-th category slot and answers on channel k, and request k is that category's month lookup path. |
| HttpClient.DispatchedRefs | client/http_client.go:83-97 | Distinct category slots give distinct, numbered entries whose slots are exactly the listed categories and share none with the delivered categories. |
| HttpClient.UnmergedNone | client/http_client.go:81-98 | Before any merge, every dispatched entry is pending. |
| HttpClient.UnmergedAt | client/http_client.go:102-103 | A pending entry is the dispatched entry of its own channel, and that channel has not been merged. |
| HttpClient.UnmergedKeeps | client/http_client.go:108-111 | An entry whose channel is not merged, for instance one whose lookup failed, stays pending. |
| HttpClient.UnmergedRemove | client/http_client.go:117-118 | Merging entry i removes exactly that entry. The others keep their relative order. |
| HttpClient.UnmergedEmpty | client/http_client.go:100 | The pending list is empty exactly when every channel has been merged. |
| HttpClient.UnmergedIgnores | client/http_client.go:117-118 | Merging a channel that no entry answers on changes nothing. |
| HttpClient.MergedOnceAdd | client/http_client.go:113-118 | Merging a fetched channel not merged before keeps every channel merged at most once. |
| HttpClient.LoggedAdd | client/http_client.go:108-110 | Logging a failed lookup under the category's identifier keeps the log line-for-line faithful to the failures. |
| HttpClient.ErrorLinesLogged | client/http_client.go:108-110 | The error lines of a sequence of answered receives are line for line the failures among them: one line per failure, in order, each naming the category's dispatch-time ID and the error. |
| HttpClient.ReadyReceivesExactly | client/http_client.go:106-107 | A channel's answer is taken exactly when some receive polled it while its answer was waiting. |
| HttpClient.FailuresExactly | client/http_client.go:108-111 | A channel counts as failed exactly when it was answered and its lookup returned an error. |
| HttpClient.FetchesExactly | client/http_client.go:113-118 | A channel counts as fetched exactly when it was answered and its lookup delivered a category. |
| HttpClient.ReadyReceivesAppend | client/http_client.go:100-126 | The answered receives of two runs of polls, one after the other, are those of the first followed by those of the second, which sees the later readiness flags. |
| HttpClient.FetchesAppend | client/http_client.go:113-118 | The fetches of two runs of receives are those of the first followed by those of the second. |
| HttpClient.ErrorLinesAppend | client/http_client.go:108-110 | The error lines of two runs of receives are those of the first followed by those of the second. |
| HttpClient.AnsweredReceives | client/http_client.go:102-107 | The answered receives of a scan over the first n pending entries are the ready receives among the channels of those entries, polled in order. |
| HttpClient.AnsweredNext | client/http_client.go:106-120 | Polling one more entry adds its channel to the failures, with its error line, or to the fetches, exactly according to its answer when that answer is waiting, and adds nothing when the channel is empty. |
| HttpClient.NoHitNoFetch | client/http_client.go:106-124 | When none of the first n receives of a scan found a fetched category, the scan fetched nothing. |
| HttpClient.TraceSnoc | client/http_client.go:106-118 | One more answered channel is a failure with its error line, or a fetch, according to its answer. |
| HttpClient.ScanTrace | client/http_client.go:101-125 | The receives of a scan extend the trace of the earlier ones: its error lines follow the earlier lines, and the entry it stopped at, if it delivered, follows the earlier fetches. |
| HttpClient.PollEntry | client/http_client.go:103-120 | One non-blocking receive: it ends the scan exactly when a fetched category is waiting, and writes exactly one error line, naming the category and its error, exactly when an error is waiting. |
| HttpClient.Merge | client/http_client.go:113-115 | The delivered category's fields are copied into the entry's slot, because the DeepEqual guard never holds. Every other slot keeps its value. |
| HttpClient.Receive | client/http_client.go:113-118 | A successful receive on entry i merges its channel and splices out exactly entry i. |
| HttpClient.Poll | client/http_client.go:102-125 | The receives of one scan, one per pending entry in order, starting at receive polls0. The scan stops at entry i, after exactly i + 1 receives, when entry i is the first whose receive finds a fetched category; none before it does. Otherwise it passes every entry, or stops when the receives run out. The lines it logs are exactly the error lines of the answered receives before i, in order, and nothing was fetched before i. When every answer is fetched and ready, the first entry delivers on the first receive. |
| HttpClient.PollNext | client/http_client.go:103-124 | One step of a scan: the receive on entry i, which delivers exactly when a fetched category is waiting. The scan moves past the entry unless it delivered, one receive is counted, and the lines logged so far are exactly the error lines of the answered receives up to the scan's position. |
| HttpClient.ScanEnds | client/http_client.go:102-125 | A scan fetched nothing before the entry it stopped at. When every answer is fetched and ready, it stops on its first entry after one receive, having delivered. |
| HttpClient.Scan | client/http_client.go:101-125 | One scan polls as Poll does. When entry i delivers, exactly that entry's channel is appended to the merged channels and exactly that entry is spliced out of the pending list; otherwise nothing is merged and the list is unchanged. The merged channels stay distinct and the slots faithful. |
| HttpClient.Round | client/http_client.go:101-125 | One pass of the collector loop makes at least one receive and stops at the first entry whose receive finds a fetched category, which alone it splices out; none before it does. The receives it adds to the trace are the channels of the entries it passed, in order. Afterwards the log is exactly the error lines, and the merged channels exactly the fetches, of all the answered receives so far, in receive order. |
| HttpClient.Collect | client/http_client.go:100-126 | The channels the collector polls, receive by receive, are exactly those of the reference collector `CollectorTrace` run on the dispatched entries. Over those receives, the log is exactly the error lines of the answered receives that found an error, and the merged channels are exactly those whose receive found a fetched category, both in receive order. Each channel is merged at most once. The pending entries are those not merged. Every slot holds the delivered category if merged and its dispatch-time value otherwise. It stops early only with the pending list empty, and it merges every channel when all answers are fetched and ready. |
| HttpClient.Dispatched | client/http_client.go:83-97 | Definition of the dispatched entries: entry k is the k-th category in group-then-category order, answering on channel k. |
| HttpClient.ScanStop | client/http_client.go:102-127 | Where a scan that starts at a given receive stops, searching from entry j: at the first entry whose receive finds a fetched category, after the last entry, or when the receives run out. The result is never before j, never past the list, and never past the receives. |
| HttpClient.ScanCount | client/http_client.go:102-127 | A scan makes one receive per entry it passes and one more when it delivers. A scan over a non-empty list with a receive left makes at least one receive, and never more than there are entries or receives. |
| HttpClient.CollectorTrace | client/http_client.go:100-128 | Definition of the reference collector: while entries are pending and receives remain, a scan polls the pending entries from the first one on, stops where `ScanStop` says, and the next scan starts over on what is still pending. |
| HttpClient.ScanStopAt | client/http_client.go:102-127 | A scan that passed entries 0..i-1 without a hit and stopped at i, delivering exactly when entry i hits, stopped where `ScanStop` says. |
| HttpClient.ScanMatches | client/http_client.go:102-127 | Such a scan made as many receives as `ScanCount` says and left the pending list `AfterScan` says. |
| HttpClient.ScanStep | client/http_client.go:100-128 | A collector pass that stopped where its first hit is makes the first step of the reference collector: its receives, followed by the reference trace from what it leaves, are the reference trace from where it started. |
| HttpClient.TraceStep | client/http_client.go:100-128 | The reference trace is the first scan's receives followed by the trace from what that scan leaves. |
| HttpClient.CollectorAllReady | client/http_client.go:100-128 | When every lookup has delivered a category and every receive finds its answer ready, the collector polls the entries in dispatch order, one receive each. |
| HttpClient.CollectorInOrder | client/http_client.go:100-128 | When every entry's receive, in order, finds a fetched category, every scan delivers on its first entry and the trace is the entries' channels in order. |
| HttpClient.FirstDelivers | client/http_client.go:113-126 | A scan whose first receive delivers makes that one receive and splices out the first entry; the collector then goes on with the rest. |
| HttpClient.ReceiversSplit | client/http_client.go:102 | The channels of a list of entries are those of its first n entries followed by those of the rest. |
| HttpClient.LookUpMonth | client/http_client.go:79-126 | The month branch: one lookup per category, with that category's path. Its receives poll exactly the channels the reference collector polls on the dispatched entries, in the same order. The log reports, line for line, the failed lookups among the answered receives, and the merged channels are exactly the fetched ones among them. Afterwards each category holds its delivered value if merged and its listed value otherwise. |
| HttpClient.GetCategories | client/http_client.go:65-130 | The same groups slice as listed is returned, and a failed listing is returned as the error. For "current" no lookup is made, nothing is logged and nothing changes. For another month, the month branch's promises hold: the receives are those of the reference collector on the dispatched entries, the log is exactly the error lines of the failed answered lookups, and each category ends up with its lookup's answer when merged and its listed value otherwise. |
| Paths.Clean | main.go:53 | Definition of `path.Clean`: drop empty and "." elements, let ".." remove the element before it (and vanish at the root), keep a leading slash, and give "." for an empty result. |
| Paths.JoinPath | main.go:53 | Definition of `path.Join` of a non-empty directory and a name: the cleaned directory, a slash and the name. |
| Paths.CleanFromCleaned | main.go:53 | Cleaning always produces cleaned elements: ".." only at the front, and none at the root. |
| Paths.CleanIdempotent | main.go:53 | Cleaning a cleaned path changes nothing. |
| Paths.JoinPathUnder | main.go:53 | Joining a non-empty directory and a plain name puts the name under the cleaned directory after one slash. A directory that cleans to "." adds nothing, and the root is not doubled. |
| Paths.RootedUnder | main.go:53 | Under the root, the name follows the cleaned elements after exactly one slash. |
| Paths.RelativeUnder | main.go:53 | Without a root, the name follows the cleaned elements after one slash, or stands alone when there are none. |
| Snapshot.Pad2 | main.go:47-49 | Definition of `%02d`: a number below 10 behind a "0", any other in base 10. |
| Snapshot.DateStamp | main.go:47-49 | Definition of the date stamp: year, month and day padded to two digits, joined by "-". |
| Snapshot.MonthLabel | main.go:46-50 | Definition of the month label: CURRENT for the current-month sentinel, the month itself otherwise. |
| Snapshot.SnapshotFileName | main.go:46-50 | Definition of the file name: date stamp, "_", month label, "_category_snapshot.csv". |
| Snapshot.SnapshotPath | main.go:52-54 | Definition of where the file is created: the name alone without a target, the name joined to the target otherwise. |
| Snapshot.Pad2Value | main.go:47-49 | A padded number is all digits, at least two of them, with no leading zero beyond the padding, and reads back as the number. |
| Snapshot.DateStampFields | main.go:47-49 | The date stamp splits at its dashes into the three padded numbers, which read back as year, month and day. |
| Snapshot.SnapshotFileNameFields | main.go:46-50 | For an underscore-free month, the file name splits at '_' into date stamp, month label, "category" and "snapshot.csv". The label is CURRENT exactly for the current-month sentinel and for a month given as CURRENT. |
| Snapshot.SnapshotFileNamePlain | main.go:46-50 | For a slash-free month the file name is a single plain path element. |
| Snapshot.SnapshotPathUnder | main.go:52-54 | Without a target the file keeps its bare name. With one, it lies directly under the cleaned target. |
| Snapshot.SkipGroup | main.go:94 | Definition of a skipped group: hidden, deleted, or one of the special group names. |
| Snapshot.SkipCategory | main.go:109 | Definition of a skipped category: hidden, deleted, or both unbudgeted and empty. |
| Snapshot.KeptFieldsMembers | main.go:107-111 | A category value is written exactly when some category of the group holds it and it is not hidden, not deleted, and not both unbudgeted and empty. |
| Snapshot.KeptFieldsAppend | main.go:107-111 | Filtering keeps slice order: the kept values of a concatenation are the kept values of each part, in order. |
| Snapshot.Record | main.go:121-123 | A record has exactly as many columns as the header. |
| Snapshot.RecordRoundTrip | main.go:121-124 | A record reads back, column by column, as category ID, budget ID, group ID, name, budgeted and balance. |
| Snapshot.PrintCategoryGroup | main.go:104-118 | The rows written for a group are the records of its non-skipped categories, in slice order. |
| Snapshot.CategoryRowsMembers | main.go:107-112 | A row is written for a group exactly when it is the record of one of its non-skipped categories. |
| Snapshot.PrintGroups | main.go:93-98 | The rows written for a listing are those of its non-skipped groups, in group order. |
| Snapshot.GroupsRowsMembers | main.go:93-98 | A row is written for a listing exactly when it is the record of a non-skipped category of a non-skipped group. |
| Snapshot.ListingError | main.go:91 | Definition of the message written for a failed listing: "Error parsing response: " followed by the error, with no newline. |
| Snapshot.SnapshotRowsMembers | main.go:85-100 | A data row is in the snapshot exactly when it belongs to the rows of some budget whose listing succeeded. |
| Snapshot.WriteBudget | main.go:89-98 | Writing one more successfully listed budget appends its groups' rows to those of the budgets before it. |
| Snapshot.WriteSnapshot | main.go:72-100 | The header comes first, then the rows of each budget in order; a failed listing adds no rows. The error messages are those of the failed listings, in budget order. |
| Snapshot.WrittenBalanceUnformattable | main.go:109-116 | A category with 5000 budgeted and balance 0 is written, yet Format would panic on its balance. The corrected rendering gives "$0.00". |

## Findings

| source | as written | input that shows it | evidently intended | confidence | as-written member | corrected member |
|---|---|---|---|---|---|---|
| client/types.go:86-88 | The decimal string is cut three characters from its end without a length check, so every amount from -99 to 99 milliunits makes `Format` panic. `printCategoryGroup` calls it on every written category's balance and budgeted amount. | A category with budgeted 5000 and balance 0 is written (main.go:109), and `Format(0)` slices out of range. | Amounts below 100 milliunits render with a zero integral part: 0 as "$0.00", -50 as "-$0.05". | not executed | Snapshot.WrittenBalanceUnformattable | Types.FormattedTotalSmall |
| client/types.go:123-133 | When `DisplaySymbol` is false, neither branch assigns `result`, so the whole body is dropped. | Any format with DisplaySymbol false: 15000 gives "" and -15000 gives "-". | The amount is shown without a symbol. | not executed | Types.HiddenSymbolDropsAmount | Types.FormattedTotalHidden |

`Types.FormattedTotal` is the corrected rendering. `Types.FormattedTotalAgrees` shows that it equals what `Format` returns wherever `Format` returns with the symbol displayed.

## Left out

- Goroutines, channels, the 50 ms rate-limit ticker and the `time.Sleep` polling are left out. The lookups' answers are the `remote` parameter and their arrival is the `ready` parameter, so the admission rate is not modelled.
- The collector runs until `ready` is used up. In Go it runs until the pending list is empty; the model shows that it stops early only when the list is empty.
- Re-receiving from a lookup's channel after it delivered an error is not modelled. In Go the channel is closed by then, the receive yields nil and the next access panics. The model re-delivers the same error.
- A nil category in a successful answer is not modelled.
- HTTP transport, status handling, body reading and JSON decoding are left out, because they are I/O and foreign library code. `GetBudgets` is only the `budgets` parameter, the category listing is the `listing` parameter, and `GetCategoryForMonth` is the `remote` answer to its path.
- The `reflect` machinery is not modelled. `copyCategories` becomes explicit field assignments, grouped into three helper methods, and `DeepEqual` becomes the constant false.
- `time.Now`, flags, environment variables and `.env` loading are left out. The date is the `year`, `month` and `day` parameters, and the month and target directory are parameters.
- Console output is left out: the budget banner, the group names, and the per-category line that calls `Format`. The error-stream write for a failed category write is left out too. The stream lines that are modelled are the listing error message and the lookup error line.
- CSV quoting and the buffered writer are not modelled. Rows are sequences of fields. `main` flushes the buffered writer but never flushes the CSV writer, so rows still held by the CSV writer may never reach the file; the model does not capture buffering.
- `os.Create`, `f.Close` and the panics on their errors are not modelled.
- Snapshot.PrintCategoryGroup: does not model the panic of the console line at main.go:116. That line calls `Format` on the balance and the budgeted amount of every written category, and `Format` panics when an amount's absolute value is below 100 milliunits or the amount is the smallest int64. The program then stops at that category and the rows after it are never written. The model writes every row as if the console line returned; the first finding below exhibits such a category.
- Snapshot.PrintGroups: does not model the same panic at main.go:116. The groups after the category whose amount `Format` cannot render are never written; the model writes them all.
- Snapshot.WriteBudget: does not model the same panic at main.go:116. A budget with such a category stops the program in the middle of its rows; the model writes the budget's rows in full.
- Snapshot.WriteSnapshot: does not model the same panic at main.go:116. The budgets after such a category are never written and `w.Flush()` (main.go:101) is never reached, so the buffered rows may never reach the file; the model writes every budget's rows.
- Types.Format: requires that the amount is not the smallest int64. For that input, `-number` wraps back to itself and the recursion never returns.
- The fourth USD case of the format test, 100250000 giving "$100,250.00", is not stated as a lemma of its own. It follows from `Types.SymbolFirstAmount` and `Types.GroupsThousands` like the other cases.
- Lengths are counted in characters, not UTF-8 bytes. The cuts in `Format` are on ASCII digits, where the two agree.
- `Paths.JoinPath` models `path.Join` only for two elements, the first of them non-empty, which is how `main` calls it.
