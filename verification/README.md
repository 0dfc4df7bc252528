# CandiPilot decision core in Dafny

CandiPilot is a Next.js internship-application tracker. Users record applications. They
move them across a six-column Kanban board (todo, applied, followup, interview, offer,
rejected) and see statistics on the dashboard. Pro users can export a CSV file. Other
features ask an AI for a follow-up e-mail and pre-fill the form from a job page's
metadata. A free account is limited to 20 applications, and Stripe events move a user
between the free and pro tiers.

This project models the small, pure decisions and string encoders that sit between the
app's calls to Supabase, Stripe and Groq. Every I/O result is a parameter of the model:
database replies, fetch outcomes, signature checks, clock readings and date formatting.
Each route or handler is written as one total function over immutable datatypes.

The model has these modules:
- `Types`: records and JavaScript truthiness.
- `Constants`: statuses, labels, colours, Kanban columns and the free limit.
- `Census`: counting applications by status.
- `Kanban`: the drag-start and drag-end transitions, the optimistic update, the rollback and the column views.
- `ApplicationQuota`: the count route and its `canCreate` gate.
- `ApplicationForm`: the submit gating, the inserted record and the auto-fill merge.
- `Dashboard`: the profile fallback, the remaining free count, the hints and the empty state.
- `StatsOverview`: the counters, the success rate and the per-status breakdown.
- `CsvExport`: the auth and pro gate, field quoting, line assembly, the byte-order mark and the file name.
- `Followup`: the follow-up route's validation order, tone table, date fallback and result extraction.
- `StripeWebhook`: the configuration and signature guards, and the event-to-tier updates.
- `TitleSplit`: the two title-splitting regular expressions, as a backtracking search. It is proved to fail exactly where the pattern matches nowhere, and otherwise to return the leftmost match. Among those, it returns the one with the shortest first group; after that first group, it returns the second group that starts latest, and the shortest one from that start.
- `FetchMetadata`: og/title precedence, the title split, whitespace clean-up and caps, and the composition with the form's auto-fill.
- `Utils`: `formatRelativeDate` bucketing.
- `Strings`: the JavaScript string operations used above (`join`, `split`, single-character `replace`, `\s`, `trim`, `slice`, number rendering).

Strings are sequences of Unicode scalar values, one `char` each. JavaScript strings are
sequences of UTF-16 code units. So the two agree on length and on `slice(0, n)` for text
inside the Basic Multilingual Plane, and differ for characters outside it, such as emoji;
see "Left out".

There is no monthly quota on AI follow-ups. The follow-up route performs no
authentication and no counting, and a user record has no usage fields.
`Followup.NoCallerGate` states that nothing gates a well-formed request.

## Model

| member | source | states |
|---|---|---|
| Constants.ParseStatus | src/lib/constants.ts:4-13 | reading a stored status back gives the status whose key it is, and fails exactly for text that is the key of no status |
| Constants.KeyRoundTrip | src/lib/constants.ts:4-13 | every status's key reads back as that status |
| Constants.StatusOrderIsKeySet | src/lib/constants.ts:4-13 | the key order of APPLICATION_STATUSES lists all six statuses, each with a distinct key |
| Constants.KanbanColumnsAreTheStatusKeys | src/lib/constants.ts:15-22 | KANBAN_COLUMNS is todo, applied, followup, interview, offer, rejected; it holds each status key exactly once; a text is a column iff it is a valid status |
| Census.CountOtherThan | src/components/stats-overview.tsx:12 | the cards whose status differs from k and the cards whose status is k add up to all cards |
| Census.OccurrencesInStatusOrder | src/lib/constants.ts:4-13 | each valid key occurs exactly once in the status order; any other text never occurs |
| Census.StatusCountsSumToValid | src/components/stats-overview.tsx:73-77 | the six per-status counts add up to the number of cards with a valid status |
| Kanban.Find | src/components/kanban-board.tsx:111 | `find` succeeds iff some card has the id, and then returns a card of the list with that id |
| Kanban.Mount | src/components/kanban-board.tsx:82-84 | a freshly mounted board keeps the mounted list both as its initial and its working list, and drags nothing |
| Kanban.DragStart | src/components/kanban-board.tsx:100-103 | the overlay shows a card of the working set with the dragged id, and is empty iff no card has that id; the lists are untouched |
| Kanban.ResolveDestination | src/components/kanban-board.tsx:115-117 | a column id is its own destination; otherwise the destination exists iff a card has the drop id, and is that card's stored status |
| Kanban.PlanMove | src/components/kanban-board.tsx:108-119 | a move is planned only with a drop target, a known card and a non-empty destination different from the card's status; otherwise one of these guards failed |
| Kanban.MoveCard | src/components/kanban-board.tsx:122-134 | the optimistic map keeps length and order, leaves cards with other ids equal, and gives the dragged card the new status and the stamped `applied_at` |
| Kanban.DragEnd | src/components/kanban-board.tsx:105-152 | the overlay is cleared; an update is sent iff the guards pass. A sent update carries the dragged id and the status the drop target resolves to (the column, or the status of the card dropped on). Its `applied_at` follows the stamping rule from the card as it was before the drag. The board shown meanwhile is the optimistic map to that status. An aborted drop changes nothing; a failed update resets the working set to the mount list; the mount list never changes |
| Kanban.DroppedCardLandsInTargetColumn | src/components/kanban-board.tsx:96-134 | dropping a card on another column sends that column's status, and the card then shows in that column and no longer in the one it left |
| Kanban.DropOutsideIsNoop | src/components/kanban-board.tsx:108-109 | a drop without a target sends nothing and leaves the working set as it was |
| Kanban.UnknownCardIsNoop | src/components/kanban-board.tsx:111-112 | dragging an id absent from the working set sends nothing and changes nothing |
| Kanban.SameColumnDropIsNoop | src/components/kanban-board.tsx:119 | a drop whose destination equals the card's status (own column, or a card in it) sends nothing, so reordering never persists |
| Kanban.EmptyStatusTargetIsNoop | src/components/kanban-board.tsx:119 | a drop on a card whose status is the empty text aborts as a falsy destination |
| Kanban.OptimisticUpdateChangesOneCard | src/components/kanban-board.tsx:122-134 | with unique ids, exactly one card changes: the dragged one, which takes the new status and stamped `applied_at` and keeps every other field |
| Kanban.AppliedAtRule | src/components/kanban-board.tsx:128-130 | `applied_at` becomes the drop time iff the destination is not todo and it was unset; otherwise it is kept, and a set value is never cleared |
| Kanban.AppliedAtSurvivesReturnToTodo | src/components/kanban-board.tsx:128-130 | todo → applied → todo → interview keeps the time of the first move throughout |
| Kanban.PersistedUpdateMatchesOptimistic | src/components/kanban-board.tsx:137-145 | the stored update has the optimistic card's status and applies the same `applied_at` rule to the pre-drag card; with equal clock readings both agree |
| Kanban.RollbackIsToMountList | src/components/kanban-board.tsx:147-150 | after an accepted drag, a rejected one resets the board to the mount list, losing the accepted drag too |
| Kanban.ColumnView | src/components/kanban-board.tsx:96-98 | a column holds exactly the cards with that status, as many as the status count |
| Kanban.ColumnViewKeepsOrder | src/components/kanban-board.tsx:96-98 | the column of a concatenation is the concatenation of the columns, so cards keep working-set order |
| Kanban.ColumnsPartition | src/components/kanban-board.tsx:96-98 | a card with a valid status is in its own status's column and no other; a card with an invalid status is in none; the column sizes sum to the valid-card count |
| ApplicationQuota.CountRoute | src/app/api/applications/count/route.ts:12-38 | 401 iff no user; otherwise the limit is 20, a missing count reads 0, isPro iff the profile tier is pro, and canCreate holds for pro and, for free, iff count < 20 |
| ApplicationQuota.FreeGateIsMonotone | src/app/api/applications/count/route.ts:31 | once a free user is refused at n applications, they are refused at every m ≥ n |
| ApplicationQuota.TwentiethApplicationClosesTheGate | src/lib/constants.ts:1 | a free user may create at 19 applications and not at 20; at 20 the count route reports the free limit and a count equal to it |
| ApplicationQuota.MissingProfileIsFree | src/app/api/applications/count/route.ts:30 | a missing profile is answered exactly as a free profile |
| ApplicationForm.InsertRecord | src/components/application-form.tsx:84-94 | company, role and status are stored as entered; empty url and notes become null; `applied_at` is set, to the clock reading, iff the status is not todo |
| ApplicationForm.Submit | src/components/application-form.tsx:68-105 | the record is created iff the check replied canCreate and the insert succeeded; a refusal reaches the limit callback with no insert; errors show the thrown message or the default text |
| ApplicationForm.SignedOutSubmitReachesLimit | src/components/application-form.tsx:75-82 | the count route's 401 body has no canCreate, so a signed-out submission takes the limit path |
| ApplicationForm.ProSubmitReachesInsert | src/components/application-form.tsx:75-94 | a pro user's submission always reaches the insert, whatever the count |
| ApplicationForm.AutoFill | src/components/application-form.tsx:42-66 | without a URL nothing changes; only an OK reply changes company or role, and only with a non-empty value; url, status and notes never change; a filled field never becomes empty |
| Dashboard.FallbackUser | src/app/dashboard/page.tsx:38-43 | the fallback profile has the auth id, the auth e-mail or "", the free tier and no customer id |
| Dashboard.Render | src/app/dashboard/page.tsx:20-114 | no user redirects; remainingFree + count = 20, unclamped; the hint appears iff free, and is "Limite atteinte" iff count ≥ 20, otherwise it carries exactly remainingFree (> 0); without a profile row the page user is the fallback built from the session; the CSV flag is set iff pro; the empty state is shown iff there are no rows, otherwise stats, board and breakdown get the same list |
| Dashboard.LimitHintMatchesCountGate | src/app/dashboard/page.tsx:65-69 | the dashboard shows "Limite atteinte" exactly when the count route refuses creation for the same count; past the limit the remaining count is negative |
| StatsOverview.SuccessRate | src/components/stats-overview.tsx:17 | 0 when nothing was sent; otherwise the integer nearest 100·offer/applied, halves rounded up |
| StatsOverview.SuccessRateIsAPercentage | src/components/stats-overview.tsx:17 | with no more offers than sent applications the rate is at most 100 |
| StatsOverview.Overview | src/components/stats-overview.tsx:11-17 | total is the card count; applied counts non-todo cards; interview and offer count their status; offer, interview ≤ applied ≤ total; the rate is in [0, 100], 0 when applied is 0, and is the rounded percentage of offers among applied cards |
| StatsOverview.CountedStatusIsSent | src/components/stats-overview.tsx:12-14 | any non-todo status count is bounded by the applied count |
| StatsOverview.BreakdownOf | src/components/stats-overview.tsx:73-77 | one entry per listed status, in order, with that status's count, label and colour |
| StatsOverview.StatusBreakdown | src/components/stats-overview.tsx:73-77 | six entries in key order, each with its status's count |
| StatsOverview.BreakdownSumsToTotal | src/components/stats-overview.tsx:73-77 | the breakdown counts sum to the valid-card count, and so to the total when every status is valid |
| CsvExport.StatusLabel | src/app/api/export/csv/route.ts:41-48 | a French label exists exactly for the six status keys |
| CsvExport.Row | src/app/api/export/csv/route.ts:53-61 | a row has as many fields as the seven headers, in header order; text fields are quoted; the applied-date field is empty when `applied_at` is falsy |
| CsvExport.DocumentOfNoApplications | src/app/api/export/csv/route.ts:51-70 | with no rows the document is the byte-order mark and the header line, which splits back into the seven labels |
| CsvExport.DocumentAppend | src/app/api/export/csv/route.ts:63-70 | one more application appends a line feed and its line, so the lines follow query order |
| CsvExport.UndoubleRoundTrip | src/app/api/export/csv/route.ts:54-59 | undoing the quote doubling recovers the text |
| CsvExport.QuotedRoundTrip | src/app/api/export/csv/route.ts:54-58 | a quoted field reads back as the original text |
| CsvExport.DoubleAndFlattenCommute | src/app/api/export/csv/route.ts:59 | quote doubling and line-feed flattening commute |
| CsvExport.NotesCellIsOneLine | src/app/api/export/csv/route.ts:59 | the notes field holds no line feed and reads back as the notes ("" if absent) with line feeds turned into spaces |
| CsvExport.CompanyKeepsLineFeeds | src/app/api/export/csv/route.ts:54 | a line feed in a company name is kept in its field |
| CsvExport.QuotesInsideAreDoubled | src/app/api/export/csv/route.ts:54 | each inner quote is doubled and the whole is wrapped in one pair of quotes |
| CsvExport.DatePart | src/app/api/export/csv/route.ts:77 | the file date is the prefix of the ISO reading up to, not including, the first `T` |
| CsvExport.Export | src/app/api/export/csv/route.ts:5-86 | a throw from `createClient` or `getUser` is caught and answered with 500; otherwise 401 iff no user; 403 iff signed in but not pro, including a missing profile; 500 iff one of those threw or a pro user's query failed; otherwise the document of the rows (none when null) and the dated file name |
| Utils.ElapsedDays | src/lib/utils.ts:22 | the day count is the floor of elapsed milliseconds over 86,400,000 |
| Utils.Classify | src/lib/utils.ts:19-28 | blank iff the date is falsy; an invalid date is absolute; otherwise today, yesterday, days (including future), weeks (1 to 4) and absolute are the elapsed-time intervals [0,1), [1,2), below 0 or [2,7), [7,30) and ≥ 30 days |
| Utils.FormatRelativeDate | src/lib/utils.ts:18-29 | "" for a falsy date; "Aujourd'hui", "Hier", "Il y a N jours" (N in 2..6), "Il y a W semaines" (W = ⌊days/7⌋ in 1..4) or the formatted date, by elapsed interval; a future date gives "Il y a N jours" with the negative day count N; an invalid date is formatted |
| Utils.CountedWordings | src/lib/utils.ts:22-27 | the numbered wordings: "Il y a N jours" with N in 2..6 for two to seven days, "Il y a W semaines" with W = ⌊days/7⌋ in 1..4 up to thirty days, and the negative day count for a future date |
| Utils.FutureDateReadsAsNegativeDays | src/lib/utils.ts:22-26 | a date three days ahead reads "Il y a -3 jours" |
| Utils.DaysAgoWording | src/lib/utils.ts:26 | two to six days ago reads "Il y a N jours" with that single-digit N |
| Followup.ToneConfigFor | src/app/api/ai/followup/route.ts:22-51 | the configuration is that of the named tone, or the neutral one |
| Followup.ToneSelection | src/app/api/ai/followup/route.ts:22-51 | each tone key selects its own entry; an absent or unknown tone selects neutral |
| Followup.PromptForTone | src/app/api/ai/followup/route.ts:5-18 | a well-formed request's prompt asks for the formal style and 180 words for "formal", the direct style and 80 words for "short", and the accessible style and 150 words for anything else or no tone |
| Followup.Handle | src/app/api/ai/followup/route.ts:20-91 | an unreadable body is a 500; a falsy company or role is a 400 before the key check; a missing key is a 500; the model is called iff all pass, with company, role, the long date or "récemment", and the tone configuration; a throw is a 500 and missing content gives an empty e-mail |
| Followup.ValidationBeforeKeyCheck | src/app/api/ai/followup/route.ts:24-36 | a request without company gets 400 even when no key is configured |
| Followup.NoCallerGate | src/app/api/ai/followup/route.ts:20-84 | a well-formed request with a configured key always reaches the model |
| Followup.EmptyCompletionIsEmptyEmail | src/app/api/ai/followup/route.ts:82-84 | a reply without content becomes the empty e-mail |
| StripeWebhook.SetProById | src/app/api/stripe/webhook/route.ts:46-52 | rows with the id become pro with the session's customer id; every other row is unchanged |
| StripeWebhook.SetTierByCustomer | src/app/api/stripe/webhook/route.ts:64-67 | rows with the customer id take the tier; every other row is unchanged |
| StripeWebhook.TierForStatus | src/app/api/stripe/webhook/route.ts:78 | pro iff the subscription status is "active" |
| StripeWebhook.Handle | src/app/api/stripe/webhook/route.ts:5-98 | missing configuration is a 500, a missing signature or a rejected one a 400, all writing nothing; the table changes only on an acknowledged event; 500 iff a writing event's update threw, and then nothing changes; a verified event that writes nothing is acknowledged with the table unchanged, whatever the write would do; otherwise acknowledged, with the event's update applied when the write went through |
| StripeWebhook.SetTierByCustomerIdempotent | src/app/api/stripe/webhook/route.ts:64-83 | setting a tier twice equals setting it once |
| StripeWebhook.SetProByIdIdempotent | src/app/api/stripe/webhook/route.ts:46-52 | upgrading twice equals upgrading once |
| StripeWebhook.RedeliveryIsHarmless | src/app/api/stripe/webhook/route.ts:39-87 | applying any event twice leaves the table as applying it once |
| StripeWebhook.RejectedSignatureWritesNothing | src/app/api/stripe/webhook/route.ts:27-36 | a signature Stripe rejects is answered 400 with the table unchanged |
| StripeWebhook.CheckoutUpgrades | src/app/api/stripe/webhook/route.ts:40-56 | after a checkout with a user id, that user is pro with the session's customer id |
| StripeWebhook.CancellationDowngrades | src/app/api/stripe/webhook/route.ts:59-71 | after a deletion, no row of that customer is pro |
| StripeWebhook.UpdateFollowsStatus | src/app/api/stripe/webhook/route.ts:73-86 | after an update, the customer's row is pro iff the status is "active" |
| StripeWebhook.CheckoutThenCancel | src/app/api/stripe/webhook/route.ts:40-71 | checkout then cancellation leaves the user free, keeping the customer id |
| StripeWebhook.CheckoutWithoutUserIsLost | src/app/api/stripe/webhook/route.ts:42-56 | a checkout without a metadata user id is acknowledged and writes nothing |
| TitleSplit.TailHolds | src/app/api/fetch-metadata/route.ts:49-50 | the tail `(?:\s*[\|\-–]\|$)` matches at k iff k is the end or whitespace then a separator follows |
| TitleSplit.KeywordLength | src/app/api/fetch-metadata/route.ts:49 | the length of `at`, `chez` or `@` at k, case-insensitively, and 0 iff none is there |
| TitleSplit.Connect | src/app/api/fetch-metadata/route.ts:49-50 | a second group found after a first group's end is joined to it as the pattern requires, and is followed by the tail |
| TitleSplit.Match | src/app/api/fetch-metadata/route.ts:49-50 | a returned pair of groups is a match of the whole pattern |
| TitleSplit.SearchComplete | src/app/api/fetch-metadata/route.ts:49-50 | the search finds a match whenever one starts at or after its position, starting no later and, at the same start, with a first group no longer |
| TitleSplit.MatchIsLeftmostShortest | src/app/api/fetch-metadata/route.ts:49-50 | no result iff the pattern matches nowhere; otherwise the leftmost match, with the shortest first group among those |
| TitleSplit.MatchSecondGroup | src/app/api/fetch-metadata/route.ts:49-50 | among matches with the returned first group, the returned second group starts latest (greedy `\s`), and from that start it is the shortest (lazy `(.+?)`) |
| TitleSplit.ConnectBest | src/app/api/fetch-metadata/route.ts:49-50 | after a first group, the connector search returns the latest-starting, then shortest, second group that the connector and the tail allow |
| TitleSplit.SecondGroupBest | src/app/api/fetch-metadata/route.ts:49-50 | giving back whitespace one character at a time finds the latest start from which the group reaches the tail, and from it the shortest group |
| TitleSplit.LazyEndBest | src/app/api/fetch-metadata/route.ts:49-50 | the lazy group ends no later than any end after which the tail matches |
| Strings.Trim | src/app/api/fetch-metadata/route.ts:44 | the result is a slice of the input with only whitespace cut on either side, and begins and ends with a non-space |
| Strings.CollapseSpaces | src/app/api/fetch-metadata/route.ts:64-65 | the result is single-spaced, no longer, shows the same visible characters, and begins with a space iff the input begins with whitespace |
| Strings.CollapseWithoutSpaces | src/app/api/fetch-metadata/route.ts:64-65 | text without whitespace is left unchanged |
| Strings.CollapseRun | src/app/api/fetch-metadata/route.ts:64-65 | a maximal whitespace run between two pieces becomes exactly one space, with each piece collapsed on its own; with `CollapseWithoutSpaces` this fixes the result on every input |
| Strings.TrimWithoutSpaces | src/app/api/fetch-metadata/route.ts:64-65 | text without whitespace is its own trim |
| Strings.Take | src/app/api/fetch-metadata/route.ts:64-65 | `slice(0, n)` is the prefix of length n, or the whole text when it is shorter |
| FetchMetadata.Cleanup | src/app/api/fetch-metadata/route.ts:64-65 | the prefix of the collapsed and trimmed text of length exactly min(its length, cap): all of it when it fits, cap characters otherwise; single-spaced with no leading whitespace |
| FetchMetadata.CleanTextIsKept | src/app/api/fetch-metadata/route.ts:64-65 | text without whitespace that fits the cap comes through unchanged |
| FetchMetadata.CleanupKeepsVisible | src/app/api/fetch-metadata/route.ts:64-65 | below the cap the clean-up keeps exactly the visible characters, in order |
| FetchMetadata.CapCanLeaveTrailingSpace | src/app/api/fetch-metadata/route.ts:64-65 | the cap applies after trimming, so a cut can end on a space |
| FetchMetadata.SplitTitle | src/app/api/fetch-metadata/route.ts:48-59 | an `at` match gives trimmed role and company from its groups; failing that a dash match does; failing both the title stays the role |
| FetchMetadata.Extract | src/app/api/fetch-metadata/route.ts:25-61 | a non-empty og:title is the role, a non-empty og:site_name the company; with neither og:title nor a title tag the role is empty; otherwise an empty og:title falls back to the trimmed title tag, taken whole when og:site_name names the company and split (at, then dash, else whole) when it does not |
| FetchMetadata.Handle | src/app/api/fetch-metadata/route.ts:3-72 | 400 iff the url is falsy; an unreadable body, a throw or a non-OK page give empty fields; a fetched page gives the company and role that the page's tags yield, cleaned and capped at 100 and 200 |
| FetchMetadata.SiteNameBlocksTitleSplit | src/app/api/fetch-metadata/route.ts:41-48 | with a site name the trimmed title is the role, unsplit |
| FetchMetadata.OgTitleWins | src/app/api/fetch-metadata/route.ts:35-44 | with a non-empty og:title the title tag has no effect |
| FetchMetadata.AtSplitWins | src/app/api/fetch-metadata/route.ts:52-58 | when the `at` pattern matches, its groups are used even if the dash pattern matches too |
| FetchMetadata.DashSplitOrWholeTitle | src/app/api/fetch-metadata/route.ts:43-59 | when the `at` pattern fails, a dash match supplies role and company, and with no match the whole trimmed title is the role with no company |
| FetchMetadata.AutoFillThroughRoute | src/components/application-form.tsx:42-66 | the form's own URL never draws the 400; an unreadable page leaves the form unchanged; a fetched page's cleaned company and role replace the form's fields when they are non-empty, and the form keeps its own otherwise |
| FetchMetadata.SiteNameReachesForm | src/app/api/fetch-metadata/route.ts:28-32 | an `og:site_name` that is one word within the cap fills the form's company with exactly that word |

## Left out

- The UI files (cards, dialogs, navbar, landing and billing pages), the Stripe checkout route, the detail page and `formatDate` are not part of this model; they hold rendering or a single external call.
- The detail page's status selector (src/app/app/[id]/client-components.tsx) stamps `applied_at` by a different rule than the board; it is outside the modelled core.
- Supabase, Stripe, Groq and `fetch` are parameters: query results, write outcomes, `constructEvent` (an optional event), the completion, and the page download with its three HTML matchers (`og:site_name`, `og:title`, `<title>`), whose captures are given as optional strings.
- Clock readings, date parsing (`new Date(s)`) and `toLocaleDateString` are parameters; an invalid date is a parse that gives nothing.
- Exceptions escaping a route are not modelled: `createClient` or `getUser` throwing in the count route or the dashboard, and the Stripe webhook's service client being built outside any `try`. The framework's error page is outside the application. (The CSV export route catches such throws, and `CsvExport.Export` models that 500.)
- StripeWebhook.Handle: a missing Supabase URL makes the admin `createClient` throw before the signature is read (src/app/api/stripe/webhook/route.ts:13-16), so every request that passes the Stripe configuration check then ends in the framework's 500, where the model answers 400 for a missing or rejected signature or handles the event; the model has no input for the Supabase configuration.
- Overlapping drags, and persistence calls completing out of order, are concurrency; each drag end is one sequential step, and `initialApps` is the list the board was mounted with.
- The dashboard subtitle's pluralisation, the loading flags and the button rendering are presentation only.
- The follow-up prompt is modelled by its fields (company, role, date, tone style and word limit); the template text, model name, temperature and token limit are not.
- Supabase update errors in the webhook are returned as values and ignored by the route; `WriteRefused` models them, with the event acknowledged and the table unchanged.
- `PRO_PRICE_MONTHLY` is a floating-point price used only for display.
- StatsOverview.SuccessRate: rounds the exact ratio; JavaScript rounds the floating-point quotient, which for rare inputs lands just below a half (29 offers of 200 gives 14.499…, then 14, where the exact value gives 15).
- CsvExport.StatusLabel: an object-literal lookup also finds inherited keys such as `constructor`; the model treats every text other than the six keys as unlabelled.
- Followup.ToneConfigFor: the same inherited-key lookup on `TONE_PROMPTS` would pick a non-configuration for `constructor`; the model treats it as unknown and uses neutral.
- FetchMetadata.Handle: the request's `url` is modelled as an optional string; a truthy non-string `url` is not represented.
- FetchMetadata.Cleanup: the caps count Unicode scalar values, while JavaScript's `slice` counts UTF-16 code units. A text with characters outside the Basic Multilingual Plane, such as emoji, keeps more characters in the model. A cut that would split a surrogate pair and leave a lone surrogate cannot be represented.
- Followup.Handle: the request fields are modelled as optional strings; non-string JSON values are not represented.
