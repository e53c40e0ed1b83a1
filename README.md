# Admin dashboard rules, modelled in Dafny

This project models the rules that run inside the pages of an admin dashboard. The dashboard
is a React app whose pages work on in-memory mock data. The model covers:

- **Net Promoter Score page** (`Nps`): the promoter, passive and detractor buckets, the score
  and the three percentages.
- **Customer-satisfaction page** (`Ctc`): the average star rating, the five-star count and the
  five-star share.
- **Filter of both pages** (`Feedback`): an inclusive date range, a segment and a promo code. It
  always restarts from the page's seed list.
- **Subscription page** (`Subscription`):
  - three updates of the user list: toggle premium, set a subscription length, grant premium
    to every free user;
  - the premium and free totals;
  - the case-insensitive name/email search, which the page computes but the table does not
    use (see "## Findings");
  - the reminder and upgrade toasts raised each time the list changes.
- **Notification page** (`Notification`):
  - the send-form validation and its reset;
  - the category list, where the five defaults cannot be deleted.
- **Management page** (`Settings`):
  - the active/inactive toggle of an account;
  - the chart of subscribers per promo code.
- **Influencer page** (`Influencer`): the count of subscribers per influencer, and the flattened
  list of subscriber rows (the management page renders the same two tables).
- **Promo-code page and list** (`PromoCodes`):
  - an append-only list that starts empty;
  - a search over each entry's name or code;
  - the "no promo codes" and "No results found." states.

## How the model is organised

Pure computations are Dafny functions: `map`, `filter`, `reduce` and `flatMap` over the lists.
Each page whose handlers replace state is a class:

- the state lists are `seq` fields;
- each handler is a method with `modifies this`;
- each method's `ensures` ties the new state to the pure function.

The only iteration the source runs for its side effects, the `forEach` that raises the
subscription toasts, is a method (`Subscription.EmitToasts`). Its loop invariant ties it to the function `Subscription.Toasts`.
`handleFilter` narrows a local list one criterion at a time, and `Feedback.FilterChain` does the
same. It is proved equal to a single filter by the conjunction of the criteria that are set.

Shared modules:

- `Options`: an `Option` type.
- `Seqs`: a generic `Filter` and `Count`, with order-preservation and counting lemmas.
- `Text`: JavaScript's `trim`, with the full ECMAScript white-space and line-terminator set.
  Also `toLowerCase` and `includes`.

Conventions:

- **Dates** are day numbers counted from 1970-01-01, so `2024-01-01` is 19723. Date strings
  become ordered integers.
- **"Today"** is a parameter wherever the source reads the clock.
- **Empty lists.** The source divides by the list length unguarded, so an empty list gives
  NaN (0 / 0). The page does reach that case, because a filter can leave nothing on display.
  The model makes this an explicit policy instead of a precondition: an average, score or
  percentage is an `Option<real>`, and `None` stands for the NaN shown.
- **Shared record.** The NPS and customer-satisfaction pages declare the same record
  (`NPSRating`, `Review`) and the same filter. Both use `Feedback.Rating` and `Feedback.Select`.

## Model

| member | source | states |
|---|---|---|
| `Nps.CalculateNps` | src/app/home/nps/page.tsx:62-79 | the three bucket counts add up to the number of ratings; the score is undefined (NaN) exactly when there are no ratings |
| `Nps.FiltersAgreeWithClassify` | src/app/home/nps/page.tsx:63-65 | each integer rating passes exactly one of the three filters: promoter at 9 and above, passive at 7 or 8, detractor at 6 and below |
| `Nps.BucketsPartition` | src/app/home/nps/page.tsx:63-66 | promoters + passives + detractors equals the number of ratings |
| `Nps.Percentage` | src/app/home/nps/page.tsx:75-77 | a percentage of a total is undefined exactly when the total is zero |
| `Nps.PercentageBounds` | src/app/home/nps/page.tsx:75-77 | the percentage of a part of a positive total lies in [0, 100] |
| `Nps.ScoreBounds` | src/app/home/nps/page.tsx:68 | for a non-empty list the score lies in [-100, 100] |
| `Nps.ScoreIsPercentageDifference` | src/app/home/nps/page.tsx:68-77 | the score equals the promoter percentage minus the detractor percentage |
| `Nps.PercentagesSum` | src/app/home/nps/page.tsx:75-77 | each bucket percentage lies in [0, 100], and before rounding the three add up to exactly 100 |
| `Nps.EmptyIsUndefined` | src/app/home/nps/page.tsx:66-68 | with no ratings, every count is zero and the score and all three percentages are NaN |
| `Nps.SeedMetrics` | src/app/home/nps/page.tsx:26-31 | on the seed ratings 9, 6, 3 there are 1 promoter, 0 passives and 2 detractors; the score is -100/3 and the percentages are 100/3, 0 and 200/3 |
| `Nps.FourRatingsExample` | src/app/home/nps/page.tsx:62-79 | on ratings 9, 9, 7, 6 the score is 25, and the percentages are 50, 25 and 25 |
| `Nps.NpsPage.Metrics` | src/app/home/nps/page.tsx:111 | the metrics on the cards count every rating on display exactly once |
| `Nps.NpsPage.constructor` | src/app/home/nps/page.tsx:82-90 | the page opens on the seed ratings, with no date range, no segment, no promo code, and not loading |
| `Nps.NpsPage.HandleFilter` | src/app/home/nps/page.tsx:113-131 | the ratings on display become the seed narrowed by the form; this does not depend on what an earlier filter left on display; the form is kept and loading ends |
| `Feedback.Matches` | src/app/home/nps/page.tsx:117-127 | with no complete date range, no segment and no promo code every record passes; a set segment or promo code must match exactly |
| `Feedback.Select` | src/app/home/nps/page.tsx:116-127 | a record is kept exactly when it is in the seed and meets every criterion that is set |
| `Feedback.FilterChain` | src/app/home/nps/page.tsx:116-127 | narrowing step by step (date range, then segment, then promo code), skipping unset criteria, gives the single filter by all criteria |
| `Feedback.SelectIsSubsequence` | src/app/home/ctc/page.tsx:98-110 | the filtered list is the seed with some records removed and the rest in seed order |
| `Feedback.SelectWithoutCriteria` | src/app/home/nps/page.tsx:116-128 | with no complete date range, no segment and no promo code, the whole seed comes back |
| `Feedback.DateRangeInclusive` | src/app/home/nps/page.tsx:117-121 | once both bounds are set, a record that meets the other criteria is kept exactly when its date lies between the bounds, both bounds included |
| `Feedback.SelectIdempotent` | src/app/home/ctc/page.tsx:98-109 | filtering the filtered list again with the same form changes nothing |
| `Ctc.SumRatings` | src/app/home/ctc/page.tsx:91 | the `reduce` of the ratings from the left, starting at 0 (no contract of its own; its bounds are `Ctc.SumBounds`) |
| `Ctc.AverageRating` | src/app/home/ctc/page.tsx:91 | the average is undefined (NaN) exactly when there are no reviews |
| `Ctc.SumBounds` | src/app/home/ctc/page.tsx:91 | if every rating lies in [lo, hi], the sum lies between n * lo and n * hi |
| `Ctc.AverageWithinBounds` | src/app/home/ctc/page.tsx:91 | if every rating of a non-empty list lies in [lo, hi], so does the average |
| `Ctc.MinRating` | src/app/home/ctc/page.tsx:91 | the lowest rating of a non-empty list: it is some review's rating, and no review's rating is lower |
| `Ctc.MaxRating` | src/app/home/ctc/page.tsx:91 | the highest rating of a non-empty list: it is some review's rating, and no review's rating is higher |
| `Ctc.AverageBetweenMinAndMax` | src/app/home/ctc/page.tsx:91 | for a non-empty list the average lies between the lowest and the highest rating |
| `Ctc.FiveStarCount` | src/app/home/ctc/page.tsx:92 | the five-star count is at most the number of reviews |
| `Ctc.FiveStarCountExtremes` | src/app/home/ctc/page.tsx:92 | the count equals the number of reviews exactly when every review has five stars, and is zero exactly when none has |
| `Ctc.FiveStarPercentage` | src/app/home/ctc/page.tsx:93 | the five-star share is undefined (NaN) exactly when there are no reviews |
| `Ctc.FiveStarPercentageBounds` | src/app/home/ctc/page.tsx:93 | for a non-empty list the share lies in [0, 100], and it is 100 exactly when every review has five stars |
| `Ctc.SeedStatistics` | src/app/home/ctc/page.tsx:25-30 | on the seed ratings 5, 4, 5 there are 2 five-star reviews, the average is 14/3 and the share is 200/3 |
| `Ctc.CtcPage.HandleFilter` | src/app/home/ctc/page.tsx:95-113 | the reviews on display become the seed narrowed by the form; this does not depend on earlier filters; the form is kept and loading ends |
| `Ctc.CtcPage.constructor` | src/app/home/ctc/page.tsx:62-70 | the page opens on the seed reviews, with no date range, no segment, no promo code, and not loading |
| `Subscription.TogglePremium` | src/app/home/subscription/page.tsx:196-200 | only users with that id flip `isPremium`; their other fields and all other users are unchanged, and length and order are kept |
| `Subscription.ToggleTwice` | src/app/home/subscription/page.tsx:197-199 | toggling the same id twice gives back the original list |
| `Subscription.SetSubscription` | src/app/home/subscription/page.tsx:202-208 | users with that id get `days` days left and a date `days` days after today; nothing else changes, and premium status never changes |
| `Subscription.SetSubscriptionKeepsTotals` | src/app/home/subscription/page.tsx:202-222 | setting a subscription length never changes the premium or the free total |
| `Subscription.GrantPremium` | src/app/home/subscription/page.tsx:210-214 | afterwards every user is premium; users who were free get today's date and `days` days left; premium users are unchanged |
| `Subscription.GrantIdempotent` | src/app/home/subscription/page.tsx:211-213 | a second grant, with any length and date, finds no free user and changes nothing |
| `Subscription.TotalPremiumUsers` | src/app/home/subscription/page.tsx:221 | the premium total is at most the number of users |
| `Subscription.TotalFreeUsers` | src/app/home/subscription/page.tsx:222 | the free total is at most the number of users |
| `Subscription.TotalsPartition` | src/app/home/subscription/page.tsx:221-222 | premium total + free total equals the number of users |
| `Subscription.GrantLeavesNoFreeUsers` | src/app/home/subscription/page.tsx:210-222 | after a grant the premium total is the number of users and the free total is zero |
| `Subscription.FilteredUsers` | src/app/home/subscription/page.tsx:216-219 | the value the page computes and never shows: a user is kept exactly when the lowercased query occurs in the lowercased name or email |
| `Subscription.FilteredUsersIsSubsequence` | src/app/home/subscription/page.tsx:216-219 | the search keeps users in list order |
| `Subscription.EmptySearchKeepsAll` | src/app/home/subscription/page.tsx:216-219 | an empty query keeps every user, in order |
| `Subscription.SearchCaseIgnored` | src/app/home/subscription/page.tsx:217-218 | two queries that differ only in letter case keep the same users |
| `Subscription.SearchIgnoredByTable` | src/app/home/subscription/page.tsx:177-179 | the rows the table renders are the same whatever the search box holds |
| `Subscription.TableRows` | src/app/home/subscription/page.tsx:177-178 | the `data: users` binding of the table: its rows are the whole list, and the query is not used (no contract of its own; see `Subscription.SearchIgnoredByTable`) |
| `Subscription.DeadSearchExample` | src/app/home/subscription/page.tsx:178 | on the seed, a query that matches nobody still leaves both users on display, while the computed search result is empty |
| `Subscription.ToastsFor` | src/app/home/subscription/page.tsx:168-173 | one user raises at most one toast |
| `Subscription.Toasts` | src/app/home/subscription/page.tsx:166-175 | a list raises at most one toast per user |
| `Subscription.ReminderRule` | src/app/home/subscription/page.tsx:166-175 | a premium user with at most 7 days left gets exactly an expiry reminder; a free user gets exactly an upgrade prompt; any other user gets nothing |
| `Subscription.ToastsAppend` | src/app/home/subscription/page.tsx:167 | the toasts for two lists joined are the toasts of the first list followed by those of the second |
| `Subscription.EmitToasts` | src/app/home/subscription/page.tsx:166-175 | the `forEach` pass raises exactly the toasts of each user in turn, in list order |
| `Subscription.ToastCount` | src/app/home/subscription/page.tsx:166-175 | the number of toasts is the number of free users plus the number of premium users with at most 7 days left |
| `Subscription.NoUpgradePromptWhenAllPremium` | src/app/home/subscription/page.tsx:171-173 | when every user is premium, every toast is an expiry reminder |
| `Subscription.SeedToasts` | src/app/home/subscription/page.tsx:41-45 | on the seed, only Alice (free) gets a toast, an upgrade prompt; Bob has 15 days left and gets nothing |
| `Subscription.SubscriptionPage.SearchedRows` | src/app/home/subscription/page.tsx:216-219 | the rows the search box evidently means to show: exactly the users matching the current query, in list order, and every user when the box is empty |
| `Subscription.SubscriptionPage.constructor` | src/app/home/subscription/page.tsx:163-164 | the page opens on the seed users with an empty search box |
| `Subscription.SubscriptionPage.DisplayedRows` | src/app/home/subscription/page.tsx:177-178 | the rows on display are `TableRows` of the current list and query, that is, the whole list (no contract of its own) |
| `Subscription.SubscriptionPage.TogglePremiumStatus` | src/app/home/subscription/page.tsx:196-200 | replaces the list with the toggled list, keeps the search, and returns the toasts for the new list |
| `Subscription.SubscriptionPage.SetSubscriptionDays` | src/app/home/subscription/page.tsx:202-208 | replaces the list with the updated list, keeps the search, and returns the toasts for the new list |
| `Subscription.SubscriptionPage.GrantPremiumToNewUsers` | src/app/home/subscription/page.tsx:210-214 | replaces the list with the granted list and keeps the search; returns the toasts for the new list, so every premium user with at most 7 days left is reminded; the free total becomes zero and no upgrade prompt is raised |
| `Notification.SendRejected` | src/app/home/notification/page.tsx:133 | an empty message is refused; with a selection and a category, a message that starts with a visible character is accepted |
| `Notification.SendRejectedIff` | src/app/home/notification/page.tsx:133-136 | a send is refused exactly when no row is selected, or the message is all whitespace, or no category is chosen |
| `Notification.AddCategory` | src/app/home/notification/page.tsx:149-158 | a name that is not blank is appended untrimmed at the end, and the length grows by one; a blank name leaves the list unchanged |
| `Notification.AddCategoryCases` | src/app/home/notification/page.tsx:150-157 | an all-whitespace name is refused; any other name is appended, even one already in the list |
| `Notification.DeleteCategory` | src/app/home/notification/page.tsx:160-167 | deleting a default changes nothing; deleting any other name leaves exactly the other names |
| `Notification.DeleteKeepsOrder` | src/app/home/notification/page.tsx:162 | deleting keeps the remaining names in order; the length drops by the number of copies of the deleted name |
| `Notification.OperationsKeepDefaults` | src/app/home/notification/page.tsx:149-167 | neither an add nor a delete removes a default category |
| `Notification.DefaultsSurvive` | src/app/home/notification/page.tsx:108 | the five default categories stay in the list across any series of adds and deletes |
| `Notification.NotificationPage.constructor` | src/app/home/notification/page.tsx:104-110 | the form starts empty and the list holds the five defaults |
| `Notification.NotificationPage.HandleSendNotification` | src/app/home/notification/page.tsx:131-147 | a success is reported exactly when the guard passes; a send clears the selection, message, schedule date and interval and keeps the category; a refusal changes nothing |
| `Notification.NotificationPage.HandleAddCategory` | src/app/home/notification/page.tsx:149-158 | the list becomes the result of the add; a success clears the box and closes the dialog; the defaults stay present |
| `Notification.NotificationPage.HandleDeleteCategory` | src/app/home/notification/page.tsx:160-167 | the list becomes the result of the delete; a success is reported exactly when the name is not a default; the defaults stay present |
| `Settings.Flipped` | src/app/home/settings/page.tsx:42 | the new status is "inactive" exactly when the old one was "active", and is otherwise "active" |
| `Settings.ToggleStatus` | src/app/home/settings/page.tsx:40-44 | accounts with that id get the flipped status; every other account is unchanged, and length and order are kept |
| `Settings.ToggleStatusTwice` | src/app/home/settings/page.tsx:41-43 | when the accounts with that id are "active" or "inactive", toggling twice gives back the list |
| `Settings.ToggleNormalises` | src/app/home/settings/page.tsx:42 | after a toggle, every account with that id is "active" or "inactive"; one that had any other status is now "active" |
| `Settings.UnknownStatusNotRestored` | src/app/home/settings/page.tsx:42 | two toggles turn a "pending" account into "inactive", not back into "pending" |
| `Settings.ChartData` | src/app/home/settings/page.tsx:46-50 | one bar per performance entry, in order, whose height is that entry's subscriber count |
| `Settings.ChartAgreesWithSummary` | src/app/home/settings/page.tsx:145-151 | each bar shows the promo code, influencer and count of the same row of the summary table |
| `Settings.ChartTotalIsDetailRowCount` | src/app/home/settings/page.tsx:164-172 | the bars add up to the number of rows in the subscriber details table |
| `Settings.SeedChart` | src/app/home/settings/page.tsx:25-33 | on the seed the bars are NEWYEAR with 2 and SUMMER with 1, for a total of 3 |
| `Settings.ManagementPage.ToggleUserStatus` | src/app/home/settings/page.tsx:40-44 | the account list becomes the toggled list, and the accounts with that id end with a known status |
| `Settings.ManagementPage.constructor` | src/app/home/settings/page.tsx:36-38 | the page opens on the seed accounts and the seed performance list; the log list is not modelled |
| `Influencer.SummaryRows` | src/app/home/influencer/page.tsx:40-46 | one summary row per influencer, in order, whose count is that influencer's subscriber count |
| `Influencer.RowsOf` | src/app/home/influencer/page.tsx:61-67 | one detail row per subscriber of an influencer, in order, each carrying that influencer |
| `Influencer.DetailRows` | src/app/home/influencer/page.tsx:60-67 | the `flatMap`: the detail table has as many rows as the summary counts add up to |
| `Influencer.DetailRowPosition` | src/app/home/influencer/page.tsx:60-67 | subscriber j of influencer i is detail row (sum of the earlier influencers' counts) + j: the table is the in-order concatenation of the lists |
| `Influencer.DetailRowOrigin` | src/app/home/influencer/page.tsx:61-65 | every detail row is some subscriber of some influencer, and carries that influencer's name |
| `Influencer.SeedTables` | src/app/home/influencer/page.tsx:6-22 | on the seed Alice brought in 2 and Bob 1, and the detail table has 2 + 1 = 3 rows |
| `Text.Trim` | src/app/home/notification/page.tsx:133 | `trim` gives the input with its leading and trailing whitespace cut off and nothing else removed (`CutAt` for some start index); the result neither starts nor ends with whitespace |
| `Text.Lower` | src/components/ui/PromoCodeList.tsx:19-20 | the ASCII lowering that stands for `toLowerCase` keeps the length and lowers each letter in place |
| `Text.Includes` | src/app/home/subscription/page.tsx:217-218 | `includes` holds exactly when the query occurs at some position of the string |
| `PromoCodes.SearchText` | src/components/ui/PromoCodeList.tsx:19-20 | a missing name or code searches as the empty string; a present one is lowercased |
| `PromoCodes.FilteredPromoCodes` | src/components/ui/PromoCodeList.tsx:17-21 | an entry is kept exactly when the lowercased query occurs in its lowercased name or code |
| `PromoCodes.FilteredIsSubsequence` | src/components/ui/PromoCodeList.tsx:17 | the search keeps entries in list order |
| `PromoCodes.EmptyQueryShowsAll` | src/components/ui/PromoCodeList.tsx:17-21 | an empty query keeps every entry, even one with neither a name nor a code |
| `PromoCodes.QueryCaseIgnored` | src/components/ui/PromoCodeList.tsx:19-20 | two queries that differ only in letter case keep the same entries |
| `PromoCodes.FieldCaseIgnored` | src/components/ui/PromoCodeList.tsx:19-20 | two entries whose names and codes lower to the same text match every query alike, so the fields' case is ignored too |
| `PromoCodes.FormEntryMatchesByCodeOnly` | src/components/ui/PromoCodeList.tsx:19-20 | an entry built by the form has no name, so a non-empty query finds it exactly when the query occurs in its code, ignoring case |
| `PromoCodes.Render` | src/components/ui/PromoCodeList.tsx:34-46 | the empty-list box shows exactly when there are no promo codes; "No results found." shows exactly when there are some but none matches; otherwise the table shows the filtered entries |
| `PromoCodes.EmptyQueryNeverNoResults` | src/app/home/promo-codes/page.tsx:28-34 | with an empty search box a non-empty list shows every entry |
| `PromoCodes.PromoCodesPage.constructor` | src/app/home/promo-codes/page.tsx:11-13 | the list starts empty, and the page shows the empty-list box |
| `PromoCodes.PromoCodesPage.Body` | src/app/home/promo-codes/page.tsx:28-34 | the page body is `Render` of the list and the query: the empty-list box when there are no promo codes, and otherwise the table (no contract of its own; `PromoCodes.Render` states the cases) |
| `PromoCodes.PromoCodesPage.HandleAddPromoCode` | src/app/home/promo-codes/page.tsx:15-17 | appends the entry at the end, keeping the earlier entries in order, with no duplicate check; afterwards the empty-list box is gone |
| `PromoCodes.PromoCodesPage.SubmitForm` | src/components/ui/PromoCodeForm.tsx:17-25 | the form appends an entry made of code, discount and influencer, with no name, and closes the dialog |

## Findings

| source | as written | input that shows it | evidently intended | confidence | as-written member | corrected member |
|---|---|---|---|---|---|---|
| src/app/home/subscription/page.tsx:178 | the table is bound to `users`; `filteredUsers` (lines 216-219) is computed but never rendered, so the "Search by name or email" box changes nothing on display | the seed list with the query `nobody-matches-this-query`: the table still shows Alice and Bob, while `filteredUsers` is empty | the table shows `filteredUsers` | not executed; high, since the search result has no other reader | `Subscription.DeadSearchExample` | `Subscription.SubscriptionPage.SearchedRows` |

The page class models the table as written (`SubscriptionPage.DisplayedRows` is the whole list). `SearchedRows` states what the search box evidently means to show.

## Left out

- Rendering: the JSX markup, the table library's sorting, pagination, column visibility and row
  selection. The selected rows of the notification page are a set of row ids.
- Widgets: the date picker and the charts are not modelled. The bar chart's data (`chartData`)
  is modelled.
- Toasts: the text of the toasts is not modelled. The subscription page's toasts are modelled as
  values that name the user and the days left.
- Export: CSV and PDF export.
- Timing: the 500 ms `setTimeout` of the two filters is not modelled. `HandleFilter` is the
  state once the timer has fired; `loading` is only true while it is pending.
- The clock: `new Date()` in `setSubscription` and `grantPremiumToNewUsers` is replaced by a
  `today` parameter, and the ISO date string by a day number.
- Date parsing: `new Date(string)` and its time-zone handling in the filters are not modelled.
  Dates and the picker bounds are day numbers.
  ECMAScript parses a date-only string such as `'2024-01-03'` as UTC midnight, while the picker
  bounds are local midnight (src/app/home/nps/page.tsx:119, src/app/home/ctc/page.tsx:101).
  So the source includes both bounds only in the UTC time zone. East of UTC the end day drops
  out: Charlie's 2024-01-03 review falls outside a January 1 to January 3 range. West of UTC the
  start day drops out.
  `Feedback.DateRangeInclusive` holds for day numbers only.
- Number formatting: `toFixed(2)` is not modelled; scores, percentages and the average are exact
  reals, not strings rounded to two decimals.
- Text, case: `toLowerCase` is modelled for the ASCII letters only. Other characters are left as
  they are.
- Text, storage: strings are sequences of characters rather than UTF-16 code units.
- Non-integer ratings: ratings are integers. The source would put a rating such as 8.5 in no NPS
  bucket, and the three counts would then not add up to the total.
- Record keys: the `id` of performance entries and of promo-code entries is only a React key
  and is not modelled. The numeric `discount` of the list's row type is modelled as the form's
  string.
- User logs: the management page's user-logs tab is a constant list shown as it is.
- Other pages: the login page, the navigation bar and the layout are not part of this model.
- The subscription page's clipboard action is not modelled.
