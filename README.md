# SmartAuction front end — a verified model

SmartAuction is an online auction site. Users browse auctions and place bids
from a wallet they top up. Admins create auctions and products and follow
revenue. This project models the logic of the site's TypeScript/React front
end in Dafny and proves what that logic promises:

- the countdowns and their labels (whole seconds left, clamped at zero; the
  h/m/s and d/h/m splits; urgency buckets; the padded HH:MM:SS clock);
- the validation guards (bid above the current highest, top-up range, required
  form fields, password confirmation and length);
- the list updates (registering, activating a user, deleting, toggling and
  checking products, the toast queue) and their "only the target changes"
  properties;
- the aggregates (wallet balance, revenue, highest bid, bid statistics,
  distinct auctions, report rows, dashboard figures);
- the two CSV exports;
- the session keys written by logging in and out.

Every page becomes one module. Its pure helpers are functions with lemmas
about them. Its React state becomes a class whose methods state the new
state in full. The shared record types live in `Entities`. Time arithmetic
lives in `Clock`, strings in `Text`, and the array operations (`filter`,
`map`, `reduce`, `flat`, `slice`) in `Seqs`; `Wrappers` holds `Option`.

Conventions:

- Time is whole milliseconds, and the current time is always a parameter
  `now`.
- Amounts are integers. An amount that may be missing (`?? 0` in the code)
  is an `Option`, and so is a `parseFloat` result, whose `None` stands for
  NaN.
- Every answer from the back end is a parameter. A call that can fail is an
  `Option` (`None` when the call throws). Per-item calls (`getAllBids(id)`,
  `getAuctionProductsAdmin(id)`, `getHighestBid(name)`) are functions of the
  id. Where the code catches a failure as an empty list, that function
  already gives the empty list.

## Model

| member | source | states |
|---|---|---|
| Clock.SecondsLeft | src/components/ProductCard.tsx:26-27 | whole seconds left, floored and clamped at 0; 0 exactly when less than a second remains |
| Clock.IsExpiredAt | src/components/ProductCard.tsx:28 | expired exactly when the floored seconds are ≤ 0, i.e. when the clamped countdown is 0 |
| Clock.SplitHms | src/components/ProductCard.tsx:50-52 | minutes < 60, seconds < 60 and hours·3600 + minutes·60 + seconds is the total |
| Clock.HmsUnique | src/components/ProductCard.tsx:50-52 | the hours/minutes/seconds split is the only one with those bounds |
| ProductCard.CardState.constructor | src/components/ProductCard.tsx:17-19 | no time left, no highest bid, not expired |
| ProductCard.CardState.UpdateCountdown | src/components/ProductCard.tsx:24-29 | timeLeft is the clamped seconds left; isExpired holds iff less than a second remains iff timeLeft is 0 |
| ProductCard.CardState.FetchInitialData | src/components/ProductCard.tsx:31-39 | a fetched highest bid is stored and the countdown updated; a failed fetch changes nothing |
| ProductCard.FormatTimeLeft | src/components/ProductCard.tsx:48-56 | "Expired" iff seconds ≤ 0; otherwise "Hh Mm", "Mm Ss" or "Ss" of the split, by the leading non-zero unit |
| ProductCard.UrgencyLevel | src/components/ProductCard.tsx:58-63 | critical iff ≤ 300, urgent iff in (300, 3600], moderate iff in (3600, 86400], normal above |
| ProductCard.UrgencyMonotone | src/components/ProductCard.tsx:58-63 | urgency never rises as more time remains |
| ProductCard.View | src/components/ProductCard.tsx:68-227 | nothing iff expired and not asked to show expired; link "#" iff expired, else "/auction/{id}"; live badge iff asked to show the status and not expired; premium badge iff highest bid > 10000 and not expired; the label is "Place Your Bid" while not expired and "Bidding Closed" exactly when the link is "#"; an expired card shows neither the live nor the premium badge |
| ProductCard.ViewAtTime | src/components/ProductCard.tsx:215-227 | from the clock: the card vanishes iff less than a second is left and expired cards are hidden; with a second or more left it links to the auction |
| AuctionDetail.FindProduct | src/pages/AuctionDetail.tsx:33-34 | the first listed product with the id; None only when no product has it |
| AuctionDetail.DecideBid | src/pages/AuctionDetail.tsx:72-78 | ignored iff product id, bid text or user is empty; rejected iff the amount is a number ≤ the highest bid; a sent amount, if a number, exceeds it |
| AuctionDetail.FormatClock | src/pages/AuctionDetail.tsx:100-101 | "Auction Ended" iff seconds ≤ 0 |
| AuctionDetail.ClockFieldsDigits | src/pages/AuctionDetail.tsx:103-107 | each clock field is all digits, at least two long, and reads back as hours, minutes and seconds |
| AuctionDetail.ClockIsJoin | src/pages/AuctionDetail.tsx:107 | the clock is the three padded fields joined by ':' |
| AuctionDetail.ClockRoundTrip | src/pages/AuctionDetail.tsx:103-107 | reading the clock back gives the seconds shown, for any number of hours (no truncation at 100 hours); three fields of ≥ 2 characters |
| AuctionDetail.DetailState.constructor | src/pages/AuctionDetail.tsx:11-18 | empty state |
| AuctionDetail.DetailState.FetchData | src/pages/AuctionDetail.tsx:24-45 | a sync stores the product, bids and highest bid, and sets the end time to now + remaining seconds · 1000; a failed sync changes nothing |
| AuctionDetail.DetailState.Tick | src/pages/AuctionDetail.tsx:56-65 | with an end time, timeLeft is the clamped seconds left and the bid form shows iff a second or more remains; without one nothing changes |
| AuctionDetail.DetailState.BidFormShown | src/pages/AuctionDetail.tsx:150-210 | a guard with no contract of its own; DetailState.Tick ensures that with an end time the form is shown iff at least 1000 ms remain |
| AuctionDetail.DetailState.PlaceBid | src/pages/AuctionDetail.tsx:70-98 | the decision is DecideBid on the form; a sent bid the service takes clears the form even when the refresh then fails; the refreshed bids and highest bid are stored only when that fetch succeeds; a refused or unsent bid keeps everything |
| AuctionDetail.CountdownAfterSync | src/pages/AuctionDetail.tsx:38-61 | right after a sync the countdown shows the server's seconds, and one less for each whole second elapsed, never below 0 |
| UserAuctions.MyId | src/pages/user/UserAuctions.tsx:61 | the user's id, else the username, else '' |
| UserAuctions.TickerSeconds | src/pages/user/UserAuctions.tsx:103 | the ticker's formula equals the shared seconds-left, never negative, 0 iff under a second remains |
| UserAuctions.CountdownMap | src/pages/user/UserAuctions.tsx:73-78 | the map's keys are exactly the auction ids; each holds the seconds left of the last auction with that id; none is negative |
| UserAuctions.InitRegistered | src/pages/user/UserAuctions.tsx:80-84 | exactly the ids of the auctions whose registrations list the user |
| UserAuctions.IsRegistered | src/pages/user/UserAuctions.tsx:275-276 | a guard with no contract of its own; AuctionsPage.RegisterForAuction ensures every auction with the id counts as registered after a success |
| UserAuctions.SplitDhm | src/pages/user/UserAuctions.tsx:211-213 | hours < 24, minutes < 60, and days·86400 + hours·3600 + minutes·60 ≤ sec < that + 60 |
| UserAuctions.DhmUnique | src/pages/user/UserAuctions.tsx:211-213 | that split is the only one with those bounds |
| UserAuctions.FormatTimeLeft | src/pages/user/UserAuctions.tsx:209-217 | "Ended" iff sec ≤ 0; otherwise "Dd Hh Mm", "Hh Mm" or "Mm" by the leading non-zero unit |
| UserAuctions.FilteredAuctions | src/pages/user/UserAuctions.tsx:219-222 | a sub-list in order, keeping exactly the auctions whose lower-cased name or id contains the lower-cased term; every copy of a kept element is kept and no copy of a dropped one |
| UserAuctions.SearchIgnoresCase | src/pages/user/UserAuctions.tsx:219-222 | the case of the search term does not matter |
| UserAuctions.EmptySearchKeepsAll | src/pages/user/UserAuctions.tsx:219-222 | an empty term keeps every auction |
| UserAuctions.PatchRegistrations | src/pages/user/UserAuctions.tsx:154-160 | auctions with the id get the user appended to their registrations (a missing list counts as empty); every other auction is unchanged |
| UserAuctions.PatchListsMe | src/pages/user/UserAuctions.tsx:154-160 | after the patch the target lists the user and every auction that listed them still does |
| UserAuctions.CurrentHighest | src/pages/user/UserAuctions.tsx:178 | the product's highest bid, 0 when the entry or its value is missing |
| UserAuctions.DecideBid | src/pages/user/UserAuctions.tsx:172-190 | incomplete iff no product, no amount text or no user; too low iff the amount is a number ≤ the current highest; a placed bid carries name, amount and username |
| UserAuctions.AuctionsPage.constructor | src/pages/user/UserAuctions.tsx:55-61 | empty lists and sets, and myId from the user |
| UserAuctions.AuctionsPage.Load | src/pages/user/UserAuctions.tsx:66-91 | on success the auctions; a countdown for exactly their ids, each the seconds left of the last auction with that id; the registered set; a failure changes nothing |
| UserAuctions.AuctionsPage.Tick | src/pages/user/UserAuctions.tsx:96-110 | with auctions, the countdowns are recomputed for every id; with none nothing changes |
| UserAuctions.AuctionsPage.RegisterForAuction | src/pages/user/UserAuctions.tsx:145-164 | on success the id joins the set, only the matching auctions are patched, and they show as registered; on failure nothing changes |
| UserAuctions.AuctionsPage.OpenBidModal | src/pages/user/UserAuctions.tsx:167-170 | the product is selected and the modal shown |
| UserAuctions.AuctionsPage.PlaceBid | src/pages/user/UserAuctions.tsx:172-201 | the outcome is DecideBid; a placed and accepted bid closes and clears the modal; otherwise it is kept |
| AdminProductList.FilteredProducts | src/pages/AdminProductList.tsx:41-47 | a sub-list in order; every kept product matches the search; 'active' keeps only unexpired, 'expired' only expired; every product the mode accepts is kept; every copy of a kept element is kept and no copy of a dropped one |
| AdminProductList.ActiveExpiredPartition | src/pages/AdminProductList.tsx:43-46 | 'active' and 'expired' split the 'all' list: the lengths add up and the multisets add up |
| AdminProductList.SplitHm | src/pages/AdminProductList.tsx:191-192 | minutes < 60 and the duration rounded down to a whole minute is hours·3600000 + minutes·60000 |
| AdminProductList.HmUnique | src/pages/AdminProductList.tsx:191-192 | that split is the only one with those bounds |
| AdminProductList.TimeRemaining | src/pages/AdminProductList.tsx:187-194 | "0h 0m" once the end has passed, otherwise the hours and minutes of the split |
| AdminProductList.WithoutProduct | src/pages/AdminProductList.tsx:120 | a sub-list with no product of that id, keeping every other product; every copy of a kept element is kept and no copy of a dropped one |
| AdminProductList.DeleteAbsent | src/pages/AdminProductList.tsx:120 | deleting an unlisted id changes nothing |
| AdminProductList.ShownHighest | src/pages/AdminProductList.tsx:107 | the stored highest bid when the name has one, else the dash (None) |
| AdminProductList.ProductListPage.constructor | src/pages/AdminProductList.tsx:10-12 | empty lists |
| AdminProductList.ProductListPage.FillHighestBids | src/pages/AdminProductList.tsx:21-31 | the record's keys are exactly the product names; each holds the fetched highest bid, or 0 when the fetch failed |
| AdminProductList.ProductListPage.Load | src/pages/AdminProductList.tsx:15-36 | on success the products (a missing list as empty), and a highest-bid record whose keys are exactly their names, each holding the fetched bid or 0; on failure nothing changes |
| AdminProductList.ProductListPage.DeleteProduct | src/pages/AdminProductList.tsx:116-124 | an accepted delete removes that id; a refused one changes nothing |
| UserWallet.SumAmounts | src/pages/user/UserWallet.tsx:73-74 | defined iff every amount is present, and then the sum of the amounts |
| UserWallet.AllPresentMeans | src/pages/user/UserWallet.tsx:73-74 | all amounts present means each transaction has one |
| UserWallet.SignedSplit | src/pages/user/UserWallet.tsx:72-76 | top-ups minus bids is the sum of signed amounts; other types count in neither |
| UserWallet.TotalAdded | src/pages/user/UserWallet.tsx:73 | defined whenever every amount is present; 0 when there is no top-up |
| UserWallet.TotalSpent | src/pages/user/UserWallet.tsx:74 | defined whenever every amount is present; 0 when there is no bid |
| UserWallet.SplitWhenPresent | src/pages/user/UserWallet.tsx:72-76 | with all amounts present both totals are defined and differ by the signed sum |
| UserWallet.DerivedBalance | src/pages/user/UserWallet.tsx:75 | with every amount present, the running sum of the signed amounts: top-ups in, bids out, other kinds ignored |
| UserWallet.CurrentBalance | src/pages/user/UserWallet.tsx:78 | the API balance when there is one, else the derived balance |
| UserWallet.TopupRange | src/pages/user/UserWallet.tsx:114-118 | accepted iff a number in [10, 100000]; 10 and 100000 accepted, 9 and 100001 refused |
| UserWallet.Escape | src/pages/user/UserWallet.tsx:152 | no shorter than the value |
| UserWallet.EscapeKeepsChars | src/pages/user/UserWallet.tsx:152 | any character other than the quote occurs in the escaped value iff it occurs in the value |
| UserWallet.Quote | src/pages/user/UserWallet.tsx:152 | at least two longer than the value, beginning and ending with a quote |
| UserWallet.Csv | src/pages/user/UserWallet.tsx:144-154 | nothing iff there are no transactions |
| UserWallet.ReadEscaped | src/pages/user/UserWallet.tsx:152 | un-doubling the quotes of an escaped value gives it back |
| UserWallet.QuoteRoundTrip | src/pages/user/UserWallet.tsx:152 | reading a quoted field gives back the value and the rest of the line |
| UserWallet.ParseFieldsJoin | src/pages/user/UserWallet.tsx:152 | the comma-joined quoted fields parse back to the values |
| UserWallet.RowRoundTrip | src/pages/user/UserWallet.tsx:151-153 | every exported row parses back to its values, whatever they contain |
| UserWallet.RowHasNoNewline | src/pages/user/UserWallet.tsx:151-153 | a row has no newline when no value has one |
| UserWallet.CsvLines | src/pages/user/UserWallet.tsx:150-154 | with no newline in keys or values: transactions + 1 lines, the header first, and each line parses back to its transaction's values |
| UserWallet.WalletPage.constructor | src/pages/user/UserWallet.tsx:52-64 | no balance, no transactions, modal closed, no animation |
| UserWallet.WalletPage.LoadData | src/pages/user/UserWallet.tsx:85-108 | signed in: the API balance (null when missing or failed) and the transactions (empty on failure); signed out: nothing changes |
| UserWallet.WalletPage.DoTopup | src/pages/user/UserWallet.tsx:113-139 | sent iff the amount is accepted; an accepted top-up closes and clears the modal, starts the animation and reloads balance and transactions as LoadData does; otherwise the form, balance and transactions are kept |
| UserBids.StatusConfig | src/pages/user/UserBids.tsx:58-65 | 'success' and 'rolledback' have their badge; every other or missing status shows as failed |
| UserBids.CancelMatchesBadge | src/pages/user/UserBids.tsx:153-165 | Cancel is offered exactly when the badge reads "Active" |
| UserBids.BidStats | src/pages/user/UserBids.tsx:185-190 | the total is the sum of amounts (missing as 0); active counts 'success'; active + failed is the count and failed is in [0, count] |
| UserBids.FailedCountsTheRest | src/pages/user/UserBids.tsx:187-188 | failed counts exactly the bids whose status is not 'success' |
| UserBids.TotalCoversEveryStatus | src/pages/user/UserBids.tsx:186-188 | the total is the successful bids' amount plus every other bid's; with no negative amount no bid exceeds it |
| UserBids.BidsPage.constructor | src/pages/user/UserBids.tsx:68-70 | no bids, no rollback running |
| UserBids.BidsPage.LoadUserBids | src/pages/user/UserBids.tsx:79-89 | a successful load replaces the bids; a failed one keeps them |
| UserBids.BidsPage.HandleRollbackBid | src/pages/user/UserBids.tsx:91-109 | a request iff bid id and username are present and the user confirms; an accepted rollback reloads; the busy marker ends cleared |
| UserDashboard.FallbackBalance | src/pages/user/UserDashboard.tsx:72-77 | the fallback balance is the running sum of the signed amounts |
| UserDashboard.FallbackMatchesDerived | src/pages/user/UserDashboard.tsx:72-77 | the fallback equals the wallet page's derived balance when every amount is present |
| UserDashboard.TotalSpent | src/pages/user/UserDashboard.tsx:96 | 0 when no transaction is a bid; top-ups never count as spending |
| UserDashboard.TotalSpentMatchesWallet | src/pages/user/UserDashboard.tsx:96 | with every amount present, it equals the wallet page's amount spent |
| UserDashboard.TotalSpentBounded | src/pages/user/UserDashboard.tsx:96 | with no negative amount, the amount spent is in [0, sum of all amounts] |
| UserDashboard.ActiveAuctions | src/pages/user/UserDashboard.tsx:91 | a sub-list keeping exactly the auctions ending after now; every copy of a kept element is kept and no copy of a dropped one |
| UserDashboard.EndingSoon | src/pages/user/UserDashboard.tsx:92-95 | a sub-list keeping exactly the auctions ending within the next 24 hours; every copy of a kept element is kept and no copy of a dropped one |
| UserDashboard.EndingSoonWithinActive | src/pages/user/UserDashboard.tsx:91-95 | ending-soon is the active list filtered again, so never longer |
| UserDashboard.AuctionIds | src/pages/user/UserDashboard.tsx:135 | exactly the auction ids of the bids, a missing id counting as one value |
| UserDashboard.AuctionIdsBounded | src/pages/user/UserDashboard.tsx:135 | no more distinct auctions than bids, and at least one when there is a bid |
| UserDashboard.SameAuctionCountsOnce | src/pages/user/UserDashboard.tsx:135 | bids on one auction count as one registered auction |
| UserDashboard.RegisteredCount | src/pages/user/UserDashboard.tsx:135 | never more than the number of bids, and at least one when there is a bid |
| UserDashboard.DashboardPage.constructor | src/pages/user/UserDashboard.tsx:37-41 | empty lists, no balance, loading |
| UserDashboard.DashboardPage.LoadDashboardData | src/pages/user/UserDashboard.tsx:46-87 | without a username nothing; otherwise the first five auctions, the transactions, the balance (the fallback when the call fails), the bids, each empty on failure |
| AdminReports.RevenueBounded | src/pages/admin/AdminReports.tsx:98-100 | with no negative amount revenue is in [0, sum of all bid amounts] |
| AdminReports.RevenueOfFlatten | src/pages/admin/AdminReports.tsx:96-100 | the revenue of the joined bid lists is the sum of their revenues |
| AdminReports.Revenue | src/pages/admin/AdminReports.tsx:98-100 | 0 when no bid succeeded; the sum of all amounts when every bid succeeded |
| AdminReports.AuctionRow | src/pages/admin/AdminReports.tsx:86-109 | id, name and end copied; productCount is the product count; bidCount counts every bid on every product; revenue adds up product by product |
| AdminReports.ProductRow | src/pages/admin/AdminReports.tsx:124-139 | fields copied; bidCount is the bid count; highestBid is ≥ 0, ≥ every amount, and 0 or one of them |
| AdminReports.UnassignedRow | src/pages/admin/AdminReports.tsx:144-151 | status 'unassigned', no bids, highest bid 0 |
| AdminReports.AuctionRows | src/pages/admin/AdminReports.tsx:85-110 | one row per auction, in order |
| AdminReports.ProductRows | src/pages/admin/AdminReports.tsx:113-155 | the rows of every auction's products in order, then the unassigned rows |
| AdminReports.ProductRowCount | src/pages/admin/AdminReports.tsx:155 | as many rows as products listed by the auctions plus unassigned products |
| AdminReports.ActiveCount | src/pages/admin/AdminReports.tsx:298-301 | never more than the rows; at least one when a row ends after now; all rows when all do; none when none does |
| AdminReports.TotalRevenueByProduct | src/pages/admin/AdminReports.tsx:314-316 | the summary revenue is the revenue of every product of every auction |
| AdminReports.TotalRevenue | src/pages/admin/AdminReports.tsx:314-316 | with no negative row revenue the summary is not negative and no row's revenue exceeds it |
| AdminReports.ExportCsv | src/pages/admin/AdminReports.tsx:164-172 | nothing iff there are no rows |
| AdminReports.AuctionCells | src/pages/admin/AdminReports.tsx:168-171 | one cell per auction-report key; AuctionCellsReadBack shows each cell lies under the key of its field |
| AdminReports.ProductCells | src/pages/admin/AdminReports.tsx:168-171 | one cell per product-report key; ProductCellsReadBack shows each cell lies under the key of its field |
| AdminReports.ColumnOfMeans | src/pages/admin/AdminReports.tsx:170 | the column found for a key is headed by that key, and none is found iff the key is not a header |
| AdminReports.AuctionColumns | src/pages/admin/AdminReports.tsx:102-109 | the auction header lists id, name, valid_until, productCount, bidCount, revenue in the row object's order |
| AdminReports.ProductColumns | src/pages/admin/AdminReports.tsx:131-138 | the product header lists id, name, description, status, bidCount, highestBid in the row object's order |
| AdminReports.AuctionCellsReadBack | src/pages/admin/AdminReports.tsx:168-171 | looking each field up under its key in the exported cells, numbers read back from their decimal text, gives the auction row back |
| AdminReports.ProductCellsReadBack | src/pages/admin/AdminReports.tsx:168-171 | the same for a product row, a missing description or status coming back as the empty text |
| Text.IntRoundTrip | src/pages/admin/AdminReports.tsx:170 | a number's decimal text, minus sign included, reads back to the number |
| AdminReports.ExportLines | src/pages/admin/AdminReports.tsx:168-172 | with no comma or newline in any cell: rows + 1 lines, the first splits into the keys, each other into its row's cells |
| AdminReports.AuctionRowPlain | src/pages/admin/AdminReports.tsx:168-172 | an auction row exports faithfully when its id and name hold no comma or newline |
| AdminReports.ReportsPage.constructor | src/pages/admin/AdminReports.tsx:62-66 | loading, the auction report, no rows |
| AdminReports.ReportsPage.LoadData | src/pages/admin/AdminReports.tsx:76-162 | the auction rows and the product rows as built above |
| AdminReports.ReportsPage.SelectReport | src/pages/admin/AdminReports.tsx:325-330 | only the report type changes |
| AdminReports.ReportsPage.Export | src/pages/admin/AdminReports.tsx:164-172 | the shown report's CSV; nothing iff that report is empty |
| AdminDashboard.ComputeStats | src/pages/admin/AdminDashboard.tsx:78-113 | auction and unassigned counts; active ≤ total; products are the sum of per-auction counts; bids the sum of per-product counts |
| AdminDashboard.StatsMatchReports | src/pages/admin/AdminDashboard.tsx:95-110 | for the same data the dashboard's revenue, product and bid totals equal the reports page's |
| AdminDashboard.ActiveMatchesReports | src/pages/admin/AdminDashboard.tsx:88-89 | the dashboard's active-auction count equals the reports page's for the same auctions and time |
| AdminDashboard.CanCreateAuction | src/pages/admin/AdminDashboard.tsx:130-135 | a guard with no contract of its own; DashboardPage.HandleCreateAuction sends a request iff it holds, and EmptyFormsRefused shows the emptied form fails it |
| AdminDashboard.CanAddProduct | src/pages/admin/AdminDashboard.tsx:155-160 | a guard with no contract of its own; DashboardPage.HandleAddProduct sends a request iff it holds, and EmptyFormsRefused shows the emptied form fails it |
| AdminDashboard.EmptyFormsRefused | src/pages/admin/AdminDashboard.tsx:125-160 | the emptied forms pass neither guard |
| AdminDashboard.DashboardPage.constructor | src/pages/admin/AdminDashboard.tsx:45-66 | zero stats, empty forms and lists, loading |
| AdminDashboard.DashboardPage.LoadDashboard | src/pages/admin/AdminDashboard.tsx:78-120 | the unassigned products, the stats, the first five auctions; forms untouched |
| AdminDashboard.DashboardPage.ResetAuctionForm | src/pages/admin/AdminDashboard.tsx:125-128 | the three fields and the selection emptied, nothing else changed |
| AdminDashboard.DashboardPage.HandleCreateAuction | src/pages/admin/AdminDashboard.tsx:130-150 | a request iff the guard holds; an accepted one closes the modal and resets the form |
| AdminDashboard.DashboardPage.HandleAddProduct | src/pages/admin/AdminDashboard.tsx:155-175 | a request iff the guard holds; an accepted one closes the modal and resets the form |
| AdminUsers.FindUser | src/pages/admin/AdminUsers.tsx:73 | the first listed user with the id; None iff no user has it |
| AdminUsers.SetStatus | src/pages/admin/AdminUsers.tsx:75-80 | the users with that id get the status; every other user is unchanged; same length |
| AdminUsers.SetStatusOverwrites | src/pages/admin/AdminUsers.tsx:75-80 | a later status change replaces an earlier one |
| AdminUsers.UserAction | src/pages/admin/AdminUsers.tsx:71-83 | 'activate' sets 'active', 'deactivate' sets 'inactive', each with its message; an unknown id or action changes nothing |
| AdminUsers.MatchesSearch | src/pages/admin/AdminUsers.tsx:85-89 | an empty term matches every user |
| AdminUsers.FilteredUsers | src/pages/admin/AdminUsers.tsx:85-89 | a sub-list keeping exactly the users whose name or username contains the term ignoring case, or whose mobile contains it; every copy of a kept element is kept and no copy of a dropped one |
| AdminUsers.EmptySearchListsAll | src/pages/admin/AdminUsers.tsx:85-89 | an empty term lists everyone |
| AdminUsers.SearchIgnoresStatus | src/pages/admin/AdminUsers.tsx:85-89 | a status change does not change how many users the search finds |
| AdminUsers.ActiveUsers | src/pages/admin/AdminUsers.tsx:175 | never more than the number of users |
| AdminUsers.InactiveUsers | src/pages/admin/AdminUsers.tsx:208 | active + inactive is the number of users |
| AdminUsers.InactiveCountsTheRest | src/pages/admin/AdminUsers.tsx:208 | inactive counts exactly the users whose status is not 'active' |
| AdminUsers.ActivateCounts | src/pages/admin/AdminUsers.tsx:75-77 | activating a listed inactive user raises the active count |
| AdminUsers.ActivateNeverLowers | src/pages/admin/AdminUsers.tsx:75-77 | activating never lowers the active count |
| AdminUsers.WalletTotalIgnoresStatus | src/pages/admin/AdminUsers.tsx:176 | a status change leaves the wallet total unchanged |
| AdminUsers.TotalWalletBalance | src/pages/admin/AdminUsers.tsx:176 | with no negative balance the total is not negative and no user's balance exceeds it |
| AdminUsers.UsersPage.constructor | src/pages/admin/AdminUsers.tsx:66-67 | the initial list and an empty search |
| AdminUsers.UsersPage.HandleUserAction | src/pages/admin/AdminUsers.tsx:71-83 | the new list and message are UserAction's |
| AdminAuctions.EditAllowsEmptySelection | src/pages/admin/AdminAuctions.tsx:65-89 | editing needs an auction, a name and an end, not an id or a product; creating refuses an empty selection |
| AdminAuctions.CheckProduct | src/pages/admin/AdminAuctions.tsx:296-301 | checking appends the id; unchecking removes every occurrence of it |
| AdminAuctions.CheckThenUncheck | src/pages/admin/AdminAuctions.tsx:296-301 | checking an absent id then unchecking it restores the selection; unchecking an absent id changes nothing |
| AdminAuctions.UncheckKeepsOthers | src/pages/admin/AdminAuctions.tsx:300 | unchecking keeps every other id as often as before |
| AdminAuctions.CanEditAuction | src/pages/admin/AdminAuctions.tsx:85-89 | a guard with no contract of its own; AuctionsPage.HandleEditAuction sends a request iff it holds, and EditAllowsEmptySelection shows it ignores the id and the selection |
| AdminAuctions.AuctionsPage.constructor | src/pages/admin/AdminAuctions.tsx:31-42 | empty lists and form, nothing edited, loading |
| AdminAuctions.AuctionsPage.LoadData | src/pages/admin/AdminAuctions.tsx:49-62 | both lists on success, none on failure; loading ends |
| AdminAuctions.AuctionsPage.ResetForm | src/pages/admin/AdminAuctions.tsx:129-133 | fields cleared, selection empty, nothing being edited |
| AdminAuctions.AuctionsPage.OpenEditModal | src/pages/admin/AdminAuctions.tsx:135-143 | the auction is edited, its fields copied, the selection is its product ids or empty |
| AdminAuctions.AuctionsPage.ToggleCheckbox | src/pages/admin/AdminAuctions.tsx:296-301 | only the selection changes, as CheckProduct says |
| AdminAuctions.AuctionsPage.HandleCreateAuction | src/pages/admin/AdminAuctions.tsx:64-83 | a request iff the create guard holds; an accepted one closes the modal and resets |
| AdminAuctions.AuctionsPage.HandleEditAuction | src/pages/admin/AdminAuctions.tsx:85-106 | a request for the edited id iff the edit guard holds; an accepted one closes the modal and resets |
| AdminProducts.DecideUpdate | src/pages/admin/AdminProducts.tsx:120-130 | nothing without a product being edited; refused iff name or description is empty; else the update of that product |
| AdminProducts.EditForm | src/pages/admin/AdminProducts.tsx:114-117 | id and name copied, a missing description as '' |
| AdminProducts.OpenEditThenUpdate | src/pages/admin/AdminProducts.tsx:114-130 | saving an opened complete product unchanged sends its own fields |
| AdminProducts.MissingDescriptionBlocksUpdate | src/pages/admin/AdminProducts.tsx:114-125 | a product opened without description cannot be saved as is |
| AdminProducts.ProductsPage.constructor | src/pages/admin/AdminProducts.tsx:38-50 | empty lists, the unassigned tab, loading |
| AdminProducts.ProductsPage.FillByAuction | src/pages/admin/AdminProducts.tsx:69-77 | the map's keys are exactly the auction ids, each with that auction's products |
| AdminProducts.ProductsPage.Refresh | src/pages/admin/AdminProducts.tsx:58-89 | both lists and the map stored; the first auction selected only when there is one and none was selected |
| AdminProducts.ProductsPage.ResetForm | src/pages/admin/AdminProducts.tsx:92-95 | the form emptied and nothing edited |
| AdminProducts.ProductsPage.OpenEdit | src/pages/admin/AdminProducts.tsx:114-118 | the product edited, the form filled, the modal shown |
| AdminProducts.ProductsPage.CreateProduct | src/pages/admin/AdminProducts.tsx:97-112 | a request iff id, name and description are filled; an accepted one closes the modal and resets |
| AdminProducts.ProductsPage.UpdateProduct | src/pages/admin/AdminProducts.tsx:120-141 | the outcome is DecideUpdate; an accepted update closes the modal and resets |
| AdminProducts.ByAuctionAfterRefresh | src/pages/admin/AdminProducts.tsx:230 | after a refresh the badge is the sum of the auctions' product counts |
| AdminProducts.ByAuctionCount | src/pages/admin/AdminProducts.tsx:230 | never negative, and at least the product count of every auction in the map |
| CreateAuction.ChangeField | src/pages/CreateAuction.tsx:56-61 | the named field takes the value; every other field keeps its own |
| CreateAuction.Toggle | src/pages/CreateAuction.tsx:63-69 | a selected id is removed everywhere, an absent one appended; only its membership flips |
| CreateAuction.ToggleTwice | src/pages/CreateAuction.tsx:63-69 | toggling an absent id twice restores the list |
| CreateAuction.ToggleDistinct | src/pages/CreateAuction.tsx:63-69 | toggling keeps a selection free of duplicates |
| CreateAuction.SelectedDetails | src/pages/CreateAuction.tsx:71-73 | a sub-list of the available products keeping exactly those whose id is selected; every copy of a kept element is kept and no copy of a dropped one |
| CreateAuction.SelectedDetailsExtremes | src/pages/CreateAuction.tsx:71-73 | nothing selected shows nothing; all selected shows all |
| CreateAuction.CreateAuctionPage.constructor | src/pages/CreateAuction.tsx:9-16 | not loading, no products, empty form |
| CreateAuction.CreateAuctionPage.FetchProducts | src/pages/CreateAuction.tsx:18-28 | a successful fetch replaces the products; a failed one keeps them |
| CreateAuction.CreateAuctionPage.HandleChange | src/pages/CreateAuction.tsx:56-61 | only the form changes, as ChangeField says |
| CreateAuction.CreateAuctionPage.ToggleProduct | src/pages/CreateAuction.tsx:63-69 | only the selection changes, as Toggle says |
| CreateAuction.CreateAuctionPage.HandleSubmit | src/pages/CreateAuction.tsx:31-54 | no request with an empty selection; otherwise form plus selection, and "/admin" after an accepted create |
| AdminSettings.CheckPasswordChange | src/pages/admin/AdminSettings.tsx:67-85 | a mismatch is reported first, then a new password under 6 characters; otherwise a request with the username or '', both passwords and role 'admin' |
| AdminSettings.PasswordBoundary | src/pages/admin/AdminSettings.tsx:68-76 | 6 characters pass, 5 fail, a short mismatch is reported as a mismatch |
| AdminSettings.ProfileOf | src/pages/admin/AdminSettings.tsx:45-53 | each profile field from the admin, '' when missing |
| AdminSettings.SettingsPage.constructor | src/pages/admin/AdminSettings.tsx:31-41 | empty fields, not loading |
| AdminSettings.SettingsPage.SyncProfile | src/pages/admin/AdminSettings.tsx:45-53 | with an admin the profile is filled; without one nothing changes |
| AdminSettings.SettingsPage.HandlePasswordChange | src/pages/admin/AdminSettings.tsx:67-98 | the verdict of the checks; an accepted change clears the three fields, anything else keeps them |
| Dashboard.Visible | src/pages/Dashboard.tsx:31-51 | a sub-list keeping exactly the products matching the term (or any, without one) and the status; every copy of a kept element is kept and no copy of a dropped one |
| Dashboard.SearchStep | src/pages/Dashboard.tsx:34-39 | the search step keeps all products when the term is empty |
| Dashboard.StatusStep | src/pages/Dashboard.tsx:42-49 | the status step keeps all products for 'all' |
| Dashboard.StepsAreVisible | src/pages/Dashboard.tsx:31-51 | the two steps in turn keep exactly the visible products |
| Dashboard.StepwiseIsVisible | src/pages/Dashboard.tsx:31-51 | the effect's search step then status step, each only when set, list exactly the visible products |
| Dashboard.DashboardPage.constructor | src/pages/Dashboard.tsx:8-12 | empty lists, loading, no term, 'all' |
| Dashboard.DashboardPage.FetchProducts | src/pages/Dashboard.tsx:14-28 | both lists take the data; a failure keeps them; loading ends |
| Dashboard.DashboardPage.ApplyFilters | src/pages/Dashboard.tsx:30-52 | the filtered list is exactly the visible products, nothing else changes |
| Dashboard.NoFilterListsAll | src/pages/Dashboard.tsx:31-51 | no term and 'all' list every product |
| Dashboard.CountsPartition | src/pages/Dashboard.tsx:54-55 | for one now, active + expired is the number of products |
| Dashboard.ActiveCount | src/pages/Dashboard.tsx:54 | never more than the products; at least one when a product ends after now |
| Dashboard.ExpiredCount | src/pages/Dashboard.tsx:55 | never more than the products; at least one when a product ended at or before now |
| Dashboard.StatusViewsMatchCounts | src/pages/Dashboard.tsx:42-55 | without a term the 'active' and 'expired' views are as long as the two figures; expiry agrees with the admin list's |
| Toast.BackgroundColor | src/components/ui/Toast.tsx:36-41 | each kind's background classes |
| Toast.RenderToast | src/components/ui/Toast.tsx:26-60 | nothing iff not visible; else the kind's background and the message |
| Toast.BackgroundTellsKind | src/components/ui/Toast.tsx:36-41 | distinct kinds have distinct backgrounds |
| Toast.CloseDelay | src/components/ui/Toast.tsx:17-24 | a timer only for a visible toast with a positive duration; 5000 ms when no duration is given; the given duration otherwise |
| Toast.WithoutToast | src/components/ui/Toast.tsx:75-77 | a sub-list with no toast of that id, keeping every other toast; every copy of a kept element is kept and no copy of a dropped one |
| Toast.RemoveAbsent | src/components/ui/Toast.tsx:75-77 | removing an absent id changes nothing |
| Toast.ShowThenRemove | src/components/ui/Toast.tsx:70-77 | showing a toast under a fresh id and removing it restores the queue |
| Toast.ToastQueue.constructor | src/components/ui/Toast.tsx:65-69 | an empty queue |
| Toast.ToastQueue.ShowToast | src/components/ui/Toast.tsx:70-73 | exactly one toast appended, the others unchanged |
| Toast.ToastQueue.RemoveToast | src/components/ui/Toast.tsx:75-77 | the queue without that id |
| Toast.ToastQueue.ShowSuccess | src/components/ui/Toast.tsx:94 | a 'success' toast appended |
| Toast.ToastQueue.ShowError | src/components/ui/Toast.tsx:95 | an 'error' toast appended |
| Toast.ToastQueue.ShowInfo | src/components/ui/Toast.tsx:96 | an 'info' toast appended |
| Toast.ToastQueue.ShowWarning | src/components/ui/Toast.tsx:97 | a 'warning' toast appended |
| Toast.ToastQueue.Rendered | src/components/ui/Toast.tsx:79-91 | one visible toast per queued entry, in order |
| AuthService.Cleared | src/services/authService.ts:69-74 | the four session keys gone, every other key and value kept |
| AuthService.ClearedIdempotent | src/services/authService.ts:69-74 | logging out twice is logging out once |
| AuthService.SessionStore.constructor | src/services/authService.ts:21 | the storage as found |
| AuthService.SessionStore.UserLogin | src/services/authService.ts:25-32 | 'token' and 'user' written only when the answer has a token; then authenticated |
| AuthService.SessionStore.AdminLogin | src/services/authService.ts:47-54 | 'admin_token' and 'admin' written only when the answer has a token; then admin-authenticated |
| AuthService.SessionStore.Logout | src/services/authService.ts:69-74 | exactly the four keys removed; afterwards neither check holds and no current user or admin |
| AuthService.SessionStore.CurrentUser | src/services/authService.ts:79-82 | the stored user iff 'user' is present and non-empty |
| AuthService.SessionStore.CurrentAdmin | src/services/authService.ts:84-87 | the stored admin iff 'admin' is present and non-empty |
| AuthService.SessionStore.IsAuthenticated | src/services/authService.ts:97-99 | a check with no contract of its own; SessionStore.UserLogin makes it true for a non-empty token and SessionStore.Logout makes it false |
| AuthService.SessionStore.IsAdminAuthenticated | src/services/authService.ts:101-103 | a check with no contract of its own; SessionStore.AdminLogin makes it true for a non-empty token and SessionStore.Logout makes it false |
| AuthService.LoginThenLogout | src/services/authService.ts:25-74 | a login followed by a logout leaves what a logout alone leaves |
| AuthService.SessionsIndependent | src/services/authService.ts:25-54 | a user login leaves the admin session as it was, and the other way round |

## Left out

- backend/agentCode.py is not part of this model. It only builds one request for an external voice-agent service, and the states it describes are prompt text that service interprets.
- The HTTP services (src/services/api.ts, auctionService.ts, walletService.ts) are not part of this model. Their answers are parameters, and a failed call is `None` or the empty list the code falls back to.
- JSX rendering, styling and routing are left out. Only the decisions that choose what is shown are modelled (card badges, link, toast background, status badge).
- Timers and concurrency are left out: `setInterval` ticks, the toast auto-dismiss timer, the success-animation timeouts, the 10-second re-sync, and the order in which `Promise.all` calls finish. Each tick is one method call. The per-item fetches depend only on the id, so their order cannot change the result.
- Date parsing and locale formatting (`new Date`, `toLocaleString`) are left out. Timestamps are integer milliseconds.
- AdminAuctions.AuctionsPage.OpenEditModal: takes the auction's `valid_until` text as a parameter. `Auction` keeps only the parsed milliseconds.
- AdminReports.AuctionCells: writes `valid_until` as its millisecond count. The page writes the service's date text.
- Floating point is left out. Amounts are integers, and NaN is `None`.
  - AuctionDetail and UserAuctions: a NaN bid is not below the highest bid, so it is sent, as in the code. The number input keeps such text out of the form.
  - UserWallet.SumAmounts: a transaction without an amount makes the sum NaN (`None`), because the wallet page adds amounts without `?? 0`.
- The random toast ids are left out: `Math.random` ids are given as a parameter.
- Browser side effects are left out: `window.confirm` is a parameter, and so is whether the service accepted. `alert`, the Blob/anchor download and navigation are left out; only the CSV text and the target path are modelled.
- The AuthContext plumbing is left out. The signed-in user or admin is a parameter.
- `JSON.stringify` and `JSON.parse` of the stored account are left out. The store keeps the text it was given, and the current user or admin is that text.
- Text.Lower: lower-cases ASCII letters only. JavaScript's `toLowerCase` also maps other scripts.
- AdminSettings.CheckPasswordChange: measures the password in Unicode characters. JavaScript's `length` counts UTF-16 units, so the two differ only for characters outside the Basic Multilingual Plane.
- UserBids.StatusConfig: ignores that `statusConfig['constructor']`-style keys would find inherited object members.
- Several figures call `new Date()` once per element; the model uses one `now` for a whole list. This affects AdminProductList.FilteredProducts, Dashboard.ActiveCount, Dashboard.ExpiredCount, UserAuctions.CountdownMap (src/pages/user/UserAuctions.tsx:74-77 and :207) and AdminReports.ActiveCount (src/pages/admin/AdminReports.tsx:300).
- UserAuctions `loadAuctionProducts` and `handleViewProducts` are not modelled. The highest-bid map they fill is a parameter of UserAuctions.DecideBid.
- The admin pages' delete and settle handlers are not modelled: AdminAuctions `handleDeleteAuction` and `handleSettleAuction`, and AdminProducts `deleteProduct`. They only confirm, call the service and reload. The AdminSettings profile update is not modelled either, because it is a mock that changes nothing.
- AdminReports.ProductRows: the page fetches each auction's products a second time for the product report. The model uses one answer per auction for both reports.
- AuthService: registration and password-change requests are not modelled; they are plain HTTP calls.
- AuthService.SessionStore.IsAuthenticated, IsAdminAuthenticated, CurrentUser and CurrentAdmin treat a stored empty string as absent, because the code tests `!!sessionStorage.getItem(key)`.
