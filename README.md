# Banking dashboard core, modelled in Dafny

This project models the logic inside a React/TypeScript banking dashboard. It covers:

- the month's balance chart, rebuilt day by day backwards from the current balance;
- the active-card selection rules (the default maximum-balance rule, selection by code, the
  "first card" effect);
- the income/expense pie and the transactions grid;
- the side-menu paths, the route table and the breadcrumb labels;
- the session-storage login state;
- the validators, guards and submit handlers of the login, add-card and payment forms.

Each source file becomes one module. React state that a component updates through setters
becomes a class whose methods say what they change. Rules that only compute become functions,
and lemmas relate them.

Shared modules:

- `Wrappers`: Option/Result.
- `Model`: the transaction, page and card records, plus `cards.find` by code.
- `Forms`: the `/^[0-9]{lo,hi}$/` pattern rules and the error/success/reset outcome of a submit
  handler.

Conventions:

- Money is an `int` in minor units; the y-axis bounds and payment amounts are `real`.
- Day labels are opaque strings. The date formatter is a function parameter.
- Browser session storage is a `map<string, string>`.
- A JavaScript string's `length` counts UTF-16 code units. The password rule models that count.
  The card-number and CVC patterns accept only ASCII digits, where characters and code units
  agree.
- An HTTP request is a parameter describing how it ended: an answer with a status, or a thrown
  error. Its effect on the program is modelled from there.

Points of the code's behaviour a reader might not expect:

- A transaction naming the card on neither side counts as income in the balance chart.
- The default card rule fires again whenever the current card becomes null while cards exist.
- The selector's own effect sets the current card to `cards[0]` whenever the card list changes.
- The y-axis padding is a tenth of the range: for the series [80, 100, 120] the domain is
  [76, 124].

## Model

| member | source | states |
|---|---|---|
| BalanceHistory.GetDaysInMonth | src/components/Dashboard/BalanceHistoryChart.tsx:24-34 | one label per day of the month, day k+1 formatted at index k |
| BalanceHistory.SignedDelta | src/components/Dashboard/BalanceHistoryChart.tsx:63 | (characterised by SignedDeltaCases) −amount when the card sent the transaction, +amount in every other case |
| BalanceHistory.SignedDeltaCases | src/components/Dashboard/BalanceHistoryChart.tsx:63 | the chart's delta agrees with the +recipient/−sender reading when the card is on one side; a transaction naming neither side counts as +amount, a self-transfer as −amount |
| BalanceHistory.AggregatePerDay | src/components/Dashboard/BalanceHistoryChart.tsx:59-65 | the bucket dictionary has exactly the labels of the transactions as keys, and each bucket holds that day's net signed delta |
| BalanceHistory.CalculateBalanceValuesPerDay | src/components/Dashboard/BalanceHistoryChart.tsx:49-82 | the series has `currentDay` entries; entry k is the current balance minus the net of days k+1 to currentDay−1 |
| Wrappers.Get | src/components/Dashboard/BalanceHistoryChart.tsx:75 | the entry under a key exactly when the key is present; the chart reads a missing bucket as 0 through it, and storage and dictionary reads use it too |
| BalanceHistory.Reverse | src/components/Dashboard/BalanceHistoryChart.tsx:81 | the result has the same length, with element k taken from position n−1−k |
| BalanceHistory.LastDayIsCurrentBalance | src/components/Dashboard/BalanceHistoryChart.tsx:69-81 | today's entry is the current balance |
| BalanceHistory.DayOverDayDelta | src/components/Dashboard/BalanceHistoryChart.tsx:72-79 | for 1 ≤ i < currentDay, entry i minus entry i−1 is the net of day i's bucket |
| BalanceHistory.NetBetweenOfNoTransactions | src/components/Dashboard/BalanceHistoryChart.tsx:59-65 | with no transactions every range of days has net 0 |
| BalanceHistory.NoTransactionsGiveFlatSeries | src/components/Dashboard/BalanceHistoryChart.tsx:59-79 | with no transactions every entry is the current balance |
| BalanceHistory.NetBetweenDependsOnlyOnItsDays | src/components/Dashboard/BalanceHistoryChart.tsx:72-79 | the net over a range of days depends only on those days' buckets |
| BalanceHistory.FirstDayNetNeverMatters | src/components/Dashboard/BalanceHistoryChart.tsx:72-79 | two transaction lists that agree on days 2..currentDay give the same series, so day 1's own delta is never reflected |
| BalanceHistory.TransactionOutsideLaterElapsedDaysChangesNothing | src/components/Dashboard/BalanceHistoryChart.tsx:59-79 | a transaction labelled outside days 2..currentDay leaves the series unchanged |
| BalanceHistory.DeviationPercentage | src/components/Dashboard/BalanceHistoryChart.tsx:104-109 | 0 when the first entry is 0; otherwise percentage × start = 100 × deviation |
| BalanceHistory.DeviationValue | src/components/Dashboard/BalanceHistoryChart.tsx:104-105 | (characterised by DeviationIsNetAfterFirstDay) the balance minus the series' first entry, or minus 0 for an empty series |
| BalanceHistory.DeviationIsNetAfterFirstDay | src/components/Dashboard/BalanceHistoryChart.tsx:104-109 | balance minus the first entry is the net of days 2..currentDay |
| BalanceHistory.NetBetweenStep | src/components/Dashboard/BalanceHistoryChart.tsx:59-65 | appending one transaction changes a range's net by its delta exactly when its label is among the range's distinct days |
| BalanceHistory.NetBetweenIsFlow | src/components/Dashboard/BalanceHistoryChart.tsx:59-79 | over distinct labels, the bucket-by-bucket net equals the signed flow of the transactions whose label falls in the range |
| BalanceHistory.NetBetweenSplit | src/components/Dashboard/BalanceHistoryChart.tsx:72-79 | the net over [lo, hi) is the net over [lo, mid) plus the net over [mid, hi) |
| BalanceHistory.Minimum | src/components/Dashboard/BalanceHistoryChart.tsx:118-128 | an element of the series no greater than any element |
| BalanceHistory.Maximum | src/components/Dashboard/BalanceHistoryChart.tsx:118-128 | an element of the series no smaller than any element |
| BalanceHistory.YAxisBounds | src/components/Dashboard/BalanceHistoryChart.tsx:118-128 | every value lies within the bounds; the domain has zero width exactly for a constant series; none for an empty series |
| BalanceHistory.YAxisPadding | src/components/Dashboard/BalanceHistoryChart.tsx:118-128 | the bounds are min − range/10 and max + range/10; [80, 100, 120] gives [76, 124] |
| BalanceHistory.WorkedExample | src/components/Dashboard/BalanceHistoryChart.tsx:49-82 | a card holding 1000 that received 200 on day 9 and sent 50 on day 10 shows 850 up to day 8, 1050 on day 9 and 1000 on day 10 |
| Model.IndexOfCode | src/components/SideMenu/SelectContent.tsx:43-48 | the position of the first card with the code, or the length when there is none |
| Model.FindByCode | src/components/SideMenu/SelectContent.tsx:43-48 | the first card with the code, or none exactly when no card has it |
| CardContext.InsertByBalance | src/components/Context/CardContext.tsx:26 | inserting adds exactly the one card |
| CardContext.SortByBalanceDesc | src/components/Context/CardContext.tsx:26 | the sorted copy is a permutation of the cards |
| CardContext.InsertKeepsDescending | src/components/Context/CardContext.tsx:26 | inserting into a descending list keeps it descending |
| CardContext.SortIsDescending | src/components/Context/CardContext.tsx:26 | the sorted copy is in descending order of balance |
| CardContext.FirstMaxIndex | src/components/Context/CardContext.tsx:25-27 | an index of maximum balance with every earlier card strictly poorer |
| CardContext.SortedHeadIsFirstMax | src/components/Context/CardContext.tsx:26 | the head of the stable descending sort is the earliest card of maximum balance |
| CardContext.DefaultSelection | src/components/Context/CardContext.tsx:24-29 | nothing changes when a card is already chosen or there are no cards; otherwise the earliest maximum-balance card is chosen |
| CardContext.DefaultSelectionSettles | src/components/Context/CardContext.tsx:24-29 | the rule is idempotent, keeps a chosen card, and fires again once the current card is null |
| CardContext.DefaultSelectionExample | src/components/Context/CardContext.tsx:26 | with balances 100, 500, 500 the first 500 card is chosen |
| CardContext.NoSelectionWithoutCards | src/components/Context/CardContext.tsx:17-25 | while the cards query is loading or failed, no card is chosen |
| CardContext.CardProvider.constructor | src/components/Context/CardContext.tsx:17-22 | the cards are the query's data or []; no current card |
| CardContext.CardProvider.QuerySettled | src/components/Context/CardContext.tsx:17-20 | the cards are replaced by the query's data; the current card is kept |
| CardContext.CardProvider.SetCurrentCard | src/components/Context/CardContext.tsx:22 | only the current card changes |
| CardContext.CardProvider.DefaultSelectionEffect | src/components/Context/CardContext.tsx:24-29 | the current card becomes the default selection; `cards` itself is not reordered |
| CardContext.UseCardContext | src/components/Context/CardContext.tsx:37-41 | fails with "useCardContext must be used within CardProvider" exactly outside a provider |
| SelectContent.SelectionAfterChange | src/components/SideMenu/SelectContent.tsx:30-50 | "add-card" and non-string values keep the current card; a code selects the first card with it; an unknown code keeps the current card |
| SelectContent.HandleChange | src/components/SideMenu/SelectContent.tsx:30-50 | navigates to "/addcard" exactly for "add-card"; the current card becomes the selection above; the cards are unchanged |
| SelectContent.FirstCardEffect | src/components/SideMenu/SelectContent.tsx:53-57 | a non-empty card list makes `cards[0]` current; an empty one changes nothing |
| SelectContent.DisplayedValue | src/components/SideMenu/SelectContent.tsx:63 | (characterised by SelectorShowsChosenCode) the current card's code, or "" without one |
| SelectContent.SelectorShowsChosenCode | src/components/SideMenu/SelectContent.tsx:43-48 | after choosing a listed code the selector shows that code; an unknown code keeps what was shown |
| SelectContent.AddCardCodeIsNeverSelected | src/components/SideMenu/SelectContent.tsx:33-36 | choosing "add-card" never changes the current card |
| PieChart.Totals | src/components/Dashboard/CurrentBalancePieChart.tsx:32-43 | the loop's totals are the recipient-side income and the sender-but-not-recipient expense; both are 0 without data |
| PieChart.AppendTransaction | src/components/Dashboard/CurrentBalancePieChart.tsx:37-43 | one more transaction adds to income when the card received it, otherwise to expense when the card sent it, otherwise to neither |
| PieChart.PieAgreesWithBalanceHistory | src/components/Dashboard/CurrentBalancePieChart.tsx:37-43 | when the card is on exactly one side of each transaction, income minus expense equals the balance chart's signed flow |
| PieChart.SelfTransferDisagreement | src/components/Dashboard/CurrentBalancePieChart.tsx:37-43 | a self-transfer is income to the pie but outgoing to the balance chart |
| PieChart.QueryEnabled | src/components/Dashboard/CurrentBalancePieChart.tsx:22-26 | the query runs exactly for a current card with a non-zero id |
| PieChart.Render | src/components/Dashboard/CurrentBalancePieChart.tsx:28-51 | nothing without a current card; otherwise exactly two slices, expenses then incomes, carrying the totals |
| TransactionsGrid.RowData | src/components/Dashboard/CardTransactionsGrid.tsx:68-76 | one row per transaction in order; OUT with the amount negated exactly when the card sent it, else IN with the amount; every row carries the card's code |
| TransactionsGrid.RowAmountIsSignedDelta | src/components/Dashboard/CardTransactionsGrid.tsx:73-74 | a row's amount is the balance chart's signed delta |
| TransactionsGrid.PageTransactions | src/components/Dashboard/CardTransactionsGrid.tsx:68 | (characterised by RowsOfPage) the page's transactions, or none without data |
| TransactionsGrid.RowId | src/components/Dashboard/CardTransactionsGrid.tsx:86 | (characterised by RowsOfPage) a row is keyed by its transaction's code |
| TransactionsGrid.RowsOfPage | src/components/Dashboard/CardTransactionsGrid.tsx:68-86 | no rows without data, one row per transaction of the page otherwise, each keyed by its transaction's code |
| TransactionsGrid.RowCount | src/components/Dashboard/CardTransactionsGrid.tsx:87 | the total element count of the page metadata, or 0 without data |
| TransactionsGrid.RowClassName | src/components/Dashboard/CardTransactionsGrid.tsx:96-98 | "even" exactly for even indices within the page, "odd" otherwise |
| TransactionsGrid.AdjacentRowsAlternate | src/components/Dashboard/CardTransactionsGrid.tsx:96-98 | neighbouring rows have different classes |
| TransactionsGrid.Pagination.constructor | src/components/Dashboard/CardTransactionsGrid.tsx:59-60 | page 0, page size 20 |
| TransactionsGrid.Pagination.OnPaginationModelChange | src/components/Dashboard/CardTransactionsGrid.tsx:91-95 | both page and page size are taken from the grid's model |
| MenuContent.CountWhitespaceLast | src/components/SideMenu/MenuContent.tsx:32 | the whitespace count read from the back agrees with the count read from the front |
| MenuContent.ToLower | src/components/SideMenu/MenuContent.tsx:32 | same length; no upper-case ASCII letter remains; every other character is kept and each upper-case letter becomes its lower-case letter |
| MenuContent.RemoveWhitespace | src/components/SideMenu/MenuContent.tsx:32 | (characterised by RemoveWhitespaceSpec and RemoveWhitespaceAppend) the text with exactly its whitespace characters dropped |
| MenuContent.RemoveWhitespaceSpec | src/components/SideMenu/MenuContent.tsx:32 | removal drops exactly the whitespace characters, leaves none, and adds no upper-case letter |
| MenuContent.RemoveWhitespaceOfClean | src/components/SideMenu/MenuContent.tsx:32 | a text without whitespace is left as it is |
| MenuContent.RemoveWhitespaceAppend | src/components/SideMenu/MenuContent.tsx:32 | removal distributes over concatenation |
| MenuContent.ToLowerKeepsWhitespaceCount | src/components/SideMenu/MenuContent.tsx:32 | lower-casing neither adds nor removes whitespace |
| MenuContent.ToPath | src/components/SideMenu/MenuContent.tsx:31-32 | a path is non-empty and starts with "/" |
| MenuContent.ToPathShape | src/components/SideMenu/MenuContent.tsx:32 | the length is 1 + \|text\| − whitespace count; after the "/" there is no whitespace and no upper-case ASCII letter |
| MenuContent.RemoveWhitespaceOfWord | src/components/SideMenu/MenuContent.tsx:32 | a lower-case word is left as it is |
| MenuContent.RemoveWhitespaceOfTwoWords | src/components/SideMenu/MenuContent.tsx:32 | two lower-case words around a space are joined |
| MenuContent.ToPathDashboard | src/components/SideMenu/MenuContent.tsx:16-25 | "Dashboard" becomes "/dashboard" |
| MenuContent.ToPathNewPayment | src/components/SideMenu/MenuContent.tsx:31-32 | "New Payment" becomes "/newpayment" |
| MenuContent.ToPathAddCard | src/components/SideMenu/MenuContent.tsx:16-25 | "Add Card" becomes "/addcard" |
| MenuContent.ToPathSettings | src/components/SideMenu/MenuContent.tsx:16-25 | "Settings" becomes "/settings" |
| MenuContent.ToPathFeedback | src/components/SideMenu/MenuContent.tsx:16-25 | "Feedback" becomes "/feedback" |
| MenuContent.SelectedFlags | src/components/SideMenu/MenuContent.tsx:38-39 | an item is highlighted exactly when the location's pathname is its derived path |
| MenuContent.MenuMatchesRouteTable | src/components/SideMenu/MenuContent.tsx:16-25 | the menu lists the route table's texts in order, and each text derives its route's path |
| MenuContent.AtMostOneItemSelected | src/components/SideMenu/MenuContent.tsx:58-59 | on any page at most one menu item is highlighted |
| Routes.RouteTableShape | src/routes.tsx:20-31 | all routes are the three main routes then the two secondary ones; the five paths are distinct and each starts with "/" |
| Breadcrumbs.LastTextFor | src/components/Header/NavbarBreadcrumbs.tsx:22-25 | none exactly when no route has the path; otherwise the text of the last route with it |
| Breadcrumbs.PathToTextMap | src/components/Header/NavbarBreadcrumbs.tsx:22-25 | the keys are exactly the routes' paths, and each maps to the last text given for it |
| Breadcrumbs.Breadcrumb | src/components/Header/NavbarBreadcrumbs.tsx:30-41 | exactly "Home" followed by the current label |
| Breadcrumbs.CurrentLabel | src/components/Header/NavbarBreadcrumbs.tsx:27 | (characterised by DistinctPathsLabelTheirRoute, UnknownPathShowsPathname and LaterRouteWins) the last text given for the pathname, or the pathname itself |
| Breadcrumbs.DistinctPathsLabelTheirRoute | src/components/Header/NavbarBreadcrumbs.tsx:27 | with distinct paths, a route's path is labelled with its text |
| Breadcrumbs.KnownPagesShowTheirText | src/components/Header/NavbarBreadcrumbs.tsx:27 | each page of the route table shows its text |
| Breadcrumbs.UnknownPathShowsPathname | src/components/Header/NavbarBreadcrumbs.tsx:27 | an unknown path is labelled with the pathname itself |
| Breadcrumbs.LaterRouteWins | src/components/Header/NavbarBreadcrumbs.tsx:22-27 | when a path is repeated, the later route's text is shown |
| Auth.LoginStorage | src/components/Context/AuthContext.tsx:22-27 | stores "authenticated" = "true" and the user name; all other keys are kept |
| Auth.LogoutStorage | src/components/Context/AuthContext.tsx:29-34 | removes exactly the two keys; all other entries are kept |
| Auth.LogoutIsIdempotent | src/components/Context/AuthContext.tsx:29-34 | logging out twice is logging out once |
| Auth.LoginThenLogout | src/components/Context/AuthContext.tsx:22-34 | logging in then out leaves the storage as logging out alone would |
| Auth.LogoutKeepsToken | src/components/Context/AuthContext.tsx:29-34 | the stored JWT survives logout |
| Auth.AuthProvider.constructor | src/components/Context/AuthContext.tsx:14-20 | the name and the flag start from the storage |
| Auth.AuthProvider.Login | src/components/Context/AuthContext.tsx:22-27 | the storage as above; authenticated, with the name; state and storage agree |
| Auth.AuthProvider.Logout | src/components/Context/AuthContext.tsx:29-34 | the storage as above; not authenticated, with the name ""; state and storage agree |
| Auth.AuthProvider.StoreToken | src/api/login-api.ts:10-14 | only the "jwt" entry is written |
| Auth.AuthProvider.StorageWrittenElsewhere | src/components/Context/AuthContext.tsx:36-43 | another document sharing this tab's session storage replaces it; the React state is untouched |
| Auth.AuthProvider.HandleStorageChange | src/components/Context/AuthContext.tsx:38-40 | only the flag is re-read from the storage; the name is untouched |
| Auth.UseAuth | src/components/Context/AuthContext.tsx:53-59 | fails with "useAuth must be used within an AuthProvider" exactly outside a provider |
| Login.Utf16Length | src/components/Login/Login.tsx:149 | JavaScript's `length`: between the number of characters and twice it, 0 only for "" |
| Login.Utf16LengthOfBmp | src/components/Login/Login.tsx:149 | for characters of the Basic Multilingual Plane the length is the number of characters |
| Login.PasswordValid | src/components/Login/Login.tsx:149 | valid exactly for a UTF-16 length of six or more |
| Login.PasswordRuleCountsCodeUnits | src/components/Login/Login.tsx:149 | three emoji pass the rule; "abcde" fails it |
| Login.LoginApi | src/api/login-api.ts:4-20 | success exactly when the server answered with a non-empty authorization header, whose value is the token |
| Login.SubmitProceedsAsWritten | src/components/Login/Login.tsx:93-112 | (characterised by AsWrittenAgreesAfterValidSubmit and StaleFlagBlocksValidSubmit) the fresh password check, then the error flags of the render that started the submit, then both form values non-empty |
| Login.IntendedSubmitProceeds | src/components/Login/Login.tsx:89-127 | the request is made exactly for a non-empty user name and a password of UTF-16 length six or more |
| Login.AsWrittenAgreesAfterValidSubmit | src/components/Login/Login.tsx:93-102 | once the previous submit's password was valid, the guard as written agrees with the intended one |
| Login.StaleFlagBlocksValidSubmit | src/components/Login/Login.tsx:99-102 | after a submit with password "abc", a submit of "alice"/"secret1" is blocked |
| Login.LoginForm.constructor | src/components/Login/Login.tsx:66-75 | no errors, the dialog closed, empty credentials |
| Login.LoginForm.HandleChange | src/components/Login/Login.tsx:77-79 | only the named field of the credentials changes |
| Login.LoginForm.HandleClickOpen | src/components/Login/Login.tsx:81-83 | only the dialog opens |
| Login.LoginForm.HandleClose | src/components/Login/Login.tsx:85-87 | only the dialog closes |
| Login.LoginForm.ValidatePassword | src/components/Login/Login.tsx:129-159 | the username error is cleared; the password error and message are set exactly when the password is invalid |
| Login.LoginForm.HandleSubmit | src/components/Login/Login.tsx:89-127 | always leaves the username flag and message cleared and the password flag and message set exactly for an invalid password; returns early on an invalid password, a stale flag or an empty field; otherwise returns the credentials the request carried, which are the ones held before the submit and not the submitted values; it stores a returned token, logs in on success, and opens the dialog on failure |
| Login.Redirect | src/components/Login/Login.tsx:161-162 | redirects to "/dashboard" exactly when authenticated |
| Forms.LeadingDigits | src/components/AddCard/AddCard.tsx:100 | the length of the longest all-digit prefix |
| Forms.MatchesDigitsExactly | src/components/AddCard/AddCard.tsx:100 | the pattern matches exactly lo to hi ASCII digits |
| Forms.DigitsFieldError | src/components/AddCard/AddCard.tsx:97-103 | the required message for "", none exactly for lo to hi ASCII digits, the pattern message otherwise |
| AddCard.ExpirationError | src/components/AddCard/AddCard.tsx:128 | the required message exactly for "" |
| AddCard.CardNumberError | src/components/AddCard/AddCard.tsx:97-103 | "Card number is required" for ""; none exactly for 13–19 ASCII digits; the pattern message otherwise |
| AddCard.CvvError | src/components/AddCard/AddCard.tsx:156-162 | "CVC is required" for ""; none exactly for 3 ASCII digits; the pattern message otherwise |
| AddCard.ValidExactly | src/components/AddCard/AddCard.tsx:97-103 | accepted exactly for 13–19 digit numbers, a chosen expiry and a 3-digit CVC; the holder and the save flag play no part |
| AddCard.PlaceholderIsRejected | src/components/AddCard/AddCard.tsx:107 | the spaced placeholder "1234 5678 9012 3456" fails the pattern |
| AddCard.DefaultsAreIncomplete | src/components/AddCard/AddCard.tsx:38-44 | the default values fail the three required rules |
| AddCard.FormatYearMonth | src/components/AddCard/AddCard.tsx:135 | seven characters, digits around a dash at position 4 |
| AddCard.ParseYearMonth | src/components/AddCard/AddCard.tsx:133 | a parsed value is a year up to 9999 and a month 1–12 |
| AddCard.ParseFormatRoundTrip | src/components/AddCard/AddCard.tsx:133-135 | reading back a formatted month gives the month that was picked |
| AddCard.FormatParseRoundTrip | src/components/AddCard/AddCard.tsx:133-135 | a well-formed value is the format of what it reads as |
| AddCard.ExpirationOnChange | src/components/AddCard/AddCard.tsx:134-135 | "" exactly when the picker is cleared; a picked month gives a value that reads back as that month; an invalid date (a partly typed one) gives "Invalid Date", which reads back as no month |
| AddCard.InvalidDateIsSent | src/components/AddCard/AddCard.tsx:128-135 | an "Invalid Date" expiry passes the required rule, so the form is accepted whenever the card number and CVC are, and the request carries "Invalid Date" as the expiry |
| AddCard.ClearedPickerIsRequired | src/components/AddCard/AddCard.tsx:128-135 | the expiry fails its rule exactly when the picker was cleared; a month or an invalid date passes it |
| AddCard.AddCardApi | src/api/card-api.ts:21-43 | "No auth token found" exactly without a token; otherwise true exactly for status 201, and false when the POST fails |
| AddCard.OnSubmitOutcome | src/components/AddCard/AddCard.tsx:50-60 | success and reset exactly when `addCard` returns, whatever it returns, with "Card has been added successfully!" and no error; a thrown error is shown after the prefix |
| AddCard.FailedPostIsReportedAsAdded | src/api/card-api.ts:38-41 | with a token, a failed POST yields false and still shows "Card has been added successfully!" |
| AddCard.IntendedOnSubmitOutcome | src/components/AddCard/AddCard.tsx:50-60 | success and reset exactly for a true answer; an error otherwise |
| AddCard.IntendedSuccessMeansCreated | src/api/card-api.ts:26-37 | with the intended handler, success is shown exactly when a token exists and the server answered 201 |
| AddCard.AddCardForm.constructor | src/components/AddCard/AddCard.tsx:38-48 | default values, no messages |
| AddCard.RequestIgnoresHolder | src/api/card-api.ts:21-30 | the POST body is the same whatever the holder's name and save flag, and carries the stored user name or null |
| AddCard.AddCardForm.PickExpiration | src/components/AddCard/AddCard.tsx:134-135 | only the expiry value changes, to the picker's "YYYY-MM" text, "Invalid Date", or "" |
| AddCard.AddCardForm.OnSubmit | src/components/AddCard/AddCard.tsx:50-60 | both messages cleared, then set from the outcome; a reset restores the defaults; the POST body is returned exactly when a token is stored |
| AddCard.AddCardForm.HandleSubmit | src/components/AddCard/AddCard.tsx:50-60 | the handler runs exactly when every rule passes, and then sends the body exactly when a token is stored; otherwise nothing changes |
| NewPayment.DefaultInput | src/components/NewPayment/NewPayment.tsx:37-43 | the sender is the current card, no recipient, amount 0 |
| NewPayment.SenderError | src/components/NewPayment/NewPayment.tsx:100 | "Please select a card" exactly when no card is selected |
| NewPayment.RecipientError | src/components/NewPayment/NewPayment.tsx:137-143 | "Card number is required" for ""; none exactly for 13–19 ASCII digits; the pattern message otherwise |
| NewPayment.AmountError | src/components/NewPayment/NewPayment.tsx:168-171 | "Amount is required" for an empty field; none exactly for an amount of at least 1; "Amount must be greater than 0" otherwise |
| NewPayment.ValidExactly | src/components/NewPayment/NewPayment.tsx:137-143 | accepted exactly with a selected card, a 13–19 digit recipient and an amount of at least 1 |
| NewPayment.DefaultsAreRejected | src/components/NewPayment/NewPayment.tsx:37-43 | the default values fail the recipient and amount rules |
| NewPayment.SelectedId | src/components/NewPayment/NewPayment.tsx:102 | the sender's code, or "" when there is none |
| NewPayment.SelectSender | src/components/NewPayment/NewPayment.tsx:106-108 | the first card with the chosen code, or none exactly when no card has it |
| NewPayment.SelectorShowsChoice | src/components/NewPayment/NewPayment.tsx:102-108 | a listed code is shown after choosing it; "Choose a card" clears the sender and fails the required rule |
| NewPayment.GuardFires | src/components/NewPayment/NewPayment.tsx:52 | (characterised by GuardOnValidInput) no sender, a sender whose code is "", or an empty recipient |
| NewPayment.GuardOnValidInput | src/components/NewPayment/NewPayment.tsx:52-55 | after the field rules pass, the guard fires only for a selected card with the code "" |
| NewPayment.RequestFor | src/api/card-aggregate-api.ts:4-20 | the sender's code, the recipient, the amount and type "TRANSFER", with whatever token is stored |
| NewPayment.BalanceOperation | src/api/card-aggregate-api.ts:4-24 | a thrown error propagates; an answer gives true exactly for status 201 |
| NewPayment.OnSubmitOutcome | src/components/NewPayment/NewPayment.tsx:48-63 | the guard's message when it fires; otherwise success and reset exactly when the request returns, and the prefixed error text when it throws |
| NewPayment.SuccessMeansSentAndAnswered | src/components/NewPayment/NewPayment.tsx:52-61 | for valid input, success is shown exactly when the sender code is non-empty and the server answered; a 200 and a 201 look the same |
| NewPayment.NewPaymentForm.constructor | src/components/NewPayment/NewPayment.tsx:37-46 | the defaults from the current card, no messages |
| NewPayment.NewPaymentForm.ChooseSender | src/components/NewPayment/NewPayment.tsx:106-108 | only the sender changes, to the selected card |
| NewPayment.NewPaymentForm.OnSubmit | src/components/NewPayment/NewPayment.tsx:48-63 | both messages are cleared; a request is sent exactly when the guard passes; messages and reset follow the outcome |
| NewPayment.NewPaymentForm.HandleSubmit | src/components/NewPayment/NewPayment.tsx:48-63 | the handler runs exactly when every rule passes; otherwise nothing changes |

## Left out

- HTTP transport is not modelled: axios, URLs, headers and the request's asynchrony. Each
  request is a parameter saying how it ended, and only its effect on the program is modelled.
- The cards query (`getAllCards`) and the transaction queries are not modelled. Their data enters
  as parameters, and react-query caching, `keepPreviousData` and stale responses are not modelled.
- Date handling is not modelled: the Europe/Rome `toLocaleDateString` labels and the `new Date`
  arithmetic. Day labels are opaque strings from a formatter parameter, and the number of days in
  the month is a parameter.
- BalanceHistory.CalculateBalanceValuesPerDay: requires currentDay ≤ the number of day labels.
  The only caller passes today's day of the month.
- Floating-point money is not modelled. Amounts are integers in minor units, and the `toFixed(2)`
  rounding of the deviation percentage is left out.
- Float rounding of the y-axis bounds is left out; `real` arithmetic is exact.
- BalanceHistory.YAxisBounds: for an empty series the source computes infinite bounds. The model
  returns no domain instead.
- `ResponsivePieChart` layout and `formatCurrency` are left out, because they are rendering and
  `Intl.NumberFormat` formatting.
- React scheduling is not modelled. In particular, the order between the default-selection
  effect and the selector's first-card effect is left open. Each rule is modelled on its own.
- The selector's `isMenuOpen` toggle is left out because it is presentation state.
- DOM access, `FormData` and react-hook-form's internals are not modelled. The forms keep only
  their rules, guards and handlers, and the login form's submitted values are parameters.
- MenuContent.ToLower: lower-cases ASCII letters only. `toLowerCase` on other scripts is not
  modelled.
- Breadcrumbs.PathToTextMap: the map is a Dafny map. Inherited keys of a JavaScript object, such
  as "constructor", are not modelled.
- The browser's storage event is not modelled. For session storage it reaches only other
  documents that share this tab's storage area, such as a same-origin frame. Here such a write
  is a method, and the listener is a separate method.
- NewPayment.AmountError: the amount is a `real`. The number field's text-to-number coercion is
  not modelled.
- AddCard.ParseYearMonth: years beyond 9999 are not modelled, because the picker's format has
  four year digits.
- `src/model/Card.ts`, `src/model/Credentials.ts` and `src/model/NewCardInput.ts` are not part of
  this model. Their fields are inferred from how the components use them: a card's id, code and
  balance; a user name and password; and the add-card form's fields.
- Server-side pagination is not modelled. The grid receives the page it shows.
- BalanceHistory.CalculateBalanceValuesPerDay: the chart requests its transactions with the
  request's default page 0 of size 20 (BalanceHistoryChart.tsx:96, transaction-api.ts:6-7). A
  month with more than 20 transactions is therefore rebuilt from at most 20 of them. The model's
  series is the card's true history only when `txs` holds every transaction of the elapsed days.
- Logging out keeps the stored JWT (`Auth.LogoutKeepsToken`). This is stated as the code
  behaves, and not treated as a defect.

## Findings

| source | as written | input that shows it | evidently intended | confidence | as-written member | corrected member |
|---|---|---|---|---|---|---|
| src/components/Login/Login.tsx:99-102 | after `validatePassword`, the guard reads `usernameError \|\| passwordError` from the render that started the submit, so the flags of the previous submit decide | submit "alice"/"abc", then "alice"/"secret1": the second submit returns without calling the login API | the request is made whenever the user name is non-empty and the password is valid | high; not executed | Login.StaleFlagBlocksValidSubmit | Login.IntendedSubmitProceeds |
| src/components/AddCard/AddCard.tsx:54-56 | `addCard` catches a failed POST and returns false (src/api/card-api.ts:38-41), and `onSubmit` ignores the result | a stored token and a POST that fails: "Card has been added successfully!" is shown and the form resets | success only when the card was created (status 201); otherwise an error | high; not executed | AddCard.FailedPostIsReportedAsAdded | AddCard.IntendedOnSubmitOutcome |
