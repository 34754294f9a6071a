# Trading dashboard client — Dafny model

This project models the browser client of the trading-bot dashboard: a React single-page app
served under `/dashboard` that signs a user in through GitHub, then shows the portfolio,
the transaction history, the log stream and a control panel for the three bots (Kalshi,
Crypto, Grid).

What the model covers:

- **Data layer** (`use_api.dfy`).
  - `request` turns one HTTP exchange into a value or an error record (`UseApi.Classify`).
  - The four pollers (portfolio, transactions, logs, bots) are classes. Their state fields
    are rewritten by each fetch, and their timers live in an `Intervals` table.
  - The manual-call helper `ApiCaller` sends one-off requests.
- **Session** (`use_auth.dfy`): a state machine over a key-value store holding
  `auth_token` and `user`. It covers load, OAuth callback, logout and profile refresh.
- **Pages**:
  - `logs.dfy`: the client filter, the colour tables, the module column and the
    auto-refresh effect.
  - `transactions.dfy`: the sort toggle and comparator, CSV export, P&L and win rate,
    pagination.
  - `portfolio.dfy`: the card selection, the position filter, the allocation pie and the
    render order.
  - `bot_control.dfy`: the confirmation dialog table, the endpoint table, the status label
    and the button rules.
- **Application shell** (`app.dfy`): the loading gate, the route table, protected routes,
  the sidebar's active item, the sidebar flag and the error boundary.
- **Shared helpers**:
  - `prelude.dfy`: `Option` and JavaScript truthiness.
  - `text.dfy`: ASCII case mapping, `includes`, `join`, decimal text.
  - `seqs.dfy`: `filter` and a stable sort.
  - `api_types.dfy`: the API records.

I/O enters as function parameters:

- The network is `send: Outgoing -> Reply<T>`. A reply is a response with status,
  status text, content type and a body, or a thrown transport fault. A body parsed to a
  value, parsed to JSON `null`, or did not parse.
- `localStorage` is a map plus two fault sources: the whole store can be unavailable, and an
  available store can refuse a particular write (an exceeded quota).
- `JSON.parse` is a parameter that may reject its input, and `JSON.stringify` is a
  parameter too.
- Clocks are functions from an offset to a timestamp string.
- Number and date formatting are functions to strings.

Every fetch is one atomic step.

Where the written specification and the code disagree, the model follows the code:

- `request` does not log the user out on a 401. It only records the error (`useApi.ts:59-67`).
- `call` does not check for a token (`useApi.ts:335-351`).
- `isAuthenticated` is `!!token && !!user`, so an empty stored token does not authenticate
  (`useAuth.ts:190`). `loadAuth` likewise skips an empty token or user (`useAuth.ts:37-43`).
- The Transactions page passes its `token` prop as the `limit` argument of
  `useTransactions`. The app renders the page without that prop, so the default limit of 50
  applies (`Transactions.tsx:24`, `useApi.ts:156`). `TransactionsPage.constructor` models it
  that way.
- `stopPolling` clears the stored interval but does not reset the stored handle
  (`useApi.ts:262-266`).

## Model

| member | source | states |
|---|---|---|
| Prelude.OrUndefined | dashboard/src/pages/Logs.tsx:97 | `x \|\| undefined`: the result is truthy exactly when the string is non-empty, and then it carries the string |
| Text.ReplaceFirst | dashboard/src/pages/BotControl.tsx:182 | `String.replace` with a one-character pattern: same length, only the first occurrence is changed, no occurrence means no change |
| Text.IntToStringRoundTrip | dashboard/src/hooks/useApi.ts:174-175 | the decimal text of an integer parses back to the same integer |
| Seqs.SortByOrdered | dashboard/src/pages/Transactions.tsx:82-95 | under an antisymmetric comparator the sorted copy has every neighbouring pair in order (beside `SortBy`'s permutation contract) |
| UseApi.ApiUrl | dashboard/src/hooks/useApi.ts:9 | the configured API URL when it is non-empty, otherwise `http://localhost:8000` |
| UseApi.ServerErrorMessage | dashboard/src/hooks/useApi.ts:69-71 | the body's `message` if truthy, else its `error` if truthy, else the status text |
| UseApi.Classify | dashboard/src/hooks/useApi.ts:35-94 | never both a value and an error; no value and no error exactly for a 2xx body that is JSON `null`; a value only from a 2xx non-HTML reply; HTML gives 401 and the session-expired message even for a 200; 401/403 keep their status and the unauthorized message; other failures keep the status and the body's message, or give "API request failed: …" when the body is `null` and reading its `message` throws; 204 gives an empty object; other 2xx give the parsed body, null, or a caught parse fault; a transport fault gives "API request failed: …" with no status |
| UseApi.ErrorStatusOrigin | dashboard/src/hooks/useApi.ts:50-75 | a recorded status is the response's own status, or 401 for an HTML page |
| UseApi.UnauthorizedIgnoresBody | dashboard/src/hooks/useApi.ts:59-67 | a 401/403 outcome does not depend on the body |
| UseApi.HtmlPageReadsAsUnauthorized | dashboard/src/hooks/useApi.ts:50-57 | an HTML page served with 200 and a real 401 both record status 401 and return no value |
| UseApi.Lookup | dashboard/src/hooks/useAuth.ts:98-100 | `URLSearchParams.get`: a value exactly when the key is among the parameter names |
| UseApi.LookupAppendIf | dashboard/src/hooks/useApi.ts:176-177 | a conditional append adds its key last, and only when the value is truthy; other keys read as before |
| UseApi.TransactionsQuery | dashboard/src/hooks/useApi.ts:171-180 | parameters in the order page, limit, bot, search; bot and search only when non-empty; each reads back its value |
| UseApi.TransactionsQueryDecodes | dashboard/src/hooks/useApi.ts:174-175 | page and limit read back as the numbers asked for |
| UseApi.LogsQuery | dashboard/src/hooks/useApi.ts:220-229 | parameters in the order limit, bot, level, search; the optional ones only when non-empty; each reads back its value |
| UseApi.LogsQueryLimitFirst | dashboard/src/hooks/useApi.ts:220-223 | without a limit argument the limit parameter is "100" |
| UseApi.ApiClient.Request | dashboard/src/hooks/useApi.ts:30-97 | one request to base URL + path with JSON content type and credentials; the return value and the error slot are the classification of the reply |
| UseApi.Intervals.SetInterval | dashboard/src/hooks/useApi.ts:132 | registers a new interval under a fresh positive handle, leaving the others |
| UseApi.Intervals.ClearInterval | dashboard/src/hooks/useApi.ts:134-138 | removes exactly that handle; an unknown handle is ignored |
| UseApi.PortfolioPoller.constructor | dashboard/src/hooks/useApi.ts:107-112 | no snapshot, loading, no error, no timer |
| UseApi.PortfolioPoller.FetchPortfolio | dashboard/src/hooks/useApi.ts:114-125 | one GET of `/api/portfolio`; a value replaces the snapshot and clears the error; no value (an error, or a `null` body) keeps the snapshot and records "Failed to fetch portfolio data"; loading ends either way; the timer is untouched |
| UseApi.PortfolioPoller.Mount | dashboard/src/hooks/useApi.ts:127-133 | one immediate fetch with exactly the outcome `FetchPortfolio` states (its GET, the new snapshot and error), then exactly one live interval of `pollInterval` |
| UseApi.PortfolioPoller.Unmount | dashboard/src/hooks/useApi.ts:134-138 | no interval is left live |
| UseApi.PortfolioPoller.Tick | dashboard/src/hooks/useApi.ts:132 | a live interval performs the fetch `FetchPortfolio` states (its GET, the new snapshot and error); a cleared one changes nothing; the timer is untouched |
| UseApi.PortfolioPoller.Refresh | dashboard/src/hooks/useApi.ts:144-146 | one fetch with the outcome `FetchPortfolio` states; the stored timer is untouched |
| UseApi.BotsPoller.constructor | dashboard/src/hooks/useApi.ts:279-284 | empty list, loading, no error, no timer |
| UseApi.BotsPoller.Fetch | dashboard/src/hooks/useApi.ts:286-297 | one GET of `/api/bots`; a value replaces the list and clears the error, no value keeps it and records "Failed to fetch bot status"; loading ends; the timer is untouched |
| UseApi.BotsPoller.Mount | dashboard/src/hooks/useApi.ts:299-301 | one immediate fetch with the outcome `Fetch` states (its GET, the new list and error), then exactly one live 30 s interval |
| UseApi.BotsPoller.Unmount | dashboard/src/hooks/useApi.ts:303-307 | no interval is left live |
| UseApi.BotsPoller.Tick | dashboard/src/hooks/useApi.ts:301 | a live interval performs the fetch `Fetch` states; a cleared one changes nothing; the timer is untouched |
| UseApi.BotsPoller.Refresh | dashboard/src/hooks/useApi.ts:313-315 | one fetch with the outcome `Fetch` states; the stored timer is untouched |
| UseApi.TransactionsPoller.constructor | dashboard/src/hooks/useApi.ts:156-162 | empty list, total 0, no more pages, not loading |
| UseApi.TransactionsPoller.Fetch | dashboard/src/hooks/useApi.ts:170-196 | one GET with the transactions query; a page replaces items, total and hasMore wholesale; a 204 leaves all three undefined; no value keeps them and records "Failed to fetch transactions" |
| UseApi.LogsPoller.constructor | dashboard/src/hooks/useApi.ts:205-210 | empty list, not loading, no timer |
| UseApi.LogsPoller.Fetch | dashboard/src/hooks/useApi.ts:219-243 | one GET with the logs query; the items replace the list and are never appended; no value keeps it and records "Failed to fetch logs" |
| UseApi.LogsPoller.StartPolling | dashboard/src/hooks/useApi.ts:248-257 | one immediate fetch with limit 100 and the outcome `Fetch` states (its GET, the new list and error), then one new 10 s interval carrying the same filters; an interval still live is not cleared |
| UseApi.LogsPoller.StopPolling | dashboard/src/hooks/useApi.ts:262-270 | clears the stored handle if any; the handle itself is kept |
| UseApi.LogsPoller.Tick | dashboard/src/hooks/useApi.ts:251-254 | a live interval repeats the fetch with its own filters and limit 100, with the outcome `Fetch` states; a cleared one does nothing; the timer is untouched |
| UseApi.ApiCaller.Call | dashboard/src/hooks/useApi.ts:335-351 | exactly one request with the given method and optional body; returns the request's value; loading is reset; the caller's own error slot is never written |
| UseAuth.Store.Get | dashboard/src/hooks/useAuth.ts:34-35 | the stored string exactly when the key is present |
| UseAuth.Store.SetItem | dashboard/src/hooks/useAuth.ts:83-84 | throws the unavailable store's fault, or the fault this particular write is refused with (an exceeded quota), and then writes nothing; otherwise writes the key |
| UseAuth.Store.RemoveItem | dashboard/src/hooks/useAuth.ts:134-135 | removes the key, or throws the store's fault and removes nothing |
| UseAuth.AuthHeader | dashboard/src/hooks/useAuth.ts:210-215 | no header iff the token is null or empty, otherwise exactly one `Authorization` entry |
| UseAuth.AuthHeaderCarriesToken | dashboard/src/hooks/useAuth.ts:210-215 | the header is `Bearer ` followed by the token |
| UseAuth.GetStoredToken | dashboard/src/hooks/useAuth.ts:230-236 | the stored token, or null when absent or when the store throws |
| UseAuth.ClearAuthData | dashboard/src/hooks/useAuth.ts:221-224 | removes the two auth keys and nothing else; a store fault propagates before anything is removed |
| UseAuth.LoginUrl | dashboard/src/hooks/useAuth.ts:64 | the API URL followed by `/api/auth/github/login` |
| UseAuth.Session.constructor | dashboard/src/hooks/useAuth.ts:23-26 | no token, no user, loading, no error |
| UseAuth.Session.IsAuthenticated | dashboard/src/hooks/useAuth.ts:190 | `!!token && !!user`; its contract is carried by `LoadAuth`, `HandleAuthCallback` and `Logout`, whose ensures say when a session is authenticated |
| UseAuth.Session.LoadAuth | dashboard/src/hooks/useAuth.ts:31-54 | restores a non-empty token and a non-empty parsed user; a store fault or an unparsable user sets "Failed to load authentication state" (the token is already restored by then); loading ends on every path; a stored non-empty token with a stored user that parses to a user authenticates the session |
| UseAuth.Session.HandleAuthCallback | dashboard/src/hooks/useAuth.ts:79-91 | the session takes token and user even if persisting fails, and is authenticated iff the token is non-empty and the user non-null; the token is written, then the user; the first write that throws stops the rest (a refused user write leaves the token stored) and its message is recorded; with no throw the error is cleared |
| UseAuth.Session.ProcessUrlCallback | dashboard/src/hooks/useAuth.ts:97-114 | acts only when `token` and `user` are both non-empty query parameters; an unparsable user sets "Failed to complete authentication" and changes nothing else; a parsed one ends in exactly the state `HandleAuthCallback` states (session, stored keys, error) and the query is stripped |
| UseAuth.Session.Logout | dashboard/src/hooks/useAuth.ts:120-145 | notifies the backend only when a token is held; clears token and user, so the session is not authenticated; removes both keys and clears the error, or reports the store fault after the in-memory state was cleared; logging out of a logged-out session changes nothing |
| UseAuth.Session.RefreshUser | dashboard/src/hooks/useAuth.ts:151-185 | without a token: "Not authenticated" and no request; otherwise exactly one GET of `/api/auth/me` with the bearer header; a 401 logs out with exactly `Logout`'s effects, including its POST with the same token; other statuses record `Failed to refresh user: <statusText>`; a transport fault or an unparsable 2xx body records the thrown message and changes nothing else; a 2xx body replaces and persists the user (JSON `null` clears it) and returns it only if persisting worked, else records the store's fault |
| Logs.Keep | dashboard/src/pages/Logs.tsx:107-114 | with no filter and no search every entry passes; a set bot or level filter passes only its own source or level; a search passes only messages that contain it, case-insensitively |
| Logs.FilteredLogs | dashboard/src/pages/Logs.tsx:107-114 | keeps, in order, exactly the displayed entries matching the bot filter, the level filter and the case-insensitive search, each as often as it is displayed |
| Logs.NoFiltersKeepAll | dashboard/src/pages/Logs.tsx:107-114 | with no filter and no search everything is shown |
| Logs.SearchIgnoresCase | dashboard/src/pages/Logs.tsx:110 | lowercasing the search text does not change the result |
| Logs.SearchHitKept | dashboard/src/pages/Logs.tsx:110 | an entry whose lowercased message holds the lowercased search is kept |
| Logs.MockLogs | dashboard/src/pages/Logs.tsx:28-93 | the eight demo entries |
| Logs.DisplayLogs | dashboard/src/pages/Logs.tsx:105 | the fetched entries when there are any, otherwise the demo entries; never empty |
| Logs.ErrorPanelUnreachable | dashboard/src/pages/Logs.tsx:148-155 | the "Failed to load logs" panel is never shown, because the display is never empty |
| Logs.LevelColor | dashboard/src/pages/Logs.tsx:116-131 | unknown levels get the default badge |
| Logs.LevelColorsDistinct | dashboard/src/pages/Logs.tsx:116-131 | the five levels get five different badges, none of them the default |
| Logs.BotColor | dashboard/src/pages/Logs.tsx:133-146 | anything but the three bots gets the default badge |
| Logs.BotColorsDistinct | dashboard/src/pages/Logs.tsx:133-146 | the three bots get distinct badges, none of them the system one |
| Logs.ModuleCell | dashboard/src/pages/Logs.tsx:278-280 | `module:function` when both are set, else the module, else `-` |
| Logs.ModuleCellSplits | dashboard/src/pages/Logs.tsx:278-280 | a module name without `:` is recovered by splitting the cell at its first `:` |
| Logs.PollFilters | dashboard/src/pages/Logs.tsx:97 | an empty bot or level filter becomes undefined and a non-empty one is passed as is; the search is passed as is |
| Logs.LogsPage.constructor | dashboard/src/pages/Logs.tsx:21-25 | empty filters, auto-refresh on |
| Logs.LogsPage.RunEffect | dashboard/src/pages/Logs.tsx:95-101 | with auto-refresh, polling starts with the current filters and the first fetch has the outcome `LogsPoller.Fetch` states; without it, polling stops and nothing is sent or changed |
| Logs.LogsPage.Mount | dashboard/src/pages/Logs.tsx:95-103 | after mounting, one interval with the current filters is live iff auto-refresh is on; with it, one fetch with the current filters and its outcome; without it, nothing is sent |
| Logs.LogsPage.Update | dashboard/src/pages/Logs.tsx:95-103 | a change of filters or auto-refresh stops the old interval and reruns the effect, fetching with the new filters iff auto-refresh is on; an unchanged render, or one with auto-refresh off, sends and changes nothing |
| Logs.LogsPage.Unmount | dashboard/src/pages/Logs.tsx:102 | no interval is left live |
| Logs.LogsPage.RefreshNow | dashboard/src/pages/Logs.tsx:230 | one fetch with the current filters and limit 100, with the outcome `LogsPoller.Fetch` states |
| Logs.LogsPage.Tick | dashboard/src/pages/Logs.tsx:95-103 | a live interval polls with the filters on screen, with the outcome `LogsPoller.Fetch` states; otherwise nothing is sent or changed |
| Transactions.NextSort | dashboard/src/pages/Transactions.tsx:97-104 | the same column flips the direction; a new column starts descending |
| Transactions.SortToggleTwice | dashboard/src/pages/Transactions.tsx:97-104 | clicking the current column twice restores the sort |
| Transactions.Stringify | dashboard/src/pages/Transactions.tsx:90-91 | `String(v \|\| '')`: null and the number 0 become the empty string, other numbers their text, strings themselves |
| Transactions.KeyCompare | dashboard/src/pages/Transactions.tsx:86-94 | two numbers compare by value; anything else ties exactly when the lowercased strings are equal |
| Transactions.Compare | dashboard/src/pages/Transactions.tsx:82-95 | ascending compares the keys of the sort column; descending is ascending negated |
| Transactions.LexCmpAntisymmetric | dashboard/src/pages/Transactions.tsx:93-94 | swapping the strings negates the comparison, which is 0 only for equal strings |
| Transactions.KeyCompareAntisymmetric | dashboard/src/pages/Transactions.tsx:82-95 | swapping two sort keys negates the comparison |
| Transactions.DirectionReverses | dashboard/src/pages/Transactions.tsx:87-94 | descending is ascending negated, for every pair |
| Transactions.EntryPriceSortsByValue | dashboard/src/pages/Transactions.tsx:86-87 | entry prices compare as numbers |
| Transactions.MarketSortsIgnoringCase | dashboard/src/pages/Transactions.tsx:90-94 | market names compare as lowercased strings |
| Transactions.CompareAntisymmetric | dashboard/src/pages/Transactions.tsx:82-95 | the page's comparator is antisymmetric for every column and direction |
| Transactions.SortedTransactions | dashboard/src/pages/Transactions.tsx:82 | the sorted copy is a permutation of the displayed list |
| Transactions.SortedTransactionsOrdered | dashboard/src/pages/Transactions.tsx:82-95 | every neighbouring pair of the sorted copy is in order for the chosen column and direction |
| Transactions.MockTransactions | dashboard/src/pages/Transactions.tsx:31-74 | the three demo transactions |
| Transactions.DisplayTransactions | dashboard/src/pages/Transactions.tsx:80 | the fetched page when non-empty, else the demo list; never empty |
| Transactions.ErrorPanelUnreachable | dashboard/src/pages/Transactions.tsx:138-145 | the "Failed to load transactions" panel is never shown |
| Transactions.OptionalNumberCell | dashboard/src/pages/Transactions.tsx:115-117 | a missing value and 0 both give an empty cell; any other value gives its text |
| Transactions.TxCells | dashboard/src/pages/Transactions.tsx:108-119 | ten cells in header order: local time, bot in upper case, market name, side in upper case, quantity, entry price, then exit price, P&L and P&L % each empty when missing or 0, then the status |
| Transactions.CsvRows | dashboard/src/pages/Transactions.tsx:107-119 | the header row, then one ten-cell row per displayed transaction in order |
| Transactions.AsWrittenLineAmbiguous | dashboard/src/pages/Transactions.tsx:121 | quoting without escaping maps two different rows to the same line |
| Transactions.Escape | dashboard/src/pages/Transactions.tsx:121 | a cell without quotes is unchanged by the corrected escaping |
| Transactions.AsWrittenAgreesWithoutQuotes | dashboard/src/pages/Transactions.tsx:121 | with no embedded quotes the export as written and the corrected one are identical |
| Transactions.CsvRoundTrip | dashboard/src/pages/Transactions.tsx:121 | with corrected quoting every document decodes back to exactly its rows |
| Transactions.ExportCsvAsWritten | dashboard/src/pages/Transactions.tsx:106-121 | the page's export: ten-cell rows quoted without escaping; `AsWrittenLineAmbiguous` shows it does not read back |
| Transactions.ExportCsvRoundTrip | dashboard/src/pages/Transactions.tsx:106-121 | the file the corrected export writes decodes to the header row and one row per transaction; the export as written (`ExportCsvAsWritten`) does not |
| Transactions.TotalPnL | dashboard/src/pages/Transactions.tsx:131 | the sum of profits with a missing one as 0; its properties are the two lemmas below |
| Transactions.TotalPnLAppend | dashboard/src/pages/Transactions.tsx:131 | the total of a concatenation is the sum of the totals |
| Transactions.TotalPnLIgnoresMissing | dashboard/src/pages/Transactions.tsx:131 | transactions without a profit add nothing |
| Transactions.WinRateAsWritten | dashboard/src/pages/Transactions.tsx:132-135 | the rate as written: never negative, 0 with no closed transaction, and not bounded by 100 (next row) |
| Transactions.WinRateAsWrittenExceedsHundred | dashboard/src/pages/Transactions.tsx:132-135 | as written, two open winners and one closed loss give 200% |
| Transactions.WinRate | dashboard/src/pages/Transactions.tsx:132-135 | corrected rate: between 0 and 100, and 0 with no closed transaction |
| Transactions.WinRateAgreesWhenAllClosed | dashboard/src/pages/Transactions.tsx:132-135 | when every transaction is closed the corrected rate equals the rate as written |
| Transactions.HasMore | dashboard/src/pages/Transactions.tsx:327 | `hasMore` read as a boolean: true only for a reply that said so; a 204's undefined is false |
| Transactions.PaginationShown | dashboard/src/pages/Transactions.tsx:327 | shown on every page after the first, and on the first exactly when the reply said there is more |
| Transactions.NextDisabled | dashboard/src/pages/Transactions.tsx:339 | "Next" is enabled exactly when the last reply said there is more |
| Transactions.PreviousPage | dashboard/src/pages/Transactions.tsx:330 | never negative; one less when above 0 |
| Transactions.TransactionsPage.constructor | dashboard/src/pages/Transactions.tsx:24-28 | limit 50, page 0, no bot filter, sorted by timestamp descending |
| Transactions.TransactionsPage.FetchEffect | dashboard/src/pages/Transactions.tsx:76-78 | one request for the current page, with the bot filter only when non-empty and no search, with the outcome `TransactionsPoller.Fetch` states |
| Transactions.TransactionsPage.HandleSort | dashboard/src/pages/Transactions.tsx:97-104 | the sort moves by `NextSort`; page and filter are unchanged |
| Transactions.TransactionsPage.SelectBot | dashboard/src/pages/Transactions.tsx:175-178 | sets the filter and returns to page 0; fetches (with its outcome) iff either changed, otherwise sends and changes nothing |
| Transactions.TransactionsPage.Previous | dashboard/src/pages/Transactions.tsx:327-332 | one page back and one fetch (with its outcome) when past the first page; nothing on page 0 |
| Transactions.TransactionsPage.Next | dashboard/src/pages/Transactions.tsx:327-339 | one page on and one fetch (with its outcome) iff the last reply said more; otherwise nothing |
| Portfolio.Toggle | dashboard/src/pages/Portfolio.tsx:215-245 | clicking a card gives `all` exactly when that bot was selected |
| Portfolio.ToggleTwice | dashboard/src/pages/Portfolio.tsx:215-245 | two clicks on the same card restore the selection iff it was `all` or that bot |
| Portfolio.VisiblePositions | dashboard/src/pages/Portfolio.tsx:110-112 | `all` shows everything; a bot shows exactly its positions, in order, each as often as it occurs |
| Portfolio.MockPositions | dashboard/src/pages/Portfolio.tsx:45-108 | the four demo positions |
| Portfolio.GridHasNoDemoPositions | dashboard/src/pages/Portfolio.tsx:45-112 | selecting Grid in the demo data shows nothing |
| Portfolio.PieData | dashboard/src/pages/Portfolio.tsx:114-121 | empty without a portfolio; otherwise the Kalshi, Crypto, Grid slices in order, each balance plus positions, keeping exactly those above 0 |
| Portfolio.PieDataAllPositive | dashboard/src/pages/Portfolio.tsx:114-121 | when all three are positive every slice is kept |
| Portfolio.Render | dashboard/src/pages/Portfolio.tsx:123-149 | loading first, then the error, then nothing without a portfolio, then the content |
| Portfolio.ErrorHidesStaleSnapshot | dashboard/src/pages/Portfolio.tsx:134-147 | after a failed poll the error panel replaces a snapshot that is still held |
| Portfolio.RoiPrefix | dashboard/src/pages/Portfolio.tsx:151-188 | `+` iff the ROI is at least 0 |
| Portfolio.GreenSides | dashboard/src/pages/Portfolio.tsx:354 | a side is green iff it is yes, buy or long |
| Portfolio.PortfolioPage.constructor | dashboard/src/pages/Portfolio.tsx:21-22 | a 30 s portfolio poller and the `all` selection |
| Portfolio.PortfolioPage.ClickCard | dashboard/src/pages/Portfolio.tsx:215 | the selection moves by `Toggle` |
| BotControl.DialogFor | dashboard/src/pages/BotControl.tsx:124-162 | a dialog exactly for pause, resume, restart, git-pull and scan; `danger` exactly for restart and git-pull; git-pull carries no bot |
| BotControl.ConfirmText | dashboard/src/pages/BotControl.tsx:356 | "Yes, proceed" iff the dialog is dangerous |
| BotControl.EndpointFor | dashboard/src/pages/BotControl.tsx:166-177 | `/api/bots/{name}/{action}` for the four bot actions only with a non-empty name; `/api/deploy/git-pull` for git-pull; nothing otherwise |
| BotControl.DialogEndpoint | dashboard/src/pages/BotControl.tsx:124-177 | each button's dialog, once confirmed, posts to its own action and bot; a bot action without a name posts nothing |
| BotControl.EndpointCarriesBot | dashboard/src/pages/BotControl.tsx:168-177 | the bot endpoint holds the dialog's bot name between the fixed parts |
| BotControl.SuccessMessage | dashboard/src/pages/BotControl.tsx:182 | the action name with its first hyphen turned into a space, followed by " completed successfully" |
| BotControl.GitPullMessage | dashboard/src/pages/BotControl.tsx:180-183 | deploy reports "git pull completed successfully" |
| BotControl.PlainActionMessage | dashboard/src/pages/BotControl.tsx:180-183 | an action without a hyphen is reported under its own name |
| BotControl.StatusLabel | dashboard/src/pages/BotControl.tsx:271-275 | RUNNING iff running and not paused, PAUSED iff running and paused, STOPPED iff not running |
| BotControl.ShowsPause | dashboard/src/pages/BotControl.tsx:310-318 | Pause is shown exactly on a card labelled RUNNING |
| BotControl.ShowsResume | dashboard/src/pages/BotControl.tsx:320-321 | Resume is shown exactly on a card labelled PAUSED or STOPPED |
| BotControl.PauseXorResume | dashboard/src/pages/BotControl.tsx:310-320 | exactly one of Pause and Resume is shown on each card |
| BotControl.LoadingDisablesAll | dashboard/src/pages/BotControl.tsx:313-340 | a call in flight disables every action; a stopped bot cannot be scanned; nothing else disables a button |
| BotControl.MockBots | dashboard/src/pages/BotControl.tsx:83-121 | the three demo bots, all running and not paused |
| BotControl.DisplayBots | dashboard/src/pages/BotControl.tsx:122 | the fetched list when non-empty, else the demo list |
| BotControl.ErrorPanelUnreachable | dashboard/src/pages/BotControl.tsx:199 | the "Failed to load bot status" panel is never shown |
| BotControl.BotControlPage.constructor | dashboard/src/pages/BotControl.tsx:71-80 | a bots poller, a call helper, no dialog, no result |
| BotControl.BotControlPage.HandleBotAction | dashboard/src/pages/BotControl.tsx:124-162 | a known action opens its dialog; any other action leaves the dialog as it was |
| BotControl.BotControlPage.ExecuteAction | dashboard/src/pages/BotControl.tsx:164-197 | no dialog: nothing; otherwise at most one POST to the dialog's endpoint, and a success result with the action's message whatever the reply |
| BotControl.BotControlPage.AfterResultDelay | dashboard/src/pages/BotControl.tsx:185-189 | the delayed step closes the dialog and the result and refreshes the bots once, with the outcome `BotsPoller.Fetch` states; the bots timer is untouched |
| BotControl.BotControlPage.Cancel | dashboard/src/pages/BotControl.tsx:357-360 | closes the dialog and clears the result |
| App.PageAt | dashboard/src/App.tsx:295-363 | each of the five protected paths names its page, and only that path does |
| App.PathOfRoundTrip | dashboard/src/App.tsx:295-363 | each page's path resolves back to that page |
| App.Protected | dashboard/src/App.tsx:27-29 | the page iff authenticated, otherwise a redirect to `/dashboard/` |
| App.Resolve | dashboard/src/App.tsx:264-379 | loading screen whatever the path; `/` redirects to `/portfolio` or shows the login; protected paths follow `Protected`; any other path redirects to `/portfolio` or `/`; a page is rendered only when authenticated |
| App.Settle | dashboard/src/App.tsx:264-379 | however many redirects are followed, a page is shown only to a signed-in user, and never the loading screen |
| App.SettleEnds | dashboard/src/App.tsx:27-29 | following the redirects ends within two hops: on the login page when signed out, on the requested page or Portfolio when signed in |
| App.IsActive | dashboard/src/App.tsx:52 | an item is active when the location is its path; the two lemmas below say which items that makes active |
| App.NavAsWrittenBroken | dashboard/src/App.tsx:44-52 | as written, no sidebar item is active on any rendered page, and every link lands on Portfolio |
| App.NavAsWrittenLogsLink | dashboard/src/App.tsx:47 | the Logs link lands on Portfolio |
| App.NavHighlightsCurrentPage | dashboard/src/App.tsx:44-52 | with router paths, exactly the current page's item is active and each link lands on its own page |
| App.Layout.constructor | dashboard/src/App.tsx:190 | the sidebar starts closed |
| App.Layout.MenuClick | dashboard/src/App.tsx:202 | the menu button flips the sidebar |
| App.Layout.Close | dashboard/src/App.tsx:196 | the overlay and the links close the sidebar |
| App.ErrorBoundary.constructor | dashboard/src/App.tsx:226-229 | no error at first |
| App.ErrorBoundary.Catch | dashboard/src/App.tsx:231-233 | a caught error sets the flag and is stored |
| App.ErrorBoundary.View | dashboard/src/App.tsx:239-258 | the children iff no error was caught; otherwise the fallback with the error's message |

## Left out

- The network transport is left out: `fetch`, header lookup, JSON parsing and serialising,
  `URLSearchParams` percent-encoding and `decodeURIComponent`. Replies, bodies and parsers
  are inputs.
- Real timers and races are left out. `setInterval`/`clearInterval` become an explicit
  table of live intervals, and the event loop firing one is a `Tick` call. Overlapping
  in-flight fetches are concurrency and are not modelled. Every fetch is atomic, so the
  transient `isLoading = true` is never observed.
- BotControlPage.AfterResultDelay: the 2 s `setTimeout` after a confirmed action is an
  explicit step. Nothing stops it from running after the dialog was cancelled.
- UseApi.Classify: a 2xx body that is a falsy primitive (`0`, `false`, `""`) is not
  modelled, because none fits a declared response type. A JSON `null` body is modelled.
- Rendering a 204 reply on a list endpoint is not modelled. The pages then read
  `.length` of `undefined`, which throws in render. The pollers store that reply
  faithfully as `NoContent`.
- Portfolio.Render does not model a portfolio snapshot that is a 204's empty object.
- Browser side effects are left out:
  - `window.location` navigation: login redirect, logout redirect, reload;
  - `history.replaceState`, of which only the stripped query is modelled;
  - the Blob/object-URL download of the CSV;
  - `console` output.
- Locale and floating point are left out:
  - `toFixed`, `toLocaleString` and dates;
  - numbers are exact `real`s;
  - `localeCompare` is code-point lexicographic order;
  - case mapping covers ASCII letters only.
- Transactions.SortedTransactions: `Array.prototype.sort` is modelled as a stable insertion
  sort. With this comparator, mixed null and numeric keys make JavaScript's order
  implementation-defined, so the model proves only the permutation and neighbour order.
- Transactions.NextSort: only the six clickable sort columns are modelled. Other
  `keyof Transaction` values cannot be chosen on the page.
- Transactions.WinRate: the model returns the percentage as a number. `toFixed(1)` and the
  `'0.0'` string are formatting.
- The mock P&L history in `Portfolio.tsx` (random values) is not part of this model.
- Settings, Login, the charts and all JSX markup beyond the colour tables are not part of
  this model.
- The compiled `.js` mirrors, the `.d.ts` declarations, `main.tsx` and `vite.config.ts` are
  not part of this model. `useAuth.d.ts` declares a different hook; the model follows
  `useAuth.ts`.
- React Router's trailing-slash and case-insensitive matching are not modelled. Route
  paths match exactly.

## Findings

| source | as written | input that shows it | evidently intended | confidence | as-written member | corrected member |
|---|---|---|---|---|---|---|
| dashboard/src/pages/Transactions.tsx:121 | every cell is wrapped as `"${cell}"` with no escaping of embedded quotes | a market named `a","b` next to `c` gives the same line as `a` next to `b","c` | quotes inside a cell doubled, as RFC 4180 section 2 requires, so the file reads back to its rows | medium, not executed | Transactions.AsWrittenLineAmbiguous | Transactions.CsvRoundTrip |
| dashboard/src/pages/Transactions.tsx:132-135 | wins are counted over all transactions but divided by the number of closed ones | two open transactions with profit 5 and one closed with profit −1 give 200.0% | the share of closed transactions that won, at most 100% | high, not executed | Transactions.WinRateAsWrittenExceedsHundred | Transactions.WinRate |
| dashboard/src/App.tsx:44-52 | sidebar paths repeat the `/dashboard` basename; the router matches and reports paths without it | signed in on `/logs`: no item is active, and the Logs link goes to router path `/dashboard/logs`, which the catch-all sends to `/portfolio` | router-relative paths (`/logs`), active exactly for their own page | medium, not executed | App.NavAsWrittenBroken | App.NavHighlightsCurrentPage |
