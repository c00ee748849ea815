# Solana meme-coin bot and web dashboard: a Dafny model

This project models the decision logic of a small Solana trading bot and of
its web dashboard:

- `main.py`: the bot proper.
  - A pump.fun token finder scores and filters the newest coins.
  - A social monitor turns VIP tweets into pump signals.
  - The bot class keeps the open positions and the trade counter as three
    loops change them: the scanner, the social-signal handler and the
    position monitor.
- `app.py`: the dashboard server.
  - The global `BotState` record.
  - The simplified bot's market-cap filter, per-token bookkeeping and start
    guard.
  - The statistics `/api/stats` derives from the state.
- The dashboard page's script, embedded in `app.py`: the bounded activity
  feed and the uptime text.

Modules:

| file | module | what |
|---|---|---|
| `text.dfy` | `Wrappers`, `Text` | `Option` with `dict.get`-style defaults; ASCII lower-casing, `sub in s`, decimal digits, `padStart` |
| `token_finder.dfy` | `TokenFinder` | `_calculate_score`, the filter/abort loop and stable descending sort of `find_new_tokens` |
| `social_monitor.dfy` | `SocialMonitor` | keyword detection in tweets |
| `trading_bot.dfy` | `TradingBot` | class `SolanaTradingBot`: positions map and trade counter, changed by the scanner, the social path and the monitor |
| `dashboard.dfy` | `Dashboard` | class `BotState`, class `SimplifiedTradingBot`, `scan_tokens`, `get_stats` |
| `dashboard_client.dfy` | `DashboardClient` | class `ActivityFeed` (`addActivity`, `updateActivityFeed`), uptime text |

Representation choices:

- Liquidity, market caps, prices and timestamps are exact `real`s.
  - The code compares them.
  - It also subtracts and divides timestamps: the token's age in minutes (main.py:235, 260) and the hold time in hours (main.py:429).
  - The model does this arithmetic exactly, where the code's floats round.
- Scores are integer tenths: 7 is 0.7.
- SOL amounts and profit are integer thousandths: 50 is 0.05 SOL.
- Signal multipliers are tenths: 20 is 2.0.
- Everything the code learns from outside is a parameter of the operation
  that uses it:
  - The pump.fun answer is an `Option` of a coin list. `None` stands for a
    non-200 status or a failed request.
  - The result of each buy is a boolean list parallel to the tokens tried.
    The result of each sale is a function of the token address.
  - The clock is a parameter: `now` in seconds, the elapsed milliseconds,
    and the local time string.
- JSON fields that may be missing are `Option`s. `GetOr` supplies the
  default the code passes to `dict.get`.

The activity feed holds at most 20 items, newest first.

## Model

| member | source | states |
|---|---|---|
| `Text.Lower` | main.py:191 | lower-casing keeps the length, maps `A`..`Z` to the letter 32 code points up and leaves every other character alone, so no upper-case ASCII letter remains |
| `Text.LowerIdempotent` | main.py:191 | lower-casing twice is lower-casing once |
| `Text.Contains` | main.py:193 | a text contains only substrings no longer than itself, and the empty string is in every text |
| `Text.ContainsIffOccurs` | main.py:193 | Python's `keyword in text` holds exactly when the keyword occurs at some index of the text |
| `Text.Digits` | app.py:1037 | `toString()` of a whole number gives one or more decimal digits, no leading zero, one digit exactly below 10 and at most two below 100 |
| `Text.DigitsRoundTrip` | app.py:1037 | reading back the decimal digits `toString()` produces gives the number again |
| `Text.PadStart` | app.py:1037 | `padStart` leaves a string at least as long as the width untouched; otherwise it prefixes fill characters up to exactly the width and the original string is the suffix |
| `Text.PadStartZerosValue` | app.py:1037 | `padStart(2, '0')` on a digit string yields a digit string of the same value |
| `TokenFinder.LiquidityTier` | main.py:251-257 | the liquidity part is 0.3 iff liquidity > 50000, at least 0.2 iff > 25000, at least 0.1 iff > 10000, else 0 |
| `TokenFinder.AgeMinutes` | main.py:260 | a coin without `created_at` is 0 minutes old; otherwise it is under 10 minutes old exactly when created less than 600 seconds ago; a creation time not in the future gives a non-negative age |
| `TokenFinder.AgeTier` | main.py:259-266 | the age part is 0.3 iff age < 10 min, at least 0.2 iff < 30, at least 0.1 iff < 60, else 0 |
| `TokenFinder.MemeBonus` | main.py:268-276 | the meme bonus is 0 or 0.2, and 0 for a coin with neither name nor symbol |
| `TokenFinder.Min` | main.py:278 | the smaller of two numbers is at most each and equal to one of them |
| `TokenFinder.Score` | main.py:247-278 | the score never exceeds 1.0 |
| `TokenFinder.AnyWordInIff` | main.py:273-276 | the early-exit word loop finds a match exactly when some word of the list occurs in the name or the symbol |
| `TokenFinder.MemeBonusIff` | main.py:268-276 | the meme bonus is 0.2 exactly when some meme word occurs in the lower-cased name or symbol, else 0, and is granted once |
| `TokenFinder.ScoreIsSumOfTiers` | main.py:249-278 | the score is the plain sum of the three parts, at most 0.8, so the 1.0 cap never applies |
| `TokenFinder.MissingCreatedAtIsNewest` | main.py:260 | a coin without `created_at` is 0 minutes old and gets the top age tier |
| `TokenFinder.ScoreThresholdIff` | main.py:247-278 | a coin reaches the scanner's 0.7 exactly when it has the meme bonus and liquidity and age tiers summing to at least 0.5 |
| `TokenFinder.ScoreMonotoneInLiquidity` | main.py:252-257 | more liquidity never lowers the score |
| `TokenFinder.ScoreMonotoneInCreation` | main.py:260-266 | a later creation time (a younger coin) never lowers the score |
| `TokenFinder.PassesFilter` | main.py:228-229 | a passing coin has liquidity above 5000; with no market cap, a coin passes exactly when its liquidity (0 when missing) is above 5000 |
| `TokenFinder.Gather` | main.py:226-237 | no more tokens than coins; the loop completes iff no coin passing the filters lacks a mint; every token comes from a coin that passes both filters and has a mint |
| `TokenFinder.GatherAppend` | main.py:226-237 | gathering over `a + b` is gathering `a` then `b` when `a` completes, and stops at `a`'s result otherwise (input order kept, abort final) |
| `TokenFinder.GatherKeepsPassing` | main.py:226-237 | every coin that passes both filters, has a mint and has no aborting coin before it yields its token |
| `TokenFinder.Insert` | main.py:240 | insertion adds one element; it lands in front when the list is empty or the element scores at least as high as the old front, and otherwise the old front stays first |
| `TokenFinder.InsertSorted` | main.py:240 | inserting into a list sorted by descending score keeps it sorted |
| `TokenFinder.InsertPerm` | main.py:240 | insertion adds exactly the new token to the multiset of tokens |
| `TokenFinder.SortByScore` | main.py:240 | the sorted list is non-increasing in score and a permutation of the input |
| `TokenFinder.SortStep` | main.py:240 | inserting the head into a sorted permutation of the tail gives a sorted permutation of the whole list |
| `TokenFinder.InsertWithScore` | main.py:240 | inserting a token changes the tokens of any one score only by putting it in front of the tokens of its own score |
| `TokenFinder.SortByScoreStable` | main.py:240 | the sort is stable: tokens of equal score keep their input order |
| `TokenFinder.Window` | main.py:226 | `data[:20]` is the prefix of exactly 20 coins, or all coins when there are at most 20 |
| `TokenFinder.FindNewTokens` | main.py:215-245 | at most 20 tokens; none when the request fails |
| `TokenFinder.FindNewTokensSpec` | main.py:215-245 | every token comes from a passing coin among the first 20, and every passing coin with a mint before the first abort contributes its token; without an abort the result is sorted, a permutation of the gathered tokens and stable; after an abort it is exactly the tokens gathered before the first coin without a mint, unsorted |
| `SocialMonitor.FirstKeyword` | main.py:192-201 | a matched keyword is one of the list and occurs in the text |
| `SocialMonitor.FirstKeywordSpec` | main.py:192-201 | no match iff no keyword occurs; otherwise the match is the occurring keyword of smallest index |
| `SocialMonitor.Truncate` | main.py:197 | `text[:100]` is the prefix of exactly 100 characters, or the whole text when it is shorter |
| `SocialMonitor.TweetSignal` | main.py:189-201 | a signal names the tweet's account and a pump keyword found in the lower-cased tweet, and its text is a prefix of the tweet |
| `SocialMonitor.TweetSignalSpec` | main.py:189-201 | a tweet yields a signal iff its lower-cased text contains a pump keyword; the signal names the first such keyword, has multiplier 2.0 exactly for elonmusk and 1.5 otherwise, and keeps exactly the first 100 characters (all when shorter) |
| `SocialMonitor.TweetsSignals` | main.py:189-201 | no more signals than tweets, each naming the account and a pump keyword |
| `SocialMonitor.TweetsSignalsComplete` | main.py:189-201 | every tweet that yields a signal contributes it, and every signal of the loop is the signal of one of the tweets |
| `SocialMonitor.TweetsSignalsAppend` | main.py:189-201 | the loop keeps tweet order: the signals of `a + b` are those of `a` followed by those of `b` |
| `TradingBot.PickFrom` | main.py:383-415 | a picked index is within the first 10 tokens, scores at least 0.7, is not held, and its buy succeeded |
| `TradingBot.ScanPick` | main.py:377-415 | a pick happens only with fewer than 5 positions open |
| `TradingBot.PickFromSpec` | main.py:383-415 | no pick iff no token of the window is eligible with a successful buy; otherwise the pick is the first such token |
| `TradingBot.ScanPickSpec` | main.py:377-415 | with 5 or more positions nothing is bought; otherwise the bought token is the first of the first 10 that scores at least 0.7, is not held and whose buy succeeds, and nothing is bought if there is none |
| `TradingBot.ScanPositions` | main.py:377-406 | the scanner never replaces a held position; when it buys, the one position it adds is under the bought token's address, with the token's symbol, the current time, 0.05 SOL and the label `scanner`; it adds none otherwise and never takes the count above 5 |
| `TradingBot.SignalSize` | main.py:337-338 | the social position size is capped at 0.10 SOL; 2.0 gives 0.10, 1.5 gives 0.075 |
| `TradingBot.SocialBuys` | main.py:334-357 | one signal's buys never remove a held address and never lower the trade count |
| `TradingBot.BoughtFromStep` | main.py:334-357 | looking at one more of the first three tokens adds one bought index exactly when that token matches and its buy succeeds |
| `TradingBot.SocialBuysCount` | main.py:334-357 | the trade count grows by exactly the number of tokens bought, at most one per remaining token of the first three |
| `TradingBot.SocialBuysKeys` | main.py:334-357 | after one signal the held addresses are the old ones plus exactly the addresses bought |
| `TradingBot.SocialBuysKeepsOthers` | main.py:334-357 | a held address that is not bought keeps its position |
| `TradingBot.SocialBuysRecordsBought` | main.py:334-357 | every bought address holds a position with the signal's size, the current time and the label `account_keyword` |
| `TradingBot.SocialBuysSpec` | main.py:334-357 | one signal's buys: bought addresses get a social position (even if already held), others keep theirs, nothing else is added, and the trade count grows by exactly the number of tokens bought, at most 3 |
| `TradingBot.SocialRound` | main.py:328-357 | a round of signals never removes a held address and never lowers the trade count |
| `TradingBot.SocialRoundBounded` | main.py:328-357 | a round of signals never removes a position and adds at most 3 trades per signal |
| `TradingBot.HeldTooLong` | main.py:429-431 | more than 2 hours held is exactly more than 7200 seconds since entry |
| `TradingBot.AfterExits` | main.py:427-444 | after a monitor pass a position is gone exactly when held more than two hours and its sale succeeded; the rest are unchanged |
| `TradingBot.SimulatedExits` | main.py:427-444 | in simulation mode every sale succeeds (main.py:107-109), so exactly the positions held at most 7200 seconds remain |
| `TradingBot.SolanaTradingBot.constructor` | main.py:289-291 | a new bot has no positions and no trades |
| `TradingBot.SolanaTradingBot.ScanNewTokens` | main.py:376-415 | one scanner pass sets the positions to the scanner specification and counts one trade exactly when it buys |
| `TradingBot.SolanaTradingBot.ActOnSignal` | main.py:334-357 | handling one signal sets positions and trade count to the social-buy specification |
| `TradingBot.SolanaTradingBot.MonitorSocialSignals` | main.py:328-357 | handling a list of signals applies each signal's buys in order |
| `TradingBot.SolanaTradingBot.MonitorPositions` | main.py:427-444 | a monitor pass leaves the positions the exit specification describes and does not touch the trade count |
| `Dashboard.FilterInRange` | app.py:1289-1302 | no more tokens than coins |
| `Dashboard.FilterInRangeSpec` | app.py:1290-1300 | every kept token has a market cap strictly between 5000 and 500000 and comes from such a coin, and every such coin is kept |
| `Dashboard.ScanTokens` | app.py:1279-1307 | a failed request gives no tokens |
| `Dashboard.FilterInRangeAppend` | app.py:1290-1300 | the filter keeps input order: filtering `a + b` is filtering `a` then `b` |
| `Dashboard.MissingMarketCapExcluded` | app.py:1291-1292 | a coin without a market cap is never kept |
| `Dashboard.WinRate` | app.py:1447-1449 | the win rate lies in 0..100, is 0 without trades and 100 when every trade is a win |
| `Dashboard.WinRateFloor` | app.py:1447-1449 | with trades, the win rate is the largest whole percentage not above the wins' share |
| `Dashboard.BotState.constructor` | app.py:1144-1160 | the initial state: not authenticated, not ready, not running, no profit, trades or positions, started now |
| `Dashboard.GetStats` | app.py:1444-1460 | win rate in 0..100 (0 without trades), wins and losses add up to the trades, invested is 0.05 SOL per position, the daily change is shown exactly when the profit is positive, uptime is the time since start |
| `Dashboard.SimplifiedTradingBot.constructor` | app.py:1241-1243 | a new simplified bot is not running |
| `Dashboard.SimplifiedTradingBot.Start` | app.py:1245-1257 | starting does nothing unless authenticated, and otherwise marks both the bot and the state running |
| `Dashboard.SimplifiedTradingBot.ProcessToken` | app.py:1309-1339 | one more trade, a win with 0.05 SOL profit exactly when the market cap is above 10000, the token's position replaced by a fresh 0.05 SOL one, and never more wins than trades |
| `Dashboard.SimplifiedTradingBot.MainLoopIteration` | app.py:1259-1273 | one iteration processes exactly the first scanned token (trades, wins, profit and positions as `ProcessToken` sets them), or changes none of them when there is none |
| `DashboardClient.DropPlaceholder` | app.py:1061-1064 | a leading "awaiting authentication" item is removed and nothing else; a feed without one is unchanged |
| `DashboardClient.Newest` | app.py:1076-1079 | trimming keeps the first 20 items, or all items when there are at most 20 |
| `DashboardClient.AfterAdd` | app.py:1045-1080 | after adding, the new item is first and the feed holds between 1 and 20 items |
| `DashboardClient.AfterAddSpec` | app.py:1045-1080 | after adding, the new item is first, followed by the old feed without its placeholder cut to 19 items: one more item than before the add, or 20 when the feed was full |
| `DashboardClient.Kept` | app.py:1020-1023 | clearing keeps exactly the first item, and an empty feed stays empty |
| `DashboardClient.AddAll` | app.py:1026-1028 | adding no activities leaves the feed unchanged; adding some leaves between 1 and 20 items |
| `DashboardClient.AddAllSnoc` | app.py:1026-1028 | each further activity of the `forEach` is one more `addActivity` on the feed built so far |
| `DashboardClient.NewestOfNewest` | app.py:1076-1079 | trimming before adding an item in front changes nothing once the result is trimmed again |
| `DashboardClient.AddAllStep` | app.py:1026-1028 | adding an item in front of a trimmed feed of real items is trimming the feed with the item in front |
| `DashboardClient.AddAllReverses` | app.py:1017-1029 | when no fetched activity reads as the placeholder, the feed becomes the fetched activities in reverse order, then the kept first item unless it was the placeholder, trimmed to 20 |
| `DashboardClient.TitleInTextContent` | app.py:1053-1062 | a phrase in an item's title is in the item's `textContent`, so a title naming "awaiting authentication" marks the item as the placeholder |
| `DashboardClient.InitialIsPlaceholder` | app.py:735-741 | the page's initial item contains "awaiting authentication", so it reads as the placeholder |
| `DashboardClient.FirstAddReplacesInitial` | app.py:1045-1080 | the first `addActivity` on a fresh page leaves exactly the new item: the initial item is removed |
| `DashboardClient.ActivityFeed.constructor` | app.py:734-742 | the page starts with the single "awaiting authentication" item |
| `DashboardClient.ActivityFeed.AddActivity` | app.py:1045-1080 | `addActivity` leaves the feed described by `AfterAdd` |
| `DashboardClient.ActivityFeed.UpdateActivityFeed` | app.py:1017-1029 | `updateActivityFeed` keeps the first item and then adds each activity in array order |
| `DashboardClient.UptimeText` | app.py:1033-1037 | the uptime text has at least 5 characters, exactly 5 below 100 hours |
| `DashboardClient.ClockParts` | app.py:1034-1037 | the minutes are below 60 and pad to exactly two digits; the hours pad to at least two, exactly two below 100 hours |
| `DashboardClient.SplitAtColonDigits` | app.py:1037 | a digit string joined to any text by `:` splits back into the two parts |
| `DashboardClient.UptimeTextDecodes` | app.py:1031-1037 | the uptime text splits at its colon into at least two hour digits and exactly two minute digits below 60, and together they name the whole minutes elapsed |

## Left out

- `Dashboard.WinRate`: computes the exact floor of 100 * wins / trades. The code multiplies the float quotient by 100 and truncates, which can come out one lower (29 wins of 100 gives 28).
- `Dashboard.WinRateFloor`: states the floor for exact arithmetic. For the same reason as `WinRate`, the code's float result can be one below it.
- `TokenFinder.SortByScore`: orders by exact tenths. The code's float sums can differ in the last bit for the same tenths (0.1 + 0.2 against 0.3), which can reorder tokens of equal score. The 0.7 threshold is not affected: every sum of seven or eight tenths reaches 0.7 in floating point.
- `TokenFinder.SortByScoreStable`: stability is stated for equal exact tenths. Two tokens whose float scores differ in the last bit are not "equal" to the code's sort, so their order can differ from the one stated here.
- `Text.Lower`: lower-cases ASCII letters only. Python's `str.lower` also maps other Unicode letters.
- `DashboardClient.TextContent`: joins the three texts with line breaks.
  - The DOM's `textContent` also includes the template's whitespace.
  - The item is built through `innerHTML`, which parses markup and entities in the icon, title and details. A title holding tags or `&...;` entities yields a different `textContent` from the raw string.
  - Only whether "awaiting authentication" occurs matters; the whitespace cannot create or destroy it, and the activity texts of the model are taken as plain text.
- `DashboardClient.ActivityFeed.UpdateActivityFeed`: stamps every added item with the one local time string it is given. The code reads the clock again for each `addActivity` (app.py:1051), so items added across a second boundary can carry different times.
- `TradingBot.SolanaTradingBot.MonitorPositions` and `TradingBot.SolanaTradingBot.ActOnSignal`: use one `now` for the whole pass. The code reads `time.time()` for each position (main.py:429) and for each buy (main.py:353), and a live `execute_trade` sleeps 5 seconds (main.py:120). Positions bought, or found too old, later in the same pass can therefore see a later time than the model gives them.
- Profit is kept as exact thousandths. The code adds 0.05 as a float.
- JSON `null` values are not modelled. They make the code's comparisons raise a `TypeError`. A field is either present with a value or missing.
- Negative elapsed time in the uptime counter is not modelled: the elapsed milliseconds are a `nat`.
- The network is not modelled.
  - This covers the Twitter requests, the per-account loop of `check_vip_tweets` and its early `continue`s, and the Telegram/Telethon client.
  - This also covers the ToxiBot commands and their text formats, and the HTTP handlers other than `get_stats`.
  - The model starts from their results.
- Authentication and the Telegram verification code flow are not modelled.
- Sleeping and concurrency are not modelled.
  - The `asyncio` loops, their sleeps and exception back-offs are left out, and so is the concurrent running of those loops.
  - The model takes one pass of each loop at a time.
  - A race between the monitor's snapshot and the other loops is not captured.
- Alerts and logging are not modelled.
- `health_check` and its float summary are not modelled.
- The dashboard's `monitor_positions` (app.py:1341-1356) is not modelled. It sets each price deterministically to the entry price times 1 + 0.1 per hour held, and derives a percentage P&L. That is float arithmetic on prices, which the model does not carry.
- `get_positions` duration strings and the hardcoded list of `get_activity` are not modelled.
- The canvas chart, the CSS and the other DOM rendering are not modelled.
- `daily_loss_limit` is never read by the code, so it is not modelled.
- The module-level start-up code of `app.py` is not modelled.
  - `async def start` at app.py:1514 sits at module level rather than inside `WebDashboard`, so `WebDashboard` has no `start` method.
  - Its body then indents further at app.py:1523, which Python rejects with an `IndentationError` when the file is compiled.
  - The `__main__` block calls `asyncio.run(main())` twice (app.py:1566 and 1573).
- `main_with_auth.py` is not part of this model.
