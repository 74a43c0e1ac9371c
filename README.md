# Binance movers and pump monitor, modelled in Dafny

This project models the core of a Go system that watches Binance prices.
It has three parts.

1. A price server takes the exchange's price list and 24-hour statistics and filters them into two responses:
   - the pairs quoted in USDT;
   - the change percents that parse.
2. A Telegram client runs one dialogue per chat and one monitoring loop.
   - The dialogue covers sign-up by email code and the settings: the 24h change threshold, the pump wait time and the pump percent.
   - The loop keeps a registry of tracked symbols. Every 5 seconds it runs one detection tick:
     - qualification tracks the symbols whose 24h change reaches the threshold and reports them in a digest sorted by change;
     - eviction drops the symbols whose change has fallen to the threshold or below;
     - the pump pass alerts the second chat once per tracked symbol, when the price has risen enough above its baseline within the wait window.
   - Every minute a status digest rewrites each tracked symbol's stored price.
3. Two one-shot bots reply to any text message with the USDT pairs that moved at least 20% in 24h, sorted by change.

How the Go code is represented:
- Prices and percents are `real`. Times and durations are `int` nanoseconds.
- Maps are `map`; Go's unordered map iteration becomes a loop over a shrinking set of pending keys, so every iteration order is covered.
- Objects whose fields Go updates in place are classes: the tracker, the cancel registry, the chat state, the settings, the users.
  Their methods state the whole new state.
- Each loop is a method proved against a pure function. The properties the Go code promises are proved as lemmas about those functions:
  - what a tick adds, keeps and removes;
  - that a pump fires at most once;
  - that the digests are sorted permutations of what they report;
  - that the filters keep exactly the right entries, in order.
- Outcomes the code only receives are parameters: exchange responses, parses, email validity, the `users` table of verification items keyed by address, the clock, random picks and send results.

Module layout (one file each):
- `Results`: Option and Result values standing for Go's `v, ok` and `v, err` pairs.
- `Proto`: the server's response entries and the "first matching change, else 0.0" lookup.
- `GoStrings`: `HasSuffix`, one-character `TrimRight` and first-occurrence `Replace`.
- `Sorting`: the in-place descending sort, the sorted copy, and the "lists each key exactly once" predicate with its lemmas.
- `Tracker`: the tracked-symbol registry.
- `Detection` and `DetectionProperties`: the tick and the status refresh as functions, and their lemmas.
- `Monitor`: the tick and status methods over the tracker.
- `Cancellation`: the per-chat cancel registry.
- `Telegram`: the chat state and settings objects.
- `Users`: the user registry.
- `Commands`: the bot handlers.
- `EmailVerify` and `EmailVerifyInternal`: codes and verification decisions.
- `Exchange`: raw listings and their filters.
- `GrpcBinance` and `GrpcBinanceInternal`: the two copies of the price server.
- `BinanceApi`: the direct API client's maps.
- `Movers`: what the two one-shot bots share.
- `BinanceMain` and `ClientMain`: the two one-shot bots.

## Model

| member | source | states |
|---|---|---|
| Tracker.Tracker.constructor | client/pkg/tracker/tracker.go:22-26 | a new registry tracks nothing |
| Tracker.Tracker.IsTracked | client/pkg/tracker/tracker.go:28-33 | true exactly when the symbol is a key |
| Tracker.Tracker.UpdateTrackedSymbol | client/pkg/tracker/tracker.go:35-40 | the record is stored under its own symbol, replacing any earlier one wholesale; other keys are untouched; records stay filed under their own symbol |
| Tracker.Tracker.RemoveTrackedSymbol | client/pkg/tracker/tracker.go:42-47 | the symbol is gone, other keys are untouched, and an absent symbol is a no-op |
| Tracker.Tracker.GetTrackedSymbols | client/pkg/tracker/tracker.go:49-57 | the copy built entry by entry equals the registry, and the registry is unchanged |
| Tracker.Tracker.MarkMessageSent | client/pkg/tracker/tracker.go:59-67 | on a tracked symbol only that record's last-sent time changes, to now; an untracked symbol changes nothing |
| Tracker.SnapshotIsIsolated | client/pkg/tracker/tracker.go:49-57 | a copy taken before a removal still holds the old contents |
| Proto.ChangeFor | client/pkg/monitor/monitor.go:73-79 | the change of the first entry for the symbol, and 0.0 when no entry is for it |
| Proto.FindChange | client/pkg/monitor/monitor.go:73-79 | the early-exit search loop returns `ChangeFor` |
| Detection.PriceFor | client/pkg/monitor/monitor.go:26-33 | the price of the first entry for the symbol; none exactly when no entry is for it |
| Monitor.GetPriceForSymbol | client/pkg/monitor/monitor.go:26-33 | the early-return loop returns `PriceFor` |
| Monitor.BaseAssetOfPair | client/pkg/monitor/monitor.go:102 | cutting the last four characters of `base + "USDT"` gives `base` |
| Monitor.TrimZerosOfDecimal | client/pkg/monitor/monitor.go:101 | trimming zeros from a decimal stops at the point: only the fraction's trailing zeros go |
| Monitor.TrimPointOfDecimal | client/pkg/monitor/monitor.go:101 | trimming points drops the point only when the fraction is empty |
| Monitor.TrimPriceOfDecimal | client/pkg/monitor/monitor.go:101 | the price trim drops the fraction's trailing zeros, and the point with them when nothing is left after it |
| GoStrings.TrimRight | client/pkg/monitor/monitor.go:214 | the result is a prefix that does not end in the character, and everything cut off is that character |
| GoStrings.TrimRightAppend | client/pkg/monitor/monitor.go:214 | trimming `a + b` reaches into `a` only when all of `b` is trimmed |
| DetectionProperties.QualifyKeepsTracked | client/pkg/monitor/monitor.go:81 | qualification never overwrites or drops a record already tracked |
| DetectionProperties.QualifyKeys | client/pkg/monitor/monitor.go:72-92 | after qualification a symbol is tracked iff it was, or it has a price entry and its change reaches the threshold |
| DetectionProperties.QualifyNewRecord | client/pkg/monitor/monitor.go:82-89 | a newly tracked record has the current price as both stored price and baseline, its change, the time now, and no pump flag |
| DetectionProperties.QualifyReportsAdded | client/pkg/monitor/monitor.go:81-91 | the newly tracked list names exactly the symbols qualification added, each once, with the record stored for it |
| DetectionProperties.QualifyFilesUnderOwnSymbol | client/pkg/monitor/monitor.go:89 | qualification keeps every record filed under its own symbol |
| DetectionProperties.PermutedListing | client/pkg/monitor/monitor.go:94-96 | reordering a listing, as the sort does, keeps it a listing of the same records |
| DetectionProperties.EvictLeavesOnlyHot | client/pkg/monitor/monitor.go:115-128 | after eviction every tracked symbol's change is above the threshold; a symbol without a change entry counts as 0.0 and goes when the threshold is not negative; survivors keep their records |
| DetectionProperties.MissingChangeKeptUnderNegativeThreshold | client/pkg/monitor/monitor.go:116-125 | under a negative threshold, which the first bot accepts, a symbol without a change entry counts as 0.0 and stays, with its record |
| DetectionProperties.PumpedOnlyMarks | client/pkg/monitor/monitor.go:130-172 | the pump pass adds and removes no symbol and changes nothing but the pump flag, which it sets only when the alert was delivered |
| DetectionProperties.PumpAtMostOnce | client/pkg/monitor/monitor.go:143 | a marked symbol never fires again and stays marked |
| DetectionProperties.NoPumpAfterWindow | client/pkg/monitor/monitor.go:143 | once the wait window has passed no pump fires |
| DetectionProperties.PumpThresholdExample | client/pkg/monitor/monitor.go:143 | with baseline 100 and pump percent 0.05, a price of 104 is no pump and 106 is |
| DetectionProperties.TickKeepsBaseline | client/pkg/monitor/monitor.go:71-172 | across a tick a record tracked before keeps its baseline and qualification time; at most its pump flag becomes true |
| DetectionProperties.TickKeys | client/pkg/monitor/monitor.go:71-128 | after a tick a symbol is tracked iff it was tracked or has a price entry, and its change is above the threshold |
| DetectionProperties.NewSymbolPumpsOnlyWithinWait | client/pkg/monitor/monitor.go:81-143 | a symbol added in a tick is stamped with the qualification time and is not marked pumped in that tick when the pump test comes after its wait window |
| DetectionProperties.ThresholdTieReportedThenEvicted | client/pkg/monitor/monitor.go:81-125 | a new symbol whose change equals the threshold is reported as newly tracked and evicted in the same tick |
| DetectionProperties.QualifyExample | client/pkg/monitor/monitor.go:81-90 | "ABCUSDT" at 25% against 20% is tracked with baseline 1.2345 and reported |
| DetectionProperties.RefreshOnlyUpdatesPrice | client/pkg/monitor/monitor.go:229-230 | the status refresh keeps the keys and changes only the stored price, to the current one |
| DetectionProperties.DigestOrderExample | client/pkg/monitor/monitor.go:94-96 | records at 30%, 45% and 22% are reported in the order 45%, 30%, 22% |
| Monitor.QualifyPass | client/pkg/monitor/monitor.go:71-92 | the registry and the newly tracked list end as the qualification function says |
| Monitor.EvictPass | client/pkg/monitor/monitor.go:115-128 | the map-iteration loop leaves the registry as the eviction function says, whatever the order |
| Monitor.CheckPump | client/pkg/monitor/monitor.go:137-171 | one record: whether the pump fires, the alert, and the pump flag set only when the alert fired and was delivered |
| Monitor.PumpPass | client/pkg/monitor/monitor.go:130-172 | the registry ends as the pump function says, and the alerts name exactly the firing symbols, each once, each built from its record |
| Monitor.ListRecords | client/pkg/monitor/monitor.go:192-197 | the slice built from the map lists every record exactly once |
| Monitor.ProcessTicker | client/pkg/monitor/monitor.go:54-174 | a failed fetch changes nothing and sends nothing; otherwise the registry ends qualified (new records stamped `now`), evicted and pumped (the pump test at the later reading `checkedAt`); the digest reports exactly the added records in non-increasing change and is sent only when there are any; the alerts go to the second chat |
| Monitor.ReportStatus | client/pkg/monitor/monitor.go:203-231 | one status line whose emoji compares the current price with the stored one, and the stored price becomes the current price |
| Monitor.ReportAndRefresh | client/pkg/monitor/monitor.go:203-231 | one line per listed record, in order, and the registry refreshed |
| Monitor.ProcessNotifyTicker | client/pkg/monitor/monitor.go:176-242 | a failed fetch changes nothing; otherwise every tracked record, sorted by non-increasing change, gets its status line, the stored prices become current, and the digest is sent only when there are records |
| Sorting.SortDescending | client/pkg/monitor/monitor.go:94-96 | the array ends in non-increasing key order and is a permutation of the input |
| Sorting.SortedBy | client/pkg/monitor/monitor.go:198-200 | a sorted copy: non-increasing by key and a permutation of the input |
| Sorting.PermutationKeepsListing | client/pkg/monitor/monitor.go:198-200 | reordering a listing that names each key once keeps it one |
| Sorting.ListsExactlyCount | cmd/binance/main.go:45-56 | a listing of a key set has one element per key |
| Cancellation.CancelFuncs.constructor | client/pkg/cancelfuncs/cancelfuncs.go:13-17 | a new registry holds no ids and has invoked nothing |
| Cancellation.CancelFuncs.Add | client/pkg/cancelfuncs/cancelfuncs.go:19-23 | the id maps to the new function; a replaced function is not invoked; other ids are untouched |
| Cancellation.CancelFuncs.Remove | client/pkg/cancelfuncs/cancelfuncs.go:25-31 | a present id's function is invoked once and the id deleted; an absent id changes nothing; other ids are untouched |
| Cancellation.RemoveTwice | client/pkg/cancelfuncs/cancelfuncs.go:25-31 | two removals in a row invoke the function at most once |
| Cancellation.AddThenRemove | client/pkg/cancelfuncs/cancelfuncs.go:19-31 | removing what was just added invokes exactly that function |
| Telegram.StatesDistinct | client/pkg/telegram/chatbot.go:10-16 | the five states have distinct values and `StateNone` is zero |
| Telegram.ChatState.constructor | client/pkg/telegram/chatbot.go:18-24 | the zero chat state |
| Telegram.ChatState.SetEmail | client/pkg/telegram/chatbot.go:37-41 | sets the email and no other field |
| Telegram.ChatState.GetEmail | client/pkg/telegram/chatbot.go:43-47 | returns the email |
| Telegram.ChatState.SetFirstChatID | client/pkg/telegram/chatbot.go:49-53 | sets the first chat id and no other field |
| Telegram.ChatState.SetSecondChatID | client/pkg/telegram/chatbot.go:55-59 | sets the second chat id and no other field |
| Telegram.ChatState.GetFirstChatID | client/pkg/telegram/chatbot.go:61-65 | returns the first chat id |
| Telegram.ChatState.GetSecondChatID | client/pkg/telegram/chatbot.go:67-71 | returns the second chat id |
| Telegram.ChatState.SetState | client/pkg/telegram/chatbot.go:85-89 | sets the state and no other field |
| Telegram.ChatState.GetState | client/pkg/telegram/chatbot.go:91-95 | returns the state |
| Telegram.ChangePercent24.SetPercent | client/pkg/telegram/chatbot.go:73-77 | sets the percent |
| Telegram.ChangePercent24.GetPercent | client/pkg/telegram/chatbot.go:79-83 | returns the percent |
| Telegram.PumpSettings.SetWaitTime | client/pkg/telegram/chatbot.go:97-101 | sets the wait time and leaves the pump percent |
| Telegram.PumpSettings.GetWaitTime | client/pkg/telegram/chatbot.go:103-107 | returns the wait time |
| Telegram.PumpSettings.SetPumpPercent | client/pkg/telegram/chatbot.go:109-113 | sets the pump percent and leaves the wait time |
| Telegram.PumpSettings.GetPumpPercent | client/pkg/telegram/chatbot.go:115-119 | returns the pump percent |
| Telegram.SettingsAreIndependent | client/pkg/telegram/chatbot.go:97-119 | the wait time and the pump percent each round-trip, whatever the other |
| Users.User.constructor | client/pkg/user/user.go:50-55 | a new user is in `StateNone` with zero ids and fresh, non-nil settings at zero |
| Users.User.SetState | client/pkg/user/user.go:93-97 | sets the state and no other field, settings pointers included |
| Users.User.GetState | client/pkg/user/user.go:99-103 | returns the state |
| Users.User.SetEmail | client/pkg/user/user.go:105-109 | sets the email and no other field |
| Users.User.GetEmail | client/pkg/user/user.go:111-115 | returns the email |
| Users.User.SetFirstChatID | client/pkg/user/user.go:117-121 | sets the first chat id and no other field |
| Users.User.SetSecondChatID | client/pkg/user/user.go:123-127 | sets the second chat id and no other field |
| Users.User.GetFirstChatID | client/pkg/user/user.go:129-133 | returns the first chat id |
| Users.User.GetSecondChatID | client/pkg/user/user.go:135-139 | returns the second chat id |
| Users.UserManager.constructor | client/pkg/user/user.go:44-48 | a new manager has no users |
| Users.UserManager.GetUser | client/pkg/user/user.go:141-146 | found exactly when the id is filed, and then the filed user; otherwise no user |
| Users.UserManager.AddUser | client/pkg/user/user.go:148-152 | files the user under the id, replacing any earlier one |
| Users.AddThenGet | client/pkg/user/user.go:141-152 | a user just added is found under its id, and other ids find what they found before |
| Users.NewUserSettings | client/pkg/user/user.go:50-91 | a new user's wait time, pump percent and 24h percent each round-trip |
| Commands.StartCommandHandlerFirstClient | client/pkg/botcommands/commands.go:20-28 | from any state the chat awaits an email, and the bot asks for it |
| Commands.StartCommandHandlerSecondClient | client/pkg/botcommands/commands.go:30-40 | records the sender as second chat and leaves the state |
| Commands.StopCommandHandler | client/pkg/botcommands/commands.go:42-46 | the sender's cancel function is invoked once, if present, and removed |
| Commands.Change24PercentCommandHandler | client/pkg/botcommands/commands.go:48-57 | the chat awaits a percent and is shown the current 24h percent |
| Commands.SetWaitTimeCommandHandler | client/pkg/botcommands/commands.go:59-68 | the chat awaits a wait time and is shown the current one |
| Commands.SetPumpPercentCommandHandler | client/pkg/botcommands/commands.go:70-79 | the chat awaits a percent and is shown the current pump percent |
| Commands.MessageHandlerFirstClient | client/pkg/botcommands/commands.go:81-165 | by state: a valid email is stored and a code awaited; a code matching the item filed in the `users` table under the chat's stored address returns the chat to `StateNone`, creates an empty tracker and files the cancel function under the sender; a parsed percent becomes the 24h threshold; a rejected answer changes nothing; other states are ignored |
| Commands.CodeForOtherAddressRejected | client/pkg/botcommands/commands.go:114 | a code issued for another address does not verify the chat unless it also matches the item under the chat's own address |
| Commands.MessageHandlerSecondClient | client/pkg/botcommands/commands.go:167-219 | by state: a parsed percent becomes the pump percent; parsed minutes become the wait, as a wrapping 64-bit duration; a rejected answer changes nothing; other states are ignored |
| Commands.FirstClientMovesOnlyOnAcceptance | client/pkg/botcommands/commands.go:82-164 | the first bot's state changes exactly when the reply confirms an answer, only ever to `StateNone` or to awaiting verification; `StateNone` and awaiting a wait time get no reply |
| Commands.SecondClientMovesOnlyOnAcceptance | client/pkg/botcommands/commands.go:168-218 | the second bot's state changes exactly when the reply confirms an answer, only ever to `StateNone` |
| Commands.Wrap64 | client/pkg/botcommands/commands.go:206 | the product is taken to the signed 64-bit range, congruent modulo 2^64 |
| Commands.SmallWaitTimeDoesNotWrap | client/pkg/botcommands/commands.go:206 | up to 153722867 minutes either way, the wait is exactly that many minutes |
| Commands.LargeWaitTimeWraps | client/pkg/botcommands/commands.go:206 | 153722868 minutes wraps to a negative wait |
| Commands.SignUp | client/pkg/botcommands/commands.go:20-138 | `/start`, a valid email, then the code issued and filed under that email: the chat is idle, the email stored, a fresh empty tracker created and the cancel function filed under the sender |
| Commands.ChangeThreshold | client/pkg/botcommands/commands.go:48-164 | the threshold command followed by a number sets the threshold and returns to `StateNone` |
| Commands.ChangeWaitTime | client/pkg/botcommands/commands.go:59-218 | the wait-time command followed by a small number of minutes sets the wait to that many minutes and leaves the pump percent |
| EmailVerify.CharSetIsAlphanumeric | client/pkg/emailverify/emailverify.go:15 | the alphabet has 62 characters, exactly the ASCII letters and digits, each at one index |
| EmailVerify.CodeFromProperties | client/pkg/emailverify/emailverify.go:26-33 | a code has one character per pick, each from the alphabet, the picks can be read back from it, and no picks give "" |
| EmailVerify.CodeFromInjective | client/pkg/emailverify/emailverify.go:26-33 | different picks give different codes |
| EmailVerify.Lookup | client/pkg/emailverify/emailverify.go:90-97 | the item is found exactly when one is filed under the address, and it is that item |
| EmailVerify.GenerateVerificationCode | client/pkg/emailverify/emailverify.go:26-33 | the loop over a byte buffer yields the code of the picks |
| EmailVerify.TruncateToSecond | client/pkg/emailverify/emailverify.go:118 | the stored time is now rounded down to a whole second |
| EmailVerify.VerifyCode | client/pkg/emailverify/emailverify.go:108-130 | yes exactly when the code equals the stored code, and then the time written is now to the second |
| EmailVerify.AfterVerify | client/pkg/emailverify/emailverify.go:108-123 | the item written after a successful verification: `LastVerified` becomes the written time and every other field is kept; for a missing item only the address and that time are set |
| EmailVerify.IssuedCodeVerifies | client/pkg/emailverify/emailverify.go:35-131 | the code just issued verifies and no other does, and until then the user is due a verification |
| EmailVerify.MissingItemVerifiesEmptyCode | client/pkg/emailverify/emailverify.go:102-108 | without a stored item only the empty code verifies |
| EmailVerify.ShouldSend | client/pkg/emailverify/emailverify.go:148-158 | due when there is no item, when it was never verified, or when it was last verified more than the window ago |
| EmailVerify.ShouldSendVerificationEmail | client/pkg/emailverify/emailverify.go:133-158 | due exactly when never verified or last verified more than 24 hours (86400 seconds) ago, a missing item counting as never verified |
| EmailVerify.VerifiedIsFreshForWindow | client/pkg/emailverify/emailverify.go:133-158 | after a verification the user is not due again within the window (less a second) and is due once it has passed |
| EmailVerifyInternal.GenerateVerificationCode | client/internal/emailverify/emailverify.go:20-27 | a code of the requested length, each character the picked alphabet character and alphanumeric; length 0 gives "" |
| Exchange.UsdtPrices | server/pkg/grpcbinance/server.go:28-38 | no longer than the listing, and every entry is a USDT pair |
| Exchange.ParsedChanges | server/pkg/grpcbinance/server.go:52-63 | no longer than the listing |
| Exchange.UsdtPricesAppend | server/pkg/grpcbinance/server.go:28-38 | the price filter maps a concatenation to a concatenation: input order is kept |
| Exchange.ParsedChangesAppend | server/pkg/grpcbinance/server.go:52-63 | the change filter keeps input order in the same way |
| Exchange.UsdtPricesMembers | server/pkg/grpcbinance/server.go:28-38 | an entry is in the response iff some listed pair ends in "USDT" and gives it, with its parsed price or 0 |
| Exchange.ParsedChangesMembers | server/pkg/grpcbinance/server.go:52-63 | an entry is in the response iff some ticker with that symbol parsed to it; symbols are not filtered |
| Exchange.UnparseablePriceKeptAsZero | server/pkg/grpcbinance/server.go:31 | a USDT pair whose price does not parse is listed at 0 |
| Exchange.UnparseableChangeDropped | server/pkg/grpcbinance/server.go:54-57 | a ticker whose change does not parse contributes nothing |
| GrpcBinance.GetUSDTPrices | server/pkg/grpcbinance/server.go:22-44 | an upstream error is returned as is; otherwise the filtered prices |
| GrpcBinance.Get24HChangePercent | server/pkg/grpcbinance/server.go:46-69 | an upstream error is returned as is; otherwise the parsed changes |
| GrpcBinanceInternal.GetUSDTPrices | server/internal/grpcbinance/server.go:20-42 | an upstream error is returned as is; otherwise exactly the filtered prices, in listing order, so no longer than the listing, and an entry is present iff a USDT pair of the listing gives it |
| GrpcBinanceInternal.Get24hChangePercent | server/internal/grpcbinance/server.go:44-67 | an upstream error is returned as is; otherwise exactly the parsed changes, in listing order, so no longer than the listing, and an entry is present iff a ticker parsed to it |
| BinanceApi.GetUSDTPrices | internal/binanceAPI/client.go:32-47 | an upstream error is returned as is; otherwise the price map of the listing |
| BinanceApi.Get24hChangePercent | internal/binanceAPI/client.go:49-64 | an upstream error is returned as is; otherwise the change map of the listing |
| BinanceApi.PriceMapKeys | internal/binanceAPI/client.go:38-44 | the price map's keys are exactly the listed symbols ending in "USDT" |
| BinanceApi.PriceMapLastEntryWins | internal/binanceAPI/client.go:42 | a symbol's price is that of its last entry in the listing |
| BinanceApi.ChangeMapKeys | internal/binanceAPI/client.go:55-62 | the change map's keys are exactly the symbols with a change that parsed |
| BinanceApi.ChangeMapLastParsedWins | internal/binanceAPI/client.go:57-61 | a symbol's change is its last change that parsed; later unparseable ones do not overwrite it |
| BinanceApi.DuplicateKeepsLater | internal/binanceAPI/client.go:42 | of two entries for one pair, the later price is kept |
| Movers.BuildReply | cmd/binance/main.go:62-67 | the header, then one line per mover in order |
| Movers.PairNameOfUsdtPair | cmd/binance/main.go:65 | replacing the first "USDT" in `base + "USDT"` gives `base + "/USDT"` when the base has no "USDT" of its own |
| BinanceMain.FilterMovers | cmd/binance/main.go:45-56 | the map-iteration loop lists exactly the pairs with a change of at least 20, each once, with its price and change |
| BinanceMain.PermutedKept | cmd/binance/main.go:58-60 | the sort keeps that listing |
| BinanceMain.HandleText | cmd/binance/main.go:32-70 | a failed fetch is answered with its error alone; otherwise exactly the kept pairs, by non-increasing change, under the header |
| BinanceMain.SummaryLength | cmd/binance/main.go:62-67 | the reply has one line per kept pair |
| BinanceMain.ReportedIff | cmd/binance/main.go:46-56 | a pair is reported iff it is priced, has a change, and that change is at least 20 |
| ClientMain.KeptMovers | client/cmd/binance-client/main.go:64-82 | no more movers than priced pairs, and every kept mover is a priced pair carrying its first matching change, at least 20 |
| ClientMain.FilterMovers | client/cmd/binance-client/main.go:64-82 | the nested search loop keeps the movers of the filter function, in list order |
| ClientMain.MovedIsKept | client/cmd/binance-client/main.go:64-82 | a priced pair whose first matching change is at least 20 is kept |
| ClientMain.KeptMoversMembers | client/cmd/binance-client/main.go:64-82 | a mover is kept iff a priced pair gives its symbol and price, and its change is that pair's first matching change and at least 20 |
| ClientMain.UnlistedChangeNotKept | client/cmd/binance-client/main.go:64-81 | a pair without a change entry counts as 0.0 and is never reported |
| ClientMain.Handler | client/cmd/binance-client/main.go:46-98 | a failed fetch is answered with its error alone; otherwise the kept movers reordered by non-increasing change, under the header |
| ClientMain.ReportedMoved | client/cmd/binance-client/main.go:74-81 | every reported pair is priced and moved at least 20 |

## Left out

- The locks of the tracker, cancel registry, chat state, settings and user manager. Every operation is one sequential step.
- The ticker loop of `PriceChanges` and the goroutine that starts it. One tick and one status digest are methods. Cancelling a context is recorded as an invocation, not as stopping a loop.
- `processLogTicker`: it only logs.
- Number formatting and parsing.
  - `%.8f`, `%.2f` and `%.7f` are not modelled: prices stay numbers.
  - The stored `PriceChange` string is the price it formats, or none when the symbol had no price entry. Its parse is 0 when absent, as Go's ignored parse error gives.
  - The trailing-zero trim is modelled on digit strings and proved on decimal forms. It is not applied to the stored price.
  - `ParseFloat`, `Atoi` and `mail.ParseAddress` outcomes are inputs. An out-of-range literal, for which `ParseFloat` returns an infinity together with its error, is not modelled: a failed parse of a price is taken as 0.
- Detection.PumpFires: the ratio `current/first - 1` is only computed for a positive baseline. Go divides by a zero or unparseable baseline and gets an infinity or NaN. With a zero baseline and a positive price Go fires; the model does not.
- Monitor.ProcessTicker: digest and status lines keep the full symbol. Go cuts its last four characters, which panics on a symbol shorter than four. The cut is modelled separately as `Monitor.BaseAsset`, for symbols of four characters or more.
- Monitor.ProcessTicker: the clock is read at two instants, `now` for every record qualified in the tick and `checkedAt` for every pump test. Go calls `time.Now()` once per new record and `time.Since` once per tracked record, so within one pass those readings may differ by the time the pass takes.
- The pump message is also written into the digest builder after the digest was sent. It has no effect and is not modelled.
- Telegram sends are inputs. A set of symbols whose alert was delivered stands for the send results. Other sends are returned as outgoing messages, whatever their outcome.
- Email, database and AWS I/O in `SendVerificationEmail`, `VerifyCode` and `ShouldSendVerificationEmail`. The `users` table is an input map from address to item, read under the chat's stored address; writing the verified time is the record `AfterVerify` returns.
  - The call at client/pkg/botcommands/commands.go:100 passes fewer arguments than `SendVerificationEmail` takes. The model follows the handler and leaves sending out.
- Go's `time.Time` is integer nanoseconds, and the zero time is `None`. RFC 3339 formatting is truncation to whole seconds.
- `rand.Intn` becomes a supplied sequence of picks below 62. A negative code length, which panics in Go, is excluded by the length being a `nat`.
- EmailVerify.CharSet is written as the concatenation of its lower-case, upper-case and digit runs. The string is the same 62 characters.
- Duplicated code is modelled once and shared:
  - `ChangePercent24`, `PumpSettings` and `State` in client/pkg/user/user.go are identical to those in client/pkg/telegram/chatbot.go; `Users` uses the `Telegram` ones.
  - server/internal/grpcbinance/server.go and client/internal/emailverify/emailverify.go behave as their pkg copies, and their modules delegate to them.
- Chat ids (`int64`) are unbounded integers. Only the wait-time product, where the width changes the result, wraps at 64 bits.
- `GetAccountInfo` and the client constructors only call the exchange library.
- Process wiring, secrets and gRPC/TLS setup in the entry points, and the `%v` text of error replies: a failed fetch is replied to with the fetch that failed and its error.
- The two one-shot bots' replies keep each line's price and change as numbers rather than `%.2f` text.
- The delivery of the tracker to the monitoring goroutine after verification. The handler returns the fresh tracker it creates.
