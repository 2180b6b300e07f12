# cryptobot price-alert engine in Dafny

cryptobot is a Telegram bot. A chat subscribes to a cryptocurrency symbol
with a price range (`/notify BTC 10000 20000`) and mutes it again
(`/mute BTC`, `/mute ALL`). A background checker sweeps over every
registered chat once a minute. It asks the market data service for the
price of each subscribed symbol and messages the chat about every
subscription whose range holds the price.

This project models that engine and proves properties of the model:

- `pydict.dfy`: the Python dict as an insertion-ordered list of entries, with `get`, assignment, `pop` and `keys()`.
- `decimal.dfy`: `str(chat_id)` and `int()` on decimal ids, and their round trip.
- `api.dfy`: `extract_value`, the navigation of a decoded JSON response along a key path, and the key paths of `get_name`, `get_symbol` and `get_price`.
- `bounds.dfy`: `validate_range`, the check of the one or two bound tokens of `/notify`.
- `store.dfy`: the key-value storage as a class over a map from storage keys to dicts. It holds the global registry of subscribed chats and each chat's symbol → (minimum, maximum) dict. It provides `send_data` and `update_data` and the invariants they keep.
- `notifier.dfy`: one sweep of `check_prices`, as a method that builds the outbox of messages, against a recursive specification of the sweep.
- `handlers.dfy`: the guard order of `notify_handler` and `mute_handler`, ending either in a reply or in one store write.
- `scenarios.dfy`: worked examples. A quotes response is followed through its list unwrapping. A sweep is shown with a price inside and outside the range. Also covered: a range subscription, a point target, and `/mute ALL`.

The market data service is a parameter `Market`, a function from the query
(a symbol, or a slug for `get_symbol`) to the decoded JSON body.
Python's `float()` on a token is a parameter `float: string -> Option<real>`,
where None stands for the ValueError. Nothing is assumed about either
beyond its type. `Market` is one fixed function for a whole sweep or handler
call, so every lookup of the same symbol gets the same answer (see
"## Left out").

In places the code does something other than what its own text and
structure evidently intend. The model follows the code:

- **A `None` price aborts the sweep.** The evident intent is to skip a symbol the market cannot price. In the code, `minimal <= price` raises TypeError as soon as `get_price` gives None (notifier.py:39-40). The exception ends `check_prices`: the chat being visited gets nothing, and no later chat is visited (`Notifier.SweepSpec`, `Notifier.ScanSucceedsIff`).
- **The registry is read once.** `check_prices` reads the registry before its `while True` loop (notifier.py:25-26) and never again, so a chat that subscribes later is not visited until the checker restarts. The sweep takes that snapshot as an input.
- **A single bound is never stored.** The `/notify` usage text advertises a single "value" as well as a range (bot.py:157-158), and `validate_range` accepts one token as minimum = maximum (bot.py:189-190). But it pops that token out of the list (bot.py:190), so the unpacking at bot.py:176 raises. The point target is validated (`Bounds.ValidateRange` gives minimum = maximum) but never stored (`Handlers.NotifyDecision`, `Scenarios.PointTargetRaises`).
- **A price of 0 means "does not exist".** `extract_value` returns None on any falsy value (api.py:23). A price of 0 therefore reads as an unknown currency (`Api.PriceIsNeverZero`).
- **`/mute ALL` needs a currency named ALL.** The usage text offers `ALL` to disable all notifications (bot.py:245-246). But `mute_handler` looks "ALL" up as a currency name before muting (bot.py:248-251), so it clears the chat's dict only when the market knows a currency with that symbol (`Scenarios.MuteAllNeedsCurrencyAll`).

## Model

| member | source | states |
|---|---|---|
| `PyDict.Put` | bot.py:222 | `d[k] = v`: `k` maps to `v`, every other key keeps its value, a new key goes last in `keys()`, an existing one keeps its place, and keys stay distinct |
| `PyDict.Remove` | bot.py:277 | `d.pop(k)`: `k` is gone, every other key keeps its value, no entry is added, and an absent key leaves the dict as it was |
| `PyDict.RemoveKeepsOrder` | bot.py:277-278 | `pop` on a present key takes out exactly the one entry holding it and leaves every other entry in its place, so the order `for symbol in chat_data` visits them is kept |
| `PyDict.PutPut` | bot.py:231 | assigning a key twice is the same as assigning it once, with the later value |
| `PyDict.KeysMatchGet` | notifier.py:26 | a string is among `keys()` exactly when `get` finds it |
| `PyDict.KeysDistinct` | notifier.py:26 | the keys of a dict are pairwise distinct |
| `Decimal.NatToString` | bot.py:222 | `str` of a natural number is a non-empty run of ASCII digits |
| `Decimal.IntRoundTrip` | notifier.py:29 | `int(str(n)) == n` for every chat id, negative group ids included |
| `Decimal.IntToStringIsCanonical` | bot.py:222 | each key `str(chat_id)` writes is the exact text of the number `int()` reads back |
| `Api.UnwrapList` | api.py:18-19 | the step definition of api.py:18-19, which `Api.Walk` is built from: a non-empty list becomes its first element; anything else is left as it is |
| `Api.UnwrapNumbered` | api.py:20-21 | the step definition of api.py:20-21: a non-empty dict whose first (up to ten) keys are digit strings becomes its first value; a falsy value passes; `.keys()` on any other truthy non-dict is an AttributeError |
| `Api.GetKey` | api.py:22-24 | the step definition of api.py:22-24: `.get(key)` faults on a non-dict; it finds a value exactly when the key is present with a truthy value, and gives None otherwise |
| `Api.ExtractValue` | api.py:12-25 | the loop of `extract_value` computes the walk specified by `Api.Extract`: a fault when the response is not a dict, None when `data` is missing or falsy, then one step per key |
| `Api.WalkFindsTruthy` | api.py:22-24 | every value a walk from a truthy start reaches is truthy |
| `Api.ExtractFindsTruthy` | api.py:13-24 | `extract_value` never returns a falsy value |
| `Api.PriceIsNeverZero` | api.py:42-46 | `get_price` never reports a price of 0: a zero price is None, which the bot reads as an unknown currency |
| `Api.WalkAppend` | api.py:17-25 | walking a path in two parts: the second part is used only when the first reaches a value, so the first None or fault ends the walk |
| `Api.WalkStopsAtMissingKey` | api.py:22-24 | once the lookup of one key gives None, the whole result is None, whatever keys follow |
| `Api.MissingDataIsNone` | api.py:13-15 | a missing or falsy top-level `data` gives None for every key path |
| `Api.WalkFollowsPath` | api.py:17-25 | when every step succeeds, the result is the value reached after the last key |
| `Bounds.CheckToken` | bot.py:194-205 | a token passes exactly when `float()` accepts it and its value is not negative; a token `float()` refuses is reported as that token, and a negative one as the number it parsed to |
| `Bounds.ValidateRange` | bot.py:188-216 | success exactly when every token is accepted (zero included) and the first is at most the last. The bounds are then (first, last), so one token gives minimum = maximum. A bad minimum is reported before the maximum is looked at, a good minimum with a bad maximum reports the maximum, and a bad token is never reported as a descending range. A descending range is reported, with both values, exactly when both tokens are accepted and the minimum is above the maximum |
| `Store.Register` | bot.py:220-223 | afterwards the registry holds `str(chat)`; a registry that already held it is left unchanged; keys are only ever appended; nothing but the registry changes |
| `Store.SetBounds` | bot.py:225-232 | `symbol` maps to the new bounds in the chat's dict; other symbols, the registry and every other key are unchanged |
| `Store.Subscribe` | bot.py:219-232 | `send_data` as a whole: the chat is registered and `symbol` maps to (minimal, maximal), replacing earlier bounds; other symbols and other chats are unchanged; the storage's well-formedness is kept |
| `Store.Mute` | bot.py:267-279 | `update_data`: "ALL" leaves the chat's dict empty, a present symbol is removed and only it, an absent symbol writes nothing; the registry and other chats are unchanged |
| `Store.SubscribeLastWins` | bot.py:230-232 | subscribing to a symbol twice keeps only the later bounds |
| `Store.SubscribeIdempotent` | bot.py:219-232 | subscribing twice with the same bounds is the same as subscribing once |
| `Store.MuteIdempotent` | bot.py:267-279 | muting twice is the same as muting once, for "ALL" and for a single symbol |
| `Store.SubscribeKeepsAscending` | bot.py:176-178 | storing validated bounds keeps every stored range with 0 <= minimum <= maximum |
| `Store.MuteKeepsAscending` | bot.py:267-279 | muting keeps every stored range ascending |
| `Store.RegistryNeverShrinks` | bot.py:220-223 | neither write removes a chat from the registry |
| `Store.Storage.constructor` | bot.py:44 | an empty storage, which is well-formed |
| `Store.Storage.SetData` | bot.py:223 | one `set_data`/`update_data` call replaces the dict under one key and nothing else |
| `Store.Storage.SendData` | bot.py:219-232 | the read-modify-write of `send_data` leaves the storage equal to `Store.Subscribe` of the old storage and keeps it well-formed |
| `Store.Storage.UpdateData` | bot.py:267-279 | the read-modify-write of `update_data` leaves the storage equal to `Store.Mute` of the old storage and keeps it well-formed |
| `Store.Storage.RegisteredChats` | notifier.py:25-26 | the registry's keys in insertion order, read without changing the storage |
| `Notifier.CollectMatches` | notifier.py:36-41 | the loop over one chat's dict computes `Notifier.Scan`: the matches, or None when the loop raises |
| `Notifier.SendNotifications` | notifier.py:42-57 | the messages sent to one chat are `Notifier.Notifications`: a summary if anything matched, then one detail per match |
| `Notifier.Sweep` | notifier.py:27-57 | one sweep over the registry snapshot computes `Notifier.SweepSpec` and reads the storage without changing it (the method has no `modifies` clause) |
| `Notifier.ScanCrashSticks` | notifier.py:37-41 | once the loop over a dict has raised, later entries change nothing |
| `Notifier.SweepCrashSticks` | notifier.py:28-41 | once the sweep has raised, later chats are neither visited nor sent anything, and what was sent before stays sent |
| `Notifier.ScanSucceedsIff` | notifier.py:38-40 | the loop over a dict completes exactly when every entry holds bounds and every symbol has a comparable price |
| `Notifier.ScanCollectsInRange` | notifier.py:38-41 | a subscription is collected exactly when its price lies in its range, both ends included |
| `Notifier.ScanKeepsOrder` | notifier.py:37-41 | the matches are a subsequence of the chat's dict: they keep its iteration order |
| `Notifier.ScanReadsOwnSymbols` | notifier.py:37-39 | the loop asks the market only about the dict's own symbols, so an empty dict causes no price lookup |
| `Notifier.DetailsShape` | notifier.py:47-57 | one detail per match, carrying its symbol and bounds, in collected order, and no summary among them |
| `Notifier.NotificationsShape` | notifier.py:42-57 | a chat gets exactly one summary when something matched and none otherwise; the summary comes first, then one detail per match in order |
| `Notifier.NotificationsAddressed` | notifier.py:43-56 | every message for a chat is addressed to that chat |
| `Notifier.SweepStep` | notifier.py:28-57 | the last chat of a completed sweep parsed, its loop completed, and its messages come after those of the earlier chats |
| `Notifier.CanonicalDenotes` | notifier.py:29 | `int()` of a registry key gives `chat` exactly when the key is `str(chat)` |
| `Notifier.SweepPrefixDelivers` | notifier.py:28-57 | after a completed sweep over part of a well-formed snapshot, each chat has received exactly its own notifications if it is listed in that part, and nothing otherwise |
| `Notifier.SweepDelivers` | notifier.py:28-57 | a completed sweep sends each registered chat exactly its own notifications, and nothing to a chat outside the snapshot |
| `Notifier.RegistryIsWellFormedSnapshot` | notifier.py:25-29 | the registry's keys are canonical decimal ids listed once each, so `int()` visits exactly the registered chats |
| `Handlers.Upper` | bot.py:166 | `upper()` on ASCII: same length, lower-case letters raised, everything else kept |
| `Handlers.NotifyDecision` | bot.py:147-177 | fewer or more words than 3 or 4 is a usage reply. An unknown symbol is reported before the bounds are looked at. A write happens exactly when there are 4 words, the price is found and validation passes, and it writes the validated bounds. With 3 words, passing validation ends in an exception. A fault from `get_price` raises, and a failed validation on a known symbol answers with the validation's own error |
| `Handlers.MuteDecision` | bot.py:235-256 | a count other than 2 words is a usage reply; a write happens exactly when the symbol's name is found; an unknown symbol, "ALL" included, is reported and nothing is written; a fault from `get_name` raises |
| `Handlers.NotifyHandler` | bot.py:147-185 | `notify_handler` answers as `Handlers.NotifyDecision` says, and writes `Store.Subscribe` of the decided bounds only on a subscription decision; it keeps the storage well-formed and every stored range ascending |
| `Handlers.MuteHandler` | bot.py:235-264 | `mute_handler` answers as `Handlers.MuteDecision` says and writes `Store.Mute` only on an unsubscribe decision; the registry never changes and stored ranges stay ascending |
| `Scenarios.PriceSteps` | api.py:42-46 | for a quotes response whose symbol maps to a list of listings, `get_price` unwraps the list and reads the price behind quote → USD → price |
| `Scenarios.NameSteps` | api.py:28-32 | `get_name` on the same response reads the listing's name |
| `Scenarios.SymbolById` | api.py:35-39 | a response keyed by ids is unwrapped to its first listing by `get_symbol` |
| `Scenarios.ScanSingle` | notifier.py:37-41 | a one-subscription dict yields its subscription exactly when the price is in range |
| `Scenarios.SweepWatching` | notifier.py:28-57 | the sweep over registry ["1"] sends chat 1 its notifications |
| `Scenarios.SweepInRange` | notifier.py:28-57 | Bitcoin at 15000 against the range 10000–20000: one summary, then one detail |
| `Scenarios.SweepAboveRange` | notifier.py:28-57 | Bitcoin at 25000 against the same range: nothing is sent and the sweep completes |
| `Scenarios.NotifyStoresRange` | bot.py:147-178 | `/notify btc 10000 20000` subscribes "BTC" with minimum 10000 and maximum 20000 |
| `Scenarios.PointTargetRaises` | bot.py:174-176 | `/notify btc 15000` passes validation but ends in an exception, with nothing stored |
| `Scenarios.MuteAllNeedsCurrencyAll` | bot.py:248-251 | `/mute all` against a market that knows no currency ALL answers "does not exist" and mutes nothing |

## Left out

- HTTP: `make_request` (api.py:5-9) is not modelled. Its decoded response is the `Market` parameter, and its API key and URL are configuration.
- Telegram: the text of replies and messages (`Text`, `Bold`, `Italic`), `message.answer`, `send_message`, and the `/start`, `/name`, `/symbol` and `/price` handlers are left out. So are the webhook and aiohttp setup. Replies are modelled only as which reply is given.
- Environment: `.env` loading, `BOT_ID` and the Redis connection are configuration. Redis is modelled as an in-memory map, and the bot id is left out of storage keys.
- Merge semantics: aiogram's `update_data` merges the dict it is given into the stored one. The handlers always pass back the whole dict they loaded, so the merge is modelled as an overwrite.
- Scheduling: the `while True`, the 60-second sleep and the asyncio task lifecycle in `check_wrapper` (notifier.py:13-21, 58) are left out. One sweep is modelled.
- Concurrency: a handler's write can interleave with a sweep, or with another handler between its read and its write. The model applies each operation atomically.
- One market per call: every lookup of a symbol within one sweep gets the same response from `Market`, although the code makes a fresh request per chat and per symbol (notifier.py:39, api.py:44). The model does not capture two chats watching one symbol seeing different prices, or one seeing a failure while the other does. `Notifier.ScanSucceedsIff`, `Notifier.SweepDelivers` and the scenarios are stated for such a fixed market.
- Delivery: the model assumes every `send_message` succeeds.
- Floats: `float()` and IEEE-754 (NaN, infinity, rounding) are replaced by the abstract parse parameter and real numbers.
- Python's `int()`: signs, surrounding whitespace, underscores and non-ASCII digits are not modelled. `Decimal.ParseInt` accepts an optional minus sign followed by ASCII digits, which covers every key `str(chat_id)` writes.
- `str.isdigit` and `str.upper`: Unicode behaviour is not modelled. `Api.IsDigitString` and `Handlers.Upper` are their ASCII restrictions.
- `strip` and `split` of the message text are not modelled. The handlers take the words as input.
- `Api.ExtractValue`: `value.pop(0)` also removes the element from the response list in place. No caller reads the response again, so only the value popped is modelled, and the response is an immutable value.
- Chat id 0: `Store.Register`, `Store.SetBounds`, `Store.Subscribe`, `Store.Mute` and the storage methods require `chat != 0`, because chat 0's storage key would be the registry's own key. Telegram never issues chat id 0.
- Non-numeric prices: `Notifier.PriceOf` treats a `True`/`False` price as 1/0, as Python compares them. Every other non-number makes the comparison raise. A string is treated the same way: comparing a string with a float raises in Python as well.
