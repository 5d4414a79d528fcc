# MEXC–Quanto spread monitor, modelled in Dafny

The bot watches a list of trading pairs such as `BTC/USDT`. For each pair it
reads a last price on MEXC (venue A) and a price on Quanto (venue B). The
Quanto price comes from a search over six market codes built from the pair's
base asset; the mid price of the first code whose depth reply is usable is
taken. The bot computes the percentage spread of Quanto over MEXC, records it
for the dashboard and for the alert gate, and raises a Telegram alert when the
spread's magnitude reaches the threshold and grows past the spread recorded
before. Operators add and remove pairs from a web dashboard.

The model has four modules:

- `Wrappers` (`wrappers.dfy`): the `Option` type standing for Python's `None`.
- `QuantoMapping` (`quanto_mapping.dfy`): the candidate market codes, the
  decision logic of the depth lookup, and the first-match search. The depth
  endpoint is a function parameter `DepthSource = string -> Option<DepthReply>`.
  `None` stands for a reply whose reading raised: a network error, a
  timeout, a body that is not JSON, and also a body that is not a JSON object
  or whose `data` is null or not an object.
  The search is a method with a loop and an early return, as in the source.
  It is proved against the function `FirstHit`.
- `SpreadMonitor` (`spread_monitor.dfy`): the base-asset extraction, the
  spread, the alert gate, and class `Monitor`. The class holds the two
  dictionaries `process_pair` writes, `prices` and `lastSpread`. Its method
  `ProcessPair` is the per-pair step. The MEXC price it receives is the
  already-fetched value, and it calls the mapping search itself.
- `PairRegistry` (`pair_registry.dfy`): Python's `strip()`/`upper()`
  normalisation of the submitted form field, `list.remove`, and class
  `Registry` whose `pairs` field the dashboard's add and remove edit in place.

Prices and spreads are Dafny `real`s, not floats.

Behaviour of the code that the model keeps:
- The candidate order is USD before USDT (`-USD-SWAP-LIN` first, `-USDT` last).
- The alert gate uses a strict magnitude increase. In the series 0.5, 1.2,
  1.3, 0.9, 1.4 with threshold 1.0, alerts fire at the second, third and
  fifth poll (`AlertTraceExample`).
- The search stops at the first code whose lookup returns any number, `0.0`
  included (`p is not None`). `process_pair` then skips the pair because `0.0`
  is falsy, and later codes are not tried.
- A negative MEXC price is not rejected: only `None` and `0.0` are skipped.
- `remove_pair` does not reject a blank field. It looks for `""` like any
  other name.

## Model

| member | source | states |
|---|---|---|
| QuantoMapping.Candidates | bot.py:95-102 | six codes, each beginning with the base asset, pairwise distinct, so no market code is tried twice in one search; the body lists the source's six suffixes in its order |
| QuantoMapping.Usable | bot.py:83-89 | the reply conditions under which `fetch_quanto_price` returns a number: the reply arrived, `success` is truthy, `data` is present, both sides have a level and both top prices convert |
| QuantoMapping.QuantoPrice | bot.py:78-92 | a price exists iff the reply arrived, `success` is truthy, `data` is present, both sides have a level and both top prices convert; the price lies between bid and ask and is equidistant from them (the mid price) |
| QuantoMapping.FirstHit | bot.py:103-107 | the index of the first code whose lookup yields a price: all earlier codes miss, and the code at that index hits unless none does |
| QuantoMapping.Mapping | bot.py:94-107 | the (code, price) pair the search settles on: both present or both absent; absent iff every candidate misses; a found code is a candidate and the price is that code's lookup |
| QuantoMapping.TryMappings | bot.py:94-107 | code and price are both present or both absent; a returned code is a candidate whose lookup gives the returned price and every earlier candidate missed; `(None, None)` iff every candidate missed |
| QuantoMapping.EarliestHitWins | bot.py:103-106 | when some candidate yields a price a code is returned, and it is never one after that candidate |
| SpreadMonitor.BaseAsset | bot.py:137 | `symbol.split("/")[0]`: a prefix of the symbol without '/', which is the whole symbol or is followed by '/' |
| SpreadMonitor.Falsy | bot.py:135-140 | definition (no contract): Python falsiness of an optional price, `None` or `0.0`; the skip it causes is stated by ObservedSpread |
| SpreadMonitor.MappedPriceFound | bot.py:137-140 | the Quanto price `process_pair` works with is absent iff every candidate code for the symbol's base asset misses |
| SpreadMonitor.SpreadPercent | bot.py:141 | the spread inverts to the venue-B price, `q == m + m*spread/100`; it is 0 iff the prices are equal; with a positive venue-A price it is positive iff `q > m` and negative iff `q < m` |
| SpreadMonitor.PrevSpread | bot.py:144 | definition (no contract): `last_spread.get(symbol, 0)`; its use as the gate's reference is stated by ProcessPair |
| SpreadMonitor.ShouldAlert | bot.py:145 | an alert never fires for a spread equal to the previous one or for a zero spread; against no record (0) it fires iff the spread is non-zero and its magnitude reaches the threshold |
| SpreadMonitor.DirectionOf | bot.py:146 | definition (no contract): a positive spread reads "buy on MEXC, sell on Quanto", any other "sell on MEXC, buy on Quanto"; its relation to the two prices is DirectionFollowsPrices |
| SpreadMonitor.DirectionFollowsPrices | bot.py:141-146 | with a positive MEXC price the alert says "buy on MEXC, sell on Quanto" iff Quanto is quoted higher |
| SpreadMonitor.ObservedSpread | bot.py:134-141 | the pair is skipped iff the MEXC price or the mapped Quanto price is `None` or `0`; otherwise the spread ties the two prices as above |
| SpreadMonitor.AlertTrace | bot.py:144-150 | over consecutive observations of one pair, an alert fires at a poll iff the spread's magnitude reaches the threshold and exceeds that of the previous observation (or of the initial record) |
| SpreadMonitor.SustainedSpreadAlertsOnce | bot.py:144-150 | a spread whose magnitude stays the same alerts at most at its first poll |
| SpreadMonitor.AlertTraceExample | bot.py:144-150 | the series 0.5, 1.2, 1.3, 0.9, 1.4 with threshold 1.0 and no record alerts at polls 2, 3 and 5 |
| SpreadMonitor.BtcSpread | bot.py:134-141 | `BTC/USDT` at 50000 with `BTC-USDT-SWAP` the first quoting code (bid 50400, ask 50600) records a spread of +1% |
| SpreadMonitor.BtcScenario | bot.py:132-150 | in that situation a fresh monitor with threshold 1.0 sends the alert (`BTC/USDT`, +1%, buy on MEXC and sell on Quanto) |
| SpreadMonitor.PollSpreadsAt | bot.py:134-141 | entry `i` of the per-poll spreads is the spread poll `i` records, or none when it is skipped |
| SpreadMonitor.AlertTraceSnoc | bot.py:144-150 | one more observation appends one gate decision, taken against the observation before it (or the initial record) |
| SpreadMonitor.TraceStep | bot.py:144-150 | one more `process_pair` call keeps the alert invariant of a series: skipped polls send nothing, and the alerts of the other polls are AlertTrace's |
| SpreadMonitor.RecordedStep | bot.py:142-150 | one more `process_pair` call keeps a dictionary equal to the starting one with the recorded spreads written in order |
| SpreadMonitor.Monitor.constructor | bot.py:55 | both dictionaries start empty: `prices = {}` here and `last_spread = {}` at line 114 |
| SpreadMonitor.Monitor.ProcessPair | bot.py:132-152 | skipped: `prices` and `lastSpread` unchanged and no alert; otherwise both get `symbol := spread` unconditionally and no other key changes, and the alert is sent iff the gate holds against the previous record (0 when absent), with the direction given by the sign of the spread |
| SpreadMonitor.Monitor.PollStep | bot.py:132-150 | one `process_pair` call on poll `i` of a series: the series invariant of ProcessSeries holds again with that poll included |
| SpreadMonitor.Monitor.ProcessSeries | bot.py:120-150 | `process_pair` applied to successive polls of one pair: skipped polls send nothing; the alerts of the others are exactly AlertTrace over their spreads, starting from the spread recorded before; afterwards both dictionaries hold the last recorded spread under the pair, or are unchanged when every poll was skipped |
| PairRegistry.LeadingSpaces | bot.py:205 | the length of the whitespace run a string starts with: every character before it is whitespace and the one at it is not |
| PairRegistry.TrimmedEnd | bot.py:205 | where a slice ends once its trailing whitespace is dropped: everything after is whitespace and the last kept character is not |
| PairRegistry.Strip | bot.py:205 | `strip()`: the result neither starts nor ends with whitespace, and it is empty iff the input is all whitespace |
| PairRegistry.StripIsSlice | bot.py:205 | `strip()` keeps one contiguous slice of the input and removes only whitespace around it |
| PairRegistry.UpperChar | bot.py:205 | upper-casing maps each lower-case ASCII letter to the upper-case letter at the same place in the alphabet, keeps every other character, and keeps whitespace whitespace |
| PairRegistry.Upper | bot.py:205 | `upper()` maps each character and keeps the length |
| PairRegistry.FormPair | bot.py:205 | the pair a submission names (the same expression at line 215): empty when the field is missing; no lower-case ASCII letter; no whitespace at either end |
| PairRegistry.FormPairEmpty | bot.py:205-207 | the normalised pair is empty iff the field is missing or all whitespace, which is when add rejects it |
| PairRegistry.FormPairIdempotent | bot.py:205-217 | normalising twice gives the same name, so a stored name is found by remove when submitted again |
| PairRegistry.FirstIndex | bot.py:216-217 | the first position holding the pair |
| PairRegistry.RemoveFirst | bot.py:216-217 | unchanged when the pair is absent; one shorter when it is present |
| PairRegistry.RemoveFirstAt | bot.py:217 | `list.remove` cuts out exactly the first occurrence and keeps all other entries in order |
| PairRegistry.RemoveFirstMultiset | bot.py:217 | `list.remove` takes away one copy of the pair and nothing else |
| PairRegistry.RemoveUndoesAdd | bot.py:203-221 | removing a newly added pair that was not listed before restores the list |
| PairRegistry.RemoveAfterDuplicateAdd | bot.py:203-221 | adding a duplicate and then removing it deletes the earlier copy and keeps the new one at the end |
| PairRegistry.Registry.constructor | bot.py:49-53 | the registry starts with the configured list |
| PairRegistry.Registry.AddPair | bot.py:203-211 | rejects iff the normalised pair is empty; otherwise appends it, so the length grows by one and earlier entries are unchanged |
| PairRegistry.Registry.RemovePair | bot.py:213-221 | reports whether the normalised pair was listed and applies `RemoveFirst`, which leaves the list unchanged when it was not |

## Left out

- The MEXC ticker fetch through ccxt (bot.py:71-76) is a foreign library call. Its result reaches `ProcessPair` as a parameter of type `Option<real>`.
- The HTTP transport of the depth request (URL, 8-second timeout, JSON decoding; bot.py:79-82) is a foreign call. It is the `DepthSource` function parameter, and every exception is `None`.
- A `DepthSource` gives the same reply each time it is asked about the same code. Replies that change between calls are not modelled; the six codes of one search are distinct (`Candidates`), so one search never asks twice.
- Telegram sending and the alert's text and emoji (bot.py:58-68, 146-149) are I/O. The alert is returned as a value carrying the pair, the spread and the direction.
- SpreadMonitor.Monitor.ProcessPair: `prices[symbol]` holds the unrounded spread, not `round(spread, 2)` (bot.py:142). Python's float rounding is not modelled. The same holds for the `:.2f` formatting.
- Floating point: overflow, NaN, infinities and binary rounding of `float` are not modelled; arithmetic is exact over `real`.
- SpreadMonitor.Monitor.ProcessSeries: polls of one pair run one after the other. The source spawns each `process_pair` as a task without awaiting it, so two polls of one pair may overlap; that interleaving is not modelled.
- The polling loop, semaphore, task spawning, sleep and daemon thread (bot.py:110-130, 233-241) concern concurrency and timing. The semaphore there is released as soon as each task is spawned, so it does not bound the tasks in flight.
- In the source, `prices` is a module global and `last_spread` a local of the poll loop passed by reference. Both are fields of one `Monitor` object here; aliasing between loop runs is not modelled.
- Configuration load and save, the Flask routes, the HTML page and the JSON status (bot.py:30-53, 155-230 apart from the list edits) are file I/O and UI, and so is logging.
- PairRegistry.UpperChar: upper-cases ASCII letters only. Python's full Unicode case mapping (including characters whose upper case is longer, like 'ß') is not modelled.
