# tradingview-extractor, modelled in Dafny

tradingview-extractor collects financial figures for companies listed on the Colombo Stock
Exchange. It works in three stages:

- It opens a quote session on TradingView's WebSocket feed and sends six length-framed requests
  (`~m~<len>~m~<payload>`).
- It accumulates the `qsd` updates that come back into a snapshot dictionary.
- It writes the snapshot into a MongoDB company record as one `$set` document.

A batch driver walks the company list with retries, a linear backoff and a rate-limit pause.

The model follows the modules of the program:

| file | module | what it models |
|---|---|---|
| `wrappers.dfy` | `Wrappers`, `Strings` | `Option`, `Min`/`Max`, and the string predicates the rest uses |
| `json.dfy` | `Json` | decoded JSON values and Python truthiness |
| `frame_codec.dfy` | `FrameCodec` | `create_message` and `parse_tradingview_message` |
| `snapshot.dfy` | `Snapshot` | the snapshot schema and the per-segment decision of `on_message` |
| `session.dfy` | `Session` | the session id, the handshake, and both `fetch_financial_data` variants |
| `mongodb_handler.dfy` | `MongoHandler` | the update document, `update_company_financials` and the connection-string rewrite |
| `financial_sync.dfy` | `FinancialSync` | `process_all_companies` |
| `symbols.dfy` | `Symbols` | the `CSELK:` prefix and `extract_symbol_without_exchange` |

Some notes on how the model is built:

- **One scanner.** Both fetcher variants carry identical copies of the scanner. The model defines
  it once: a specification function `Scan` and the cursor loop `ParseMessage`, proved to compute it.
- **The handler's state is a class.** `on_message` mutates a dictionary and, in the single-company
  variant, a `received_data` flag. `Snapshot.Accumulator` holds both as fields. Its methods are the
  handler's loops, and each is proved against the pure fold `ApplyDeltas`.
- **Per-message handler.** The session folds (`ApplyMessages`, `UntilReceived`) take the handling
  of one message as a function `handle`. The fetchers instantiate it with `Handler(decode)`, that
  is, scan the message and then classify each segment.
- **Behaviour kept as written:**
  - The backoff is linear: `retry_delay * (attempt + 1)`, although a comment calls it exponential.
  - The rate-limit test compares each company with the last code of the full list, not of the
    visited slice. Codes compare as whole records, `id` included.
  - `time.sleep` with a negative length raises `ValueError`. Neither loop catches it, so the run
    stops, `close()` runs, and the exception escapes; `Progress.aborted` records it.
  - `update_one` can raise exceptions that are not a `PyMongoError`, such as bson's `OverflowError`
    for an integer beyond 64 bits. The handler's `except` does not catch these, so they escape
    `update_company_financials`. The retry loop's `except Exception` then catches them and backs off
    as after a failed fetch.
  - `MongoDBHandler()` is built before the driver's `try`. When `MONGODB_URI` is missing or empty, or
    `connect` raises, the exception escapes before any fetch and without `close()`.
  - Neither fetcher's snapshot has a `total_revenue_fy_h` key, so the revenue entries of the update
    document are never set from a fetch.

## Model

| member | source | states |
|---|---|---|
| FrameCodec.DecimalRoundTrip | src/fetch_tradingview_financials.py:32 | reading back the decimal length that `create_message` writes gives the length |
| FrameCodec.ParseMessage | src/fetch_tradingview_financials.py:80-107 | the cursor loop returns exactly `Scan` of the raw message: a payload per matched header whose declared length fits, stopping silently at the first bad or overlong header |
| FrameCodec.MatchHeaderComplete | src/fetch_tradingview_financials.py:82-90 | the header pattern matches whenever the text starts with `~m~`, a digit run and `~m~`, and captures exactly that digit run |
| FrameCodec.ScanFrame | src/fetch_tradingview_financials.py:31-32 | scanning one `create_message` frame followed by anything yields its content, then the scan of what follows |
| FrameCodec.RoundTrip | src/fetch_tradingview_financials.py:31-32 | parsing concatenated frames returns exactly their contents, even when a content contains `~m~` |
| FrameCodec.ScanAppend | src/fetch_tradingview_financials.py:80-107 | frames followed by any tail scan to their contents, then the scan of the tail |
| FrameCodec.ScanStopsAtBadHeader | src/fetch_tradingview_financials.py:86-88 | a position without a header ends parsing, keeping the frames before it |
| FrameCodec.ScanStopsAtOverlongFrame | src/fetch_tradingview_financials.py:97-101 | a declared length that runs past the input ends parsing, keeping the frames before it |
| FrameCodec.TruncatedFrameScansToNothing | src/fetch_tradingview_financials.py:80-107 | every proper prefix of one frame, cut in the header or in the payload, parses to no segment |
| FrameCodec.TruncatedStreamYieldsCompleteFrames | src/fetch_tradingview_financials.py:80-107 | a stream cut inside a frame yields exactly the complete frames before the cut |
| FrameCodec.ScanConsumesInput | src/fetch_tradingview_financials.py:96-105 | each segment found consumes its payload plus a header of at least 7 characters, so the parse makes progress and never reads beyond the input |
| FrameCodec.LeadingDigits | src/fetch_tradingview_financials.py:82-86 | the greedy `\d+` takes a maximal digit run from the start |
| Snapshot.InitialSnapshot | src/fetch_tradingview_financials.py:44-75 | the starting dictionary has exactly the 29 financial keys plus `symbol`, every financial key `None` and `symbol` the requested symbol |
| Snapshot.Restrict | src/fetch_tradingview_financials.py:124-126 | the part of a `v` object that gets copied is its entries under snapshot keys, values unchanged |
| Snapshot.MergeComplete | src/fetch_tradingview_financials.py:124-126 | a dictionary in which exactly the snapshot keys present in `v` took `v`'s values is the old dictionary overridden by the restricted `v` |
| Snapshot.Classify | src/fetch_tradingview_financials.py:113-128 | a segment is accepted exactly when it decodes to a `qsd` message whose second parameter has status `ok` and whose `v` is an object, or a list or string holding no snapshot key; an accepted update writes only snapshot keys; every other segment, including those on which Python raises, is skipped |
| Snapshot.Accumulator.constructor | src/fetch_tradingview_financials.py:44-75 | the handler starts from the initial snapshot with the received flag down |
| Snapshot.Accumulator.MergeFields | src/fetch_tradingview_financials.py:124-126 | the key loop leaves the dictionary overridden by the snapshot-key entries of `v` and keeps the flag |
| Snapshot.Accumulator.HandleSegment | src/single_company_tvdata_fetch.py:113-130 | one segment changes the state exactly as its classification says: merge and raise the flag, or nothing |
| Snapshot.Accumulator.OnMessage | src/single_company_tvdata_fetch.py:108-130 | `on_message` applies the deltas of the message's segments in order; a heartbeat changes nothing |
| Snapshot.KeysPreserved | src/fetch_tradingview_financials.py:124-126 | updates within the snapshot keys never add or remove a key of the dictionary |
| Snapshot.AnyAcceptedIff | src/single_company_tvdata_fetch.py:122-128 | the recursive "some delta accepted" is the existential it names |
| Snapshot.ReceivedIffAccepted | src/single_company_tvdata_fetch.py:127 | the received flag is set after a run of segments exactly when it was set before or one of them was accepted |
| Snapshot.LastWriteWins | src/fetch_tradingview_financials.py:124-126 | after several updates a key holds the value of the last update that wrote it |
| Snapshot.UnwrittenKeyUnchanged | src/fetch_tradingview_financials.py:124-126 | a key that no update writes keeps its value |
| Snapshot.HeartbeatScansToNothing | src/fetch_tradingview_financials.py:110-111 | a heartbeat message frames no payload, so dropping it early loses nothing |
| Snapshot.QsdObjectWrites | src/fetch_tradingview_financials.py:118-126 | a `qsd`/`ok` update with an object `v` writes exactly its snapshot-key entries, `symbol` included when present |
| Session.SessionId | src/fetch_tradingview_financials.py:28 | the session id is `qs_` followed by the 12 drawn ASCII letters and digits, 15 characters in all |
| Session.HandshakePayloads | src/fetch_tradingview_financials.py:34-41 | exactly six requests are sent on open, for `set_data_quality`, `set_auth_token`, `set_locale`, `quote_create_session`, `quote_add_symbols` and `quote_fast_symbols` in that order |
| Session.HandshakeParameters | src/fetch_tradingview_financials.py:34-41 | the session requests carry the id, and the symbol where needed, as their quoted first parameters; the first three requests depend on neither |
| Session.HandshakeRoundTrip | src/fetch_tradingview_financials.py:31-41 | each handshake message parses back to exactly its request, and so does their concatenation |
| Session.FetchFinancialData | src/fetch_tradingview_financials.py:16-175 | the timeout fetch sends the six handshake frames and returns the snapshot after handling every delivered message in order; its keys are always the snapshot keys |
| Session.FetchFinancialDataFirstDelta | src/single_company_tvdata_fetch.py:14-160 | the single-company fetch sends the handshake, handles messages until an accepted update closes the socket, and returns the snapshot when an update was received, else `None` |
| Session.NoneIffNothingAccepted | src/single_company_tvdata_fetch.py:127-160 | the single-company fetch returns `None` exactly when no delivered message holds an accepted update |
| Session.StopsAtFirstAccepting | src/single_company_tvdata_fetch.py:127-128 | the single-company fetch's result is the state after exactly the messages up to and including the first accepting one; later messages are never handled |
| Session.FromAgreesWithApplyMessages | src/fetch_tradingview_financials.py:109-128 | handling messages front to back and the fold used by the timeout fetch give the same state |
| Session.TimeoutFetchAlwaysAnswers | src/fetch_tradingview_financials.py:175 | the timeout fetch always returns the full key set, `symbol` included, so its result is never empty or `None` |
| Session.MessagesKeepKeys | src/fetch_tradingview_financials.py:109-128 | handling any messages whose updates stay within the snapshot keys keeps the dictionary's key set |
| MongoHandler.LayoutFieldsDistinct | src/mongodb_handler.py:73-371 | the 86 entries of the update-document literal have pairwise distinct field names, so no entry overrides another |
| MongoHandler.PathInjective | src/mongodb_handler.py:73-371 | distinct field names give distinct `tradingViewData.` paths |
| MongoHandler.SafeGetFirstValue | src/mongodb_handler.py:52-56 | a falsy value gives `None`; a non-empty list gives its first item and a string its first character; a truthy number, boolean or object raises |
| MongoHandler.RawDocFailsIff | src/mongodb_handler.py:73-371 | building the dictionary raises exactly when one of its entries raises |
| MongoHandler.RawDocKeys | src/mongodb_handler.py:73-371 | a built dictionary has exactly the paths of the entries as keys |
| MongoHandler.RawDocValue | src/mongodb_handler.py:73-371 | with distinct fields, each path holds the value its entry computes |
| MongoHandler.RemoveNone | src/mongodb_handler.py:373 | the filter keeps exactly the keys whose value is not `None`, values unchanged |
| MongoHandler.UpdateDocShape | src/mongodb_handler.py:73-373 | the `$set` document always carries `lastUpdated` with the given time, holds no `None`, and its other keys are paths of layout entries |
| MongoHandler.UpdateDocRaisesIff | src/mongodb_handler.py:73-371 | building the document raises exactly when a "latest" entry meets a truthy number, boolean or object |
| MongoHandler.EntryInDoc | src/mongodb_handler.py:73-373 | an entry's path is in the document exactly when its value is not `None`, and then holds that value |
| MongoHandler.MissingSourceNoEntry | src/mongodb_handler.py:73-373 | a source key missing from the snapshot produces no entry |
| MongoHandler.LatestIsFirstOfHistory | src/mongodb_handler.py:106-111 | a "latest" entry holds the first item of the list its history entry holds, and is absent when the snapshot key is missing, `None` or empty |
| MongoHandler.TotalAssetsPairing | src/mongodb_handler.py:106-111 | `totalAssets` is the first item of `totalAssetsHistoryYearly`, both read from `total_assets_fy_h` |
| MongoHandler.ForeignSourceNeverSet | src/mongodb_handler.py:73-371 | an entry reading a key that the fetcher's snapshot never has is never set from a snapshot |
| MongoHandler.TotalRevenueNeverSet | src/mongodb_handler.py:184-186 | `tradingViewData.totalRevenue` is never set from a fetched snapshot |
| MongoHandler.UpdateCompanyFinancials | src/mongodb_handler.py:58-387 | `None` or `{}` returns False without a store call; `update_one` is called exactly when the data is non-empty and the document builds, and gets the symbol filter, the `$set` document and no upsert; the result is True exactly when a record was modified; a `PyMongoError` gives False; an exception escapes exactly when the document build fails or sending it raises something other than a `PyMongoError` |
| MongoHandler.NoQueryMarkerIff | src/mongodb_handler.py:20 | the marker test is the substring test for `/?` |
| MongoHandler.ReplaceQueryMarker | src/mongodb_handler.py:21 | the rewrite keeps a non-empty string non-empty and keeps its first character |
| MongoHandler.ReplaceLeavesNoMarker | src/mongodb_handler.py:20-21 | after the rewrite no `/?` is left |
| MongoHandler.ReplaceFirstMarker | src/mongodb_handler.py:20-21 | text before the first `/?` is kept, that `/?` becomes `/cse-data?`, and the rest is rewritten in the same way |
| MongoHandler.ReplaceIdentityWithoutMarker | src/mongodb_handler.py:20-21 | a string without `/?` is left unchanged |
| MongoHandler.ReplaceNamesDatabase | src/mongodb_handler.py:20-21 | where there was a `/?`, the result contains `/cse-data?` |
| MongoHandler.ConnectionUri | src/mongodb_handler.py:14-23 | there is no connection string exactly when `MONGODB_URI` is missing or empty; a string holding `/?` gets every `/?` rewritten, any other gets `cse-data` appended; a settled connection string never contains `/?` |
| MongoHandler.ConnectionUriNamesDatabase | src/mongodb_handler.py:15-23 | the settled connection string always names `cse-data` |
| MongoHandler.MongoDBHandler.constructor | src/mongodb_handler.py:14-23 | the handler's `uri` is the rewritten connection string |
| MongoHandler.OpenHandler | src/mongodb_handler.py:14-28 | construction fails exactly when `MONGODB_URI` is missing or empty; otherwise the handler holds the rewritten string |
| FinancialSync.SliceTo | src/financial_sync.py:34-36 | `codes[:total]` is a prefix of `min(total, len)` codes, or of `len + total` codes for a negative bound |
| FinancialSync.VisitedCompanies | src/financial_sync.py:26-36 | the loop visits the first `min(len, max_companies)` codes when `max_companies` is positive, and all of them when it is `None` or 0 |
| FinancialSync.Attempt | src/financial_sync.py:46-66 | one attempt makes exactly one fetch, adds only events naming the company, counts a success exactly when it succeeds, and a success ends with that company's update |
| FinancialSync.AttemptBehaviour | src/financial_sync.py:46-66 | an attempt succeeds exactly when the fetch is truthy and the update returns True; it updates exactly when the fetch is truthy; its events are the fetch, the update when the fetch is truthy, and a backoff exactly when the fetch or the update raised on a non-final attempt; that backoff raises instead when `retry_delay` is negative |
| FinancialSync.TryOnce | src/financial_sync.py:46-66 | the body of the retry loop computes exactly the attempt's outcome |
| FinancialSync.RetryCompany | src/financial_sync.py:45-66 | the retry loop computes exactly the attempts specification, leaving by `break` on success |
| FinancialSync.ProcessAllCompanies | src/financial_sync.py:9-77 | the driver's events, `processed` count and escaping exception are exactly those of the run specification, including a handler that cannot be built |
| FinancialSync.FetchesBounded | src/financial_sync.py:45 | each company gets at most `max_retries` fetches, and at least one when `max_retries` is positive |
| FinancialSync.SingleAttempt | src/financial_sync.py:80-86 | with `max_retries=1`, as the entry point sets it, each company is fetched exactly once |
| FinancialSync.AttemptsCountSuccessOnce | src/financial_sync.py:51-54 | a company raises `processed` by at most one, and only when its last event is its update |
| FinancialSync.ProcessedBounded | src/financial_sync.py:33-54 | `processed` never exceeds the number of companies visited |
| FinancialSync.RunCloses | src/financial_sync.py:16-77 | a run ends with `close()` exactly when the handler is built; a handler that cannot be built raises with no fetch and no event; with no codes `close()` is all the run does; `processed` is at most the number visited |
| FinancialSync.AttemptsNameTheCompany | src/financial_sync.py:39-66 | a company's attempts only fetch `CSELK:` plus its symbol, update its symbol or back off: no other company and no pause |
| FinancialSync.RaisedAttempt | src/financial_sync.py:60-66 | an attempt whose fetch raises fails, makes one fetch, and backs off by `retry_delay * (attempt + 1)` unless it is the final one |
| FinancialSync.RaisingFetchesBackOff | src/financial_sync.py:60-66 | when every fetch raises and `retry_delay` is not negative, a company gets `max_retries` fetches, each but the last followed by a backoff of `retry_delay * (attempt + 1)` |
| FinancialSync.FalsyFetchesRetryWithoutSleep | src/financial_sync.py:50-58 | when every fetch returns `None` or `{}`, each attempt is one fetch with no sleep and no update |
| FinancialSync.RateLimitCountAppend | src/financial_sync.py:68-70 | the pauses of two event runs add up |
| FinancialSync.CompanyStepPauses | src/financial_sync.py:68-70 | one company adds exactly one pause, unless it equals the last code of the list or an exception escaped |
| FinancialSync.RateLimitsCounted | src/financial_sync.py:38-70 | in a run where no exception escapes, the pauses are exactly the visited companies that differ from the last code |
| FinancialSync.TruncatedRunPausesAfterEach | src/financial_sync.py:69 | when the visited slice excludes the last code and no sleep is negative, every visited company, the final one included, is followed by a pause |
| FinancialSync.BackoffsNeverRaise | src/financial_sync.py:60-66 | with a non-negative `retry_delay`, no exception escapes a company's retry loop |
| FinancialSync.SleepsNeverRaise | src/financial_sync.py:38-70 | with non-negative `rate_limit` and `retry_delay`, no exception escapes the company loop |
| FinancialSync.NegativeRateLimitStopsRun | src/financial_sync.py:68-77 | once the handler is built, a negative `rate_limit` raises at the first pause: the run is the first company's attempts, then `close()`, and the exception escapes |
| FinancialSync.NegativeRetryDelayStopsRun | src/financial_sync.py:60-77 | once the handler is built, a negative `retry_delay` raises at the first backoff: when the first fetch raises, the run is that fetch, then `close()`, and the exception escapes |
| FinancialSync.TimeoutFetchIsTruthy | src/financial_sync.py:50 | the timeout fetcher's result is always truthy, so the "no data received" branch is never taken with it |
| Symbols.TradingViewSymbol | src/financial_sync.py:40 | the TradingView symbol is `CSELK:` followed by the company symbol |
| Symbols.Split | tests/example_usage.py:11 | `split(":")` yields at least one piece, none containing `:` |
| Symbols.JoinSplit | tests/example_usage.py:11 | splitting loses nothing: joining the pieces with `:` restores the string |
| Symbols.SplitJoin | tests/example_usage.py:11 | joining pieces without `:` and splitting again gives the pieces back |
| Symbols.ExtractSymbolWithoutExchange | tests/example_usage.py:5-12 | the result never contains `:`, and a symbol without `:` comes back unchanged |
| Symbols.ExtractAfterColon | tests/example_usage.py:10-11 | with exactly one `:` the result is the text after it, whatever the exchange |
| Symbols.ExtractSecondField | tests/example_usage.py:10-11 | with more than one `:` the result is the second field only |
| Symbols.ExtractInvertsPrefix | tests/example_usage.py:5-12 | extraction inverts the driver's `CSELK:` prefixing for every symbol without `:` |
| Symbols.ExtractExample | tests/example_usage.py:8 | `CSELK:HAYL.N0000` gives `HAYL.N0000` |

## Left out

- The WebSocket transport is replaced by a parameter. This covers the connection thread, the sleep
  between requests and the timeout. `inbound` is the sequence of messages the socket delivers; for
  the timeout variant, that is the messages delivered before the timeout.
- Failures of the transport are not modelled: `on_error`, `on_close`, and a `ws.close()` that raises.
- `json.loads` is a parameter, `decode`, where `None` stands for a raise.
- `random.choices` is a parameter: the 12 drawn characters.
- Only integer JSON numbers are modelled; floating point is not.
- FinancialSync.Settings and FinancialSync.BackoffDelay: `rate_limit` and `retry_delay` are exact
  reals. The rounding of `retry_delay * (attempt + 1)` is not modelled. Neither are NaN, for which
  `time.sleep` raises `ValueError` although it is not negative, and infinity, for which it raises
  `OverflowError`; the model treats every non-negative duration as a pause.
- FrameCodec.ParseMessage: does not model the digit cap of Python 3.11 and later, where `int()`
  raises `ValueError` on a run of more than 4300 digits and the `except` ends the scan. The model
  reads any run of digits as its value; the two differ only on a length header longer than 4300
  digits whose value, with leading zeros, still fits the message.
- The regular expression `\d` is read as ASCII digits only. Python also accepts other Unicode decimal
  digits.
- pymongo is a reply oracle: `connect`, `close` and `update_one` are not modelled. Whether `connect`
  succeeds and what `update_one` answers are oracle values, and the handler's `client`, `db` and
  `collection` fields are not kept.
- The clock is a parameter: `datetime.utcnow()` is the oracle `now` reading.
- `time.sleep` is recorded as `Backoff` and `RateLimit` events instead of pausing. A negative length is
  modelled as the `ValueError` it raises.
- Output is not modelled: `print`, the `tqdm` progress bar and `print_financial_data`.
- `fetch_all_company_codes` (src/fetch_companies.py), `load_dotenv` and `os.getenv` are not part of
  this model. The company list and `MONGODB_URI` are parameters. An exception raised by
  `fetch_all_company_codes`, which would escape after `close()`, is not modelled.
- A company record without a `symbol` key would raise `KeyError` in the driver. Companies are
  modelled as records that always have an id, a name and a symbol; other keys of the record are not
  kept.
- FinancialSync.RaisingFetchesBackOff: requires a non-negative `retry_delay` and no escaped
  exception; `NegativeRetryDelayStopsRun` covers a negative delay.
- FinancialSync.FalsyFetchesRetryWithoutSleep: requires that no exception has escaped before the
  attempts start, since the loop does not run after one.
- FinancialSync.TruncatedRunPausesAfterEach: requires non-negative sleeps and no escaped exception;
  `NegativeRateLimitStopsRun` covers a negative `rate_limit`.
- The timeout fetcher's `timeout` parameter is not modelled, because `inbound` already says what
  arrived.
- The timeout variant has no `received_data` flag. The shared state still carries one, but that
  variant's result is only the dictionary.
- The `test_financial_data` helper and the remaining test scripts are not part of this model.
