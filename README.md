# Hana 1Q session adapter — a Dafny model

This project models the core of a small trading-data client. The client drives a
vendor's ActiveX terminal control ("Hana 1Q") and normalises the tick payloads the
terminal pushes. It models four parts of the repository:

- **`TransactionProcessor`** (`transaction_processor.dfy`). A raw tick string is split
  on whitespace. Token 2 is the date-time sequence and token 4 is the price. Each
  record that parses is stamped with the next value of a counter that starts at 0.
  Python's `str.split()`, `' '.join` and `str.split(' ')` are modelled in `pystr.dfy`.
  `Split` is characterised independently of its definition, as the unique layout of
  words and whitespace gaps.
- **Date-time sequences** (`datetime_util.dfy`). A `YYYYMMDDHHMMSS` string is read
  into a date-time. A date-time is formatted back at the unit `date`, `hour`,
  `minute` or `second`.
- **The terminal adapter `HanaAPI`** (`hana_api.dfy`). Every vendor function is
  reached through `dynamicCall`. Here that transport is an oracle: it answers a call
  given every call issued before it, and it may raise. The class `HanaApi` records
  the issued calls in `trace`. It also holds:
  - the event-loop state (`loopRunning`);
  - the single real-time handler;
  - the blocks handed to that handler (`delivered`).

  Each adapter operation has a pure step function. It gives the calls the operation
  issues and its result, stated against the raw replies: the `== 0`, `== 1` and
  truthiness conventions, the `finally` of `login`, and the rows `fid_data_handler`
  assembles. Each method is proved to follow its step function.
- **`Application`** (`application.dfy`). It orchestrates the adapter: the health
  check, connect, disconnect, real-time subscription and FID query set-up. Each
  operation is a pure function from the oracle and the trace before it to the trace
  after it and its result. The methods of `Application` are proved to follow those
  functions. Lemmas state the call orders and conditions as facts about the trace.

A Python exception is a `Result` error (`common.dfy`):
- `IndexError` and `ValueError` are the exceptions of those names.
- `TypeError` covers calling an unset handler, and `range` over a count that is not
  an integer.
- `TransportFault` is any exception a vendor call raises.
- `CommInitFailed` and `LoginFailed` are the two `Exception`s that `connect` raises.

Behaviour of the code that the model keeps as written:
- `parse` reads token 4 of `s.split()`, so a payload with only four tokens, such as
  `"  A  20200302093015  X  1234.50  "`, raises `IndexError` (`ParseFourTokensRaises`).
- `process` calls `parse` before `next(counter)`, so the counter advances only when
  the payload parses; a payload that fails takes no number (`ProcessStep`,
  `RunNumbering`).
- `connect` first sets login mode `(0, 1)` and logs in to probe, then sets login mode
  `(0, 0)` and logs in for real (`ConnectCalls`).
- There are no timeouts, no request-id pool and no per-request completion waits.
- `%Y` is written with four digits, zero-padded, as the Windows C runtime does; the
  terminal control is an ActiveX control, so the program runs on Windows
  (`LeadingZeroYear`).

## Model

| member | source | states |
|---|---|---|
| TransactionProcessing.Parse | lib/transaction_processor.py:16-26 | succeeds exactly when `s.split()` has at least five words, and otherwise fails with `IndexError`; the record has exactly the keys `date_time_seq` and `price`, holding words 2 and 4 unchanged (non-empty, whitespace-free) |
| TransactionProcessing.Send | lib/transaction_processor.py:28-36 | forwarding always reports success |
| TransactionProcessing.ProcessStep | lib/transaction_processor.py:38-47 | succeeds iff the payload parses; on failure, the result is parse's error and the counter is unchanged; on success, the record is parse's record plus `seq` = the counter, with no other key added or changed, and the counter advances by one |
| TransactionProcessing.Run | lib/transaction_processor.py:38-47 | a run of `process` calls gives one result per payload, and the counter advances by at most one per call; which results succeed and the numbers they carry are stated by `RunParses` and `RunNumbering` |
| TransactionProcessing.Numbers | lib/transaction_processor.py:44 | collects the `seq` of each successful record in call order, at most one per call; `RunNumbering` states that these are consecutive from the starting counter |
| TransactionProcessing.RunNumbering | lib/transaction_processor.py:13-44 | over any run of `process` calls from counter `n`, the `seq` values of the successful records are `n, n+1, …` in call order, with no gap, and end where the counter ends |
| TransactionProcessing.RunParses | lib/transaction_processor.py:43-47 | the i-th call of a run succeeds iff the i-th payload parses; its keys are the parsed keys plus `seq`, and the parsed fields are carried over unchanged |
| TransactionProcessing.ParseFiveTokens | lib/transaction_processor.py:22-26 | runs of mixed whitespace (tab, newline, several spaces, leading and trailing) separate tokens: a five-token payload yields its third and fifth tokens |
| TransactionProcessing.SplitFiveTokens | lib/transaction_processor.py:22 | the whitespace split of that payload is its five tokens |
| TransactionProcessing.ParseFourTokensRaises | lib/transaction_processor.py:22-26 | a four-token payload raises `IndexError` |
| TransactionProcessing.TransactionProcessor.constructor | lib/transaction_processor.py:13-14 | the counter starts at 0 |
| TransactionProcessing.TransactionProcessor.Process | lib/transaction_processor.py:38-47 | the returned record and the new counter are `ProcessStep` of the old counter |
| PyStr.Split | lib/transaction_processor.py:22 | every word of `str.split()` is non-empty and free of whitespace |
| PyStr.SplitLayout | lib/transaction_processor.py:22 | every string is its whitespace gaps and its split words interleaved, with inner gaps non-empty |
| PyStr.SplitUnique | lib/transaction_processor.py:22 | any decomposition of a string into whitespace gaps (inner ones non-empty) and whitespace-free words has exactly the words of `str.split()` |
| PyStr.SplitOnSpaceJoin | lib/transaction_processor.py:22 | `split(' ')` undoes `' '.join` for words without spaces; joining no words gives `""`, which splits to `[""]` |
| PyStr.TokensOfSplit | lib/transaction_processor.py:22 | the tokens of `' '.join(s.split()).split(' ')` are `s.split()`, or the single token `""` when `s` has no words; the tokens are all non-empty words iff `s` has a word |
| PyStr.JoinSpace | lib/transaction_processor.py:22 | `' '.join` starts with the first word, and with two or more words a space follows it |
| PyStr.SplitOnSpace | lib/transaction_processor.py:22 | `split(' ')` gives at least one field, and no field contains a space |
| PyStr.Tokens | lib/transaction_processor.py:22 | the tokens of a payload are at least one, none containing a space |
| PyStr.Lower | util/datetime_util.py:27 | `str.lower()` keeps the length and lowers each ASCII capital letter in place, leaving every other character unchanged |
| DateTimeUtil.SequenceToDateTime | util/datetime_util.py:10-17 | `None` iff the length is not 14; otherwise the six fields are read by position and the result is a valid date-time or `ValueError` |
| DateTimeUtil.FieldCount | util/datetime_util.py:26-34 | a format is chosen iff a unit is given whose lower-case form is `date`, `hour`, `minute` or `second` (`None` is `"None"`, which matches none); `date` selects three fields and `second` six, and every choice selects 3 to 6 |
| DateTimeUtil.Strftime | util/datetime_util.py:36 | the formatted string is all digits |
| DateTimeUtil.DateTimeToSequence | util/datetime_util.py:20-37 | a string is returned iff a unit is given whose lower-case form is `date`, `hour`, `minute` or `second` (so `None` and any other unit give `None`); the string is all digits |
| DateTimeUtil.SequenceLength | util/datetime_util.py:27-34 | the units `date`, `hour`, `minute`, `second` give 8, 10, 12, 14 characters |
| DateTimeUtil.UnitCaseInsensitive | util/datetime_util.py:27-34 | a unit and its lower-case form give the same result |
| DateTimeUtil.UnitPrefixes | util/datetime_util.py:28-34 | the `date` output is a prefix of `hour`, which is a prefix of `minute`, which is a prefix of `second` |
| DateTimeUtil.SequenceRoundTrip | util/datetime_util.py:10-37 | a 14-digit sequence that parses formats back at `second` to itself, a year with leading zeros included |
| DateTimeUtil.DateTimeRoundTrip | util/datetime_util.py:10-37 | any valid date-time formats at `second` to 14 digits that parse back to it |
| DateTimeUtil.LeadingZeroYear | util/datetime_util.py:33-36 | the year 999 is written `0999`, so 999-01-01 00:00:00 at `second` gives the 14 characters `09990101000000` |
| DateTimeUtil.NumPad4 | util/datetime_util.py:17 | reading the four-digit form of a year below 10000 gives the year |
| DateTimeUtil.Pad4Num | util/datetime_util.py:17 | a four-digit field denotes a number below 10000 whose four-digit form is the field |
| DateTimeUtil.Pad2Num | util/datetime_util.py:17 | a two-digit field denotes a number below 100 whose two-digit form is the field |
| Hana.CommInitStep | lib/hana_api.py:39-45 | issues `CommInit()`; true iff it returns 0; an exception propagates |
| Hana.GetCommStateStep | lib/hana_api.py:47-53 | issues `CommGetConnectState()`; true iff it returns 1 |
| Hana.TerminateStep | lib/hana_api.py:55-60 | issues `CommTerminate(1)`; succeeds iff that call returns |
| Hana.SetLoginModeStep | lib/hana_api.py:82-94 | issues `SetLoginMode(option, mode)`; true iff the result is truthy |
| Hana.LoginStep | lib/hana_api.py:104-117 | the first call is `SetOffAgentMessageBox(1)` and the last is always `SetOffAgentMessageBox(0)`, even when `CommLogin` raises or the first call raises (then `CommLogin` is skipped); succeeds iff all three calls return; true iff `CommLogin` returned a truthy value |
| Hana.LogoutStep | lib/hana_api.py:119-125 | issues `CommLogout(id)`; true iff it returns 0 |
| Hana.GetLoginStateStep | lib/hana_api.py:127-133 | issues `GetLoginState()`; true iff the result is truthy |
| Hana.RegisterRealStep | lib/hana_api.py:139-145 | issues `RegisterReal(name, symbol)`; true iff it returns 0 |
| Hana.UnregisterRealStep | lib/hana_api.py:147-157 | issues `UnRegisterReal(name, symbol)`; true iff it returns 1 |
| Hana.UnregisterRealAllStep | lib/hana_api.py:159-169 | issues `AllUnRegisterReal()`; true iff it returns 1 |
| Hana.GetRealOutputDataStep | lib/hana_api.py:171-178 | issues `GetRealOutputData(name, symbol)` and returns its raw reply |
| Hana.CreateRequestIdStep | lib/hana_api.py:218-223 | issues `CreateRequestID()` and returns its raw reply |
| Hana.ReleaseRequestIdStep | lib/hana_api.py:225-231 | issues `ReleaseRqId(rid)`; succeeds iff it returns |
| Hana.SetFidInputStep | lib/hana_api.py:233-242 | issues `SetFidInputData(rid, fid, value)`; true iff it returns 1 |
| Hana.RequestFidStep | lib/hana_api.py:244-252 | issues `RequestFid(rid, fields, screen)` and returns its raw reply |
| Hana.RequestFidDataListStep | lib/hana_api.py:254-269 | issues `RequestFidArray(...)` with the arguments unchanged and returns its raw reply |
| Hana.GetFidOutputCountStep | lib/hana_api.py:271-277 | issues `GetFidOutputRowCnt(rid)` and returns its raw reply |
| Hana.GetFidOutputDataStep | lib/hana_api.py:279-287 | issues `GetFidOutputData(rid, fid, row)` and returns its raw reply |
| Hana.RowStepShape | lib/hana_api.py:214 | a row succeeds iff neither read raises; it then reads field `8` and then field `9` of that row, and holds their replies as TIME and DATE |
| Hana.RowStep | lib/hana_api.py:214 | a row fails only when one of its reads raises |
| Hana.RowsFromShape | lib/hana_api.py:213-215 | the loop from row `i` to `n` ends normally iff no read raises; it then has `n - i` rows (none when `n <= i`), two reads per row, and row `k` holds the replies to field `8` and field `9` at index `i + k` |
| Hana.RowsFrom | lib/hana_api.py:213-215 | the loop fails only when a read raises |
| Hana.RowsFromFailureIssuesCalls | lib/hana_api.py:213-215 | a loop that fails has issued at least one call, the read that raised |
| Hana.FidRows | lib/hana_api.py:202-216 | the handler first queries the row count; it succeeds iff no call raises and the count is an integer (a non-integer is `TypeError`); it then builds exactly `max(count, 0)` rows in order, row `k` being the replies to field `8` and then field `9` at index `k` |
| Hana.FidRowsStep | lib/hana_api.py:210-215 | the handler first queries the row count; it fails only when a call raises or with `TypeError`, and `TypeError` exactly when the count returned is not an integer |
| Hana.HanaApi.constructor | lib/hana_api.py:17-33 | no call issued, the loop not running, no handler set; what a handler does with a block is given as `handlerOutcome` |
| Hana.HanaApi.Dynamic | lib/hana_api.py:44 | `dynamicCall` appends the call to the trace; it returns the oracle's reply to it, given the calls before, and a raise is `TransportFault` |
| Hana.HanaApi.CommInit | lib/hana_api.py:39-45 | follows `CommInitStep` |
| Hana.HanaApi.GetCommState | lib/hana_api.py:47-53 | follows `GetCommStateStep` |
| Hana.HanaApi.Terminate | lib/hana_api.py:55-60 | follows `TerminateStep` |
| Hana.HanaApi.SetLoginMode | lib/hana_api.py:82-94 | follows `SetLoginModeStep` |
| Hana.HanaApi.Login | lib/hana_api.py:104-117 | follows `LoginStep`, including its `finally` |
| Hana.HanaApi.Logout | lib/hana_api.py:119-125 | follows `LogoutStep` |
| Hana.HanaApi.GetLoginState | lib/hana_api.py:127-133 | follows `GetLoginStateStep` |
| Hana.HanaApi.RegisterReal | lib/hana_api.py:139-145 | follows `RegisterRealStep` |
| Hana.HanaApi.UnregisterReal | lib/hana_api.py:147-157 | follows `UnregisterRealStep`; afterwards the event loop is not running, whether the call succeeded, failed or raised |
| Hana.HanaApi.UnregisterRealAll | lib/hana_api.py:159-169 | follows `UnregisterRealAllStep`; afterwards the event loop is not running, whatever the call did |
| Hana.HanaApi.GetRealOutputData | lib/hana_api.py:171-178 | follows `GetRealOutputDataStep`; the event loop runs once the call has returned |
| Hana.HanaApi.RealDataHandler | lib/hana_api.py:180-189 | passes `block` unchanged to the current handler and returns what the handler does, so an exception the handler raises comes back out; with no handler set it is a `TypeError` and nothing is delivered |
| Hana.HanaApi.SetRealEventHandler | lib/hana_api.py:191-196 | the given handler replaces the previous one |
| Hana.HanaApi.FidDataHandler | lib/hana_api.py:202-216 | follows `FidRowsStep` (see `FidRows`) |
| Hana.HanaApi.ReadRows | lib/hana_api.py:212-215 | the `for` loop follows `RowsFrom` from row 0 |
| Hana.HanaApi.ReadRow | lib/hana_api.py:214 | one iteration follows `RowStep` |
| Hana.HanaApi.CreateRequestId | lib/hana_api.py:218-223 | follows `CreateRequestIdStep` |
| Hana.HanaApi.ReleaseRequestId | lib/hana_api.py:225-231 | follows `ReleaseRequestIdStep` |
| Hana.HanaApi.SetFidInput | lib/hana_api.py:233-242 | follows `SetFidInputStep` |
| Hana.HanaApi.RequestFid | lib/hana_api.py:244-252 | follows `RequestFidStep` |
| Hana.HanaApi.RequestFidDataList | lib/hana_api.py:254-269 | follows `RequestFidDataListStep`; the event loop runs once the call has returned |
| Hana.HanaApi.GetFidOutputCount | lib/hana_api.py:271-277 | follows `GetFidOutputCountStep` |
| Hana.HanaApi.GetFidOutputData | lib/hana_api.py:279-287 | follows `GetFidOutputDataStep` |
| App.ConnectionStateRun | application.py:38-51 | true iff the comm state is 1 and the login state is truthy; the login state is queried only when the comm state is 1; fails only when one of these calls raises |
| App.DisconnectRun | application.py:53-64 | once the health check and the optional logout have not raised, `AllUnRegisterReal` is issued and then `CommTerminate(1)` unless the unregister raised, whatever the check, the logout or the unregister returned; it succeeds iff none of its calls raised |
| App.DisconnectLogsOutOnlyWhenConnected | application.py:53-64 | among the calls `disconnect` issues, `CommLogout` appears exactly when the health check returned true |
| App.ConnectInitFailure | application.py:70-73 | when `CommInit` returns non-zero, `connect` fails with `CommInitFailed` after that one call: no login mode is set and no login is tried |
| App.ConnectRun | application.py:66-89 | `connect` fails only when a call raises or with `CommInitFailed` or `LoginFailed`, and with `CommInitFailed` exactly when `CommInit` returned a value other than 0 |
| App.ConnectRunSteps | application.py:66-89 | `connect` succeeds iff initialisation returns 0, neither login-mode call raises, both logins complete, the second login is accepted and the login-state query returns |
| App.ConnectSuccess | application.py:66-89 | `connect` succeeds exactly when none of its ten calls raises, initialisation returns 0 and the second `CommLogin` is truthy (the mode results and the probing login do not matter); it then issued exactly: init, mode (0, 1), login, mode (0, 0), login, login-state query |
| App.ConnectLoginFailure | application.py:81-85 | with the earlier calls returning and initialisation returning 0, a falsy second `CommLogin` fails with `LoginFailed` right after that login, before the login state is queried |
| App.WriteAllOutcome | application.py:138-158 | when no write raises, every input is written in order (later writes are not skipped after a false one), and the result is true iff every write returned 1; a raise is the only way to fail |
| App.WriteAll | application.py:138-158 | the writes of `init_fid` and `set_fid_date_range` fail only when a write raises; when none does, one call per input was issued |
| App.ListenRealRun | application.py:110-117 | `RegisterReal` is issued and then `GetRealOutputData`, whatever the registration returned, unless it raised; succeeds iff neither raised |
| App.Application.constructor | application.py:17-24 | a fresh adapter with the given settings and handler outcomes, and a fresh processor whose counter is 0 |
| App.Application.GetConnectionState | application.py:38-51 | follows `ConnectionStateRun` |
| App.Application.Disconnect | application.py:53-64 | follows `DisconnectRun`; the event loop is stopped whenever `unregister_real_all` was reached |
| App.Application.Connect | application.py:66-89 | follows `ConnectRun` (see `ConnectSuccess`, `ConnectInitFailure`, `ConnectLoginFailure`) |
| App.Application.ListenReal | application.py:110-117 | the handler is installed whatever happens afterwards; then follows `ListenRealRun`; the loop runs iff it ran before or the output call returned |
| App.Application.CreateRequestId | application.py:123-129 | delegates to `create_request_id` |
| App.Application.ReleaseRequestId | application.py:131-136 | delegates to `release_request_id` |
| App.Application.InitFid | application.py:138-147 | writes 9001=FX, 9002=D05GBP/AUD, GID=1003, 9119=1 as `WriteAll` does (see `WriteAllOutcome`) |
| App.Application.SetFidDateRange | application.py:149-158 | writes 9034=start and then 9035=end as `WriteAll` does |
| App.Application.RequestFid | application.py:160-180 | requests the 13 output fields `8,9,30,31,32,33,6,40,41,42,43,1098,666` with paging `1`, an empty cursor, screen 9999 and count 9999; the loop then runs |
| App.Application.GetFidOutputData | application.py:182-189 | delegates to `get_fid_output_data` |
| App.Application.GetFidResponseCount | application.py:191-196 | delegates to `get_fid_output_count` |

## Left out

- `lib/window.py`, `main.py`, `common/config.py` and `common/logger.py`: UI, process plumbing, configuration loading and logging. The adapter's settings are a constructor parameter (`Config`).
- `Application._log` and every log call: logging only.
- `HanaAPI.get_last_api_error`, `get_login_mode` and `on_agent_event_handler`: pass-through or logging only.
- `Application.on_receive_real_event` is not modelled. It reads `self._meta`, which is never set, and dereferences `self._window` before checking it for `None`, so it cannot complete as written.
- `dynamicCall`, the COM transport: modelled as an oracle over the trace of earlier calls. Any exception it raises is the single fault `TransportFault`. Raw values are integers or strings only.
- Qt's `QEventLoop.exec_()`: modelled only as the flag `loopRunning`, with no blocking, waiting or asynchronous delivery. The push handler is known by name. Whether it returns or raises on a block is a parameter (`handlerOutcome`), so the exceptions `on_receive_real_event` raises as written are that parameter's values rather than derived from its code; `delivered` records what each handler was given.
- Hana.HanaApi.FidDataHandler: returns the rows it builds so that its contract can state them; the source only logs them and returns `None`.
- Hana.HanaApi.ReadRows: the `for` loop of `fid_data_handler` is a method of its own, with one row per `ReadRow` call.
- App.Application.ListenReal: that the handler is installed before `RegisterReal` is issued is not visible in the trace, which records vendor calls only. The contract states that the handler is installed on every path, including when registration raises.
- The `is True` / `is False` tests of `Application` are boolean tests. The adapter wrappers they test always return booleans.
- TransactionProcessing.Parse: the payload is a string; the `str(transaction)` conversion of other types is not modelled.
- DateTimeUtil.SequenceToDateTime: a 14-character input must be ASCII digits. `strptime`'s lenient handling of other 14-character inputs (unpadded fields, spaces, signs) is not modelled.
- PyStr.Lower: lowers ASCII letters only. This is exact for comparing with the unit names `date`, `hour`, `minute` and `second`. No other character lower-cases to a single ASCII letter of those words.
