# Rates demos: business days, rate history rows, server shell

A Dafny model of three small pieces of the `demos` package of the Advanced
Python Class repository:

- **Business days** (`demos/rates_api/business_days.py`): `business_days(start, end)`
  walks every calendar day from `start` to `end`, both included, and keeps the
  Monday-to-Friday days that are not holidays. A date is its day ordinal
  (`date.toordinal()`, where day 1 is a Monday), so the weekday is
  `(ordinal + 6) % 7`. The holiday calendar is a set of ordinals given by the
  caller. `ListBusinessDays` keeps the source's loop and is proved equal to the
  reference definition `BusinessDaysIn`. The lemmas cover soundness, completeness,
  strict ordering, the empty reversed range, the length bound and the module's
  own May 2024 example.
- **Rate history rows** (`demos/rates_api/rates_data.py`): `load_rates_from_history`
  turns each CSV row into a dictionary. The dictionary holds the row's `Date`,
  `EUR` set to 1.0 unless the row overrides it, and one value per other named
  column: NaN for `"N/A"`, otherwise `float()` of the cell. A row is a
  `csv.DictReader` dictionary, given as its column names in order plus a map
  from column to cell. `float()` is the caller's predicate `isFloat`, and the
  number it yields stays symbolic (`Parsed(text)`). The exceptions the source
  can raise are modelled as errors: `KeyError('Date')` for a row with no
  `Date` column, and `ValueError` for a cell that `float()` refuses. Either
  aborts the whole load.
- **Server shell and echo session** (`demos/rates_app/rates_server.py`): the
  `start`/`stop`/`status`/`exit` commands and the `main` loop form a state
  machine over the shell's process handle. The model records the liveness of
  every process the shell launched, so `is_alive()` is a lookup and a process
  that dies on its own is an input event. Termination is modelled as taking
  effect at once. Under that reading it proves that at most one launched
  server is ever alive, namely the held one, and that `exit` or Ctrl-C leaves
  none alive. `ClientConnectionThread.run` is a method that sends
  the greeting and then echoes each message up to the first empty read.

The server in the source only echoes. It has no `GET` command grammar, no rate
cache, no connection counter and no `count`/`clear` commands, so none of these
are modelled. Its shell answers an unknown command with silence, not with an
"Invalid Command" line.

## Model

| member | source | states |
|---|---|---|
| `BusinessDays.Weekday` | demos/rates_api/business_days.py:10 | `weekday()` of an ordinal is in 0..6 (Monday is 0) |
| `BusinessDays.ListBusinessDays` | demos/rates_api/business_days.py:4-12 | the loop over day offsets 0..(end-start) returns exactly the reference list of business days of [start, end] |
| `BusinessDays.MemberIff` | demos/rates_api/business_days.py:8-11 | a date is listed if and only if it lies in [start, end], is Monday to Friday and is not a holiday |
| `BusinessDays.Sound` | demos/rates_api/business_days.py:6-11 | every listed date is between start and end, has weekday < 5 and is not a holiday |
| `BusinessDays.Complete` | demos/rates_api/business_days.py:8-11 | every weekday of [start, end] that is not a holiday is listed |
| `BusinessDays.Increasing` | demos/rates_api/business_days.py:8-11 | the list is strictly increasing, so it has no duplicates |
| `BusinessDays.EmptyWhenReversed` | demos/rates_api/business_days.py:6-8 | when end precedes start the list is empty |
| `BusinessDays.LengthBound` | demos/rates_api/business_days.py:8-11 | the list has at most (end - start).days + 1 dates |
| `BusinessDays.MayFirstWeek` | demos/rates_api/business_days.py:15 | with no holidays, 2024-05-01..2024-05-06 gives May 1, 2, 3 and 6 |
| `RatesData.BuildRateEntry` | demos/rates_api/rates_data.py:17-24 | one row yields KeyError without a Date column, ValueError for the first unconvertible rate cell, else the row's entry |
| `RatesData.LoadRatesFromHistory` | demos/rates_api/rates_data.py:8-31 | succeeds exactly when every row does, then gives one entry per row in file order; otherwise fails with the error of the first failing row |
| `RatesData.AssignShape` | demos/rates_api/rates_data.py:19-24 | the column assignments add exactly the visited rate columns as keys, each holding its cell's value, and leave other keys alone |
| `RatesData.EntryKeys` | demos/rates_api/rates_data.py:17-24 | an entry's keys are exactly Date, EUR and the non-empty column names other than Date |
| `RatesData.EntryDate` | demos/rates_api/rates_data.py:17 | an entry's Date is the row's Date cell |
| `RatesData.EntryEur` | demos/rates_api/rates_data.py:17-24 | every entry has EUR: 1.0 unless the row has an EUR column, whose cell then decides it |
| `RatesData.EntryRate` | demos/rates_api/rates_data.py:21-24 | a rate column takes the "N/A" branch (`math.nan`) exactly when its cell is "N/A", and otherwise holds `float()` of its text |
| `RatesData.UnconvertibleIff` | demos/rates_api/rates_data.py:19-24 | the column scan finds an unconvertible cell exactly when some rate column's cell is neither "N/A" nor accepted by float(), and what it finds is such a cell |
| `RatesData.RowErrorIff` | demos/rates_api/rates_data.py:17-24 | a row raises KeyError exactly when it has no Date column; a row with a Date column raises ValueError exactly when some rate cell is neither "N/A" nor accepted by float(), and the error carries such a cell's text |
| `RatesServer.TerminateIfRunning` | demos/rates_app/rates_server.py:117-118 | terminates the held process only when it is alive and keeps every other process as it was; afterwards nothing held is running |
| `RatesServer.StartServer` | demos/rates_app/rates_server.py:51-65 | a live held process is kept and "server is already running" printed; otherwise one new live process is launched, held and "server started" printed |
| `RatesServer.StopServer` | demos/rates_app/rates_server.py:68-79 | always returns no handle; terminates only a live held process ("server stopped"), otherwise terminates nothing ("server is not running") |
| `RatesServer.ServerStatus` | demos/rates_app/rates_server.py:82-88 | prints "server is running" exactly when the held process is alive, else "server is not running" |
| `RatesServer.ProcessExits` | demos/rates_app/rates_server.py:56 | a server process ending on its own makes `is_alive()` false for it alone |
| `RatesServer.RunConsole` | demos/rates_app/rates_server.py:91-128 | the command loop follows the reference run, keeps at most one live server, and leaves none alive after exit or an interrupt |
| `RatesServer.StepsKeepSingleServer` | demos/rates_app/rates_server.py:51-79 | start, stop, terminate and a process death each keep "every live process is the held one" |
| `RatesServer.NoOrphanedServer` | demos/rates_app/rates_server.py:99-126 | over any input, the shell never has two live servers (termination taken as instant), and exit or an interrupt leaves none alive |
| `RatesServer.UnknownCommandIgnored` | demos/rates_app/rates_server.py:102-119 | a command other than start, stop, status and exit changes nothing and prints nothing |
| `RatesServer.ExitEndsShell` | demos/rates_app/rates_server.py:114-119 | exit terminates a live server, prints nothing and ends the loop, ignoring later input |
| `RatesServer.InterruptStopsServer` | demos/rates_app/rates_server.py:121-125 | an interrupt terminates a live server before the shell exits, leaving no server alive |
| `RatesServer.StartIsIdempotent` | demos/rates_app/rates_server.py:56-65 | a second start reports "server is already running" and changes nothing |
| `RatesServer.StopTwiceReportsNotRunning` | demos/rates_app/rates_server.py:73-79 | a second stop reports "server is not running" and changes nothing |
| `RatesServer.ClientSession` | demos/rates_app/rates_server.py:23-34 | sends the greeting and then each message unchanged, up to but excluding the first empty one, which closes the session; logs `recv: <message>` for each |

## Left out

- Calendar bounds: Python dates stop at year 9999 and `start + timedelta(day)` would raise OverflowError past it; ordinals here are unbounded integers.
- The `holidays` library is not part of this model: the US holiday calendar is a set of ordinals supplied by the caller.
- File opening, UTF-8 decoding and CSV splitting are not modelled; the loader receives the rows as dictionaries.
- Ragged CSV rows are not modelled. A row with more cells than the header puts the extra cells under the key `None`, which comes last. The source then raises TypeError at `len(None)`, unless it has already raised KeyError for a missing Date column or ValueError for an earlier unconvertible rate cell. A row with fewer cells gets `None` for each missing cell. The source raises TypeError only when such a cell falls under a rate column. A missing cell under "Date" is stored as `Date: None`, and one under the unnamed column is skipped.
- `float()` parsing and `math.nan` are symbolic (`isFloat`, `Parsed`, `NaN`); no floating-point value is computed. `NaN` stands only for the "N/A" branch. `Parsed(s)` may itself be a NaN, since `float()` accepts texts such as "nan".
- Key order inside an entry (Python dictionary insertion order) is not modelled; an entry is a map.
- Sockets (`bind`, `listen`, `accept`), `recv(2048)` chunking and UTF-8 encoding in the server are network I/O and are not modelled. Each read is one whole message. The acceptor loop `rate_server` is left out for the same reason.
- `RatesServer.StopServer`, `RatesServer.TerminateIfRunning`: termination is modelled as instant, so the process's liveness flag clears at once. In the source, `Process.terminate()` only sends SIGTERM, and `is_alive()` stays true until the child has exited. So after a quick `start`, `stop`, `start`, the old server may still be exiting when the new one starts. `SingleServer` and `RatesServer.NoOrphanedServer` are proved under the instant reading only. That `exit` or an interrupt leaves no server alive also holds in the source, because the interpreter joins the terminated child at exit.
- Threads and `multiprocessing.Process` mechanics are reduced to a liveness flag per launched process; host and port are not modelled.
- A Ctrl-C that arrives in the middle of a command is not modelled; interrupts arrive at the prompt. One arriving inside `command_start_server` after the launch but before the handle is returned would leave that process unterminated.
- `RatesServer.RunConsole`: when input runs out, `input()` raises EOFError, which the shell does not catch. The model ends with `EndOfInput` and leaves the server as it was. It does not model what follows. After the traceback, the interpreter's exit handler waits for a still-running server process, because that process is not a daemon, so the shell then hangs until the server ends.
- `sys.exit(0)` and the `> ` prompt are not modelled.
