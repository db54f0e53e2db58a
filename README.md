# gpu-monitor, modelled in Dafny

`gpu-monitor.py` samples four metrics of every GPU on a host: utilization,
temperature, fan speed and power draw. It asks `nvidia-smi` once per metric,
reads one value per device from each answer, and zips the four lists into
one (utilization, temperature, fan, power) tuple per device. It then adds a
CSV row to a log: the elapsed time in minutes, followed by a block of five
fields per device (the device index and its four values). The header row is
`TIME` followed by `GPU_ID, UTIL, TEMP, FAN, PWR` once per device. The script
takes one sample at time 0.0. It then takes one more sample every `--time`
minutes, once for each whole interval that fits in `--maxtime`.

The model has four modules:

- `PyBuiltins` (`py_builtins.dfy`): the Python behaviour the script depends
  on. Exceptions are values (`IndexError`, `ValueError`,
  `ZeroDivisionError`, and `SleepLengthError` for the `ValueError` that
  `time.sleep` raises on a negative length). `Range` is `range(n)` and
  `LenRange` its length. `RStrip` is
  `str.rstrip()` with the exact whitespace set of `str.isspace()`.
  `Decimal` is `str()` of a non-negative integer.
- `Snapshot` (`snapshot.dfy`): `parse_stdout` as a loop method
  (`ParseStdout`), proved equal to the function `ParseValues`. Also
  `get_gpu_property`, `zip` of four lists, and `get_states`.
- `CsvRows` (`csv_rows.dfy`): `write_header` and `write_state` as loop
  methods. Each is proved equal to a specification function (`Header`,
  `Row`), and lemmas prove the layout of that function.
- `Scheduler` (`scheduler.dfy`): the main block. It covers the iteration
  count, the sample times, `run_gpu_states`, the sampling loop
  (`RunSamples`) and the whole run (`Monitor`). The output of a run is the
  list of `writerow` calls in order, each with the file it targets.

`nvidia-smi` is a parameter `smi` that maps a `--query-gpu=` field to the
lines it prints. In a run, `rounds(j)` is that mapping for sample j.
Python's `float()` is a parameter `float: string -> Option<V>`, where
`None` means the text does not parse. Parse results have an abstract type
`V`. Python's `str()` of a float is a parameter: `str` for metric values,
`strTime` for the time. Times are exact `real`s.

Where the code and a plain reading of its design differ, the model follows
the code:

- The iteration count is computed at line 100, before the time-zero sample
  at line 103. So with `--time 0` the script raises `ZeroDivisionError`
  after the header is written and before any sample is taken (`Monitor`,
  `Iterations`).
- A window shorter than the interval gives one sample when the interval is
  positive. The count is `0` when the window is not negative. A negative
  window gives a negative count, which `range` treats as zero passes
  (`ShortWindowSingleSample`).
- A negative interval is not rejected when the count is computed. A window
  at or below it gives at least one loop pass. But `time.sleep(wait_time)`
  at line 108 raises on the negative length before that pass writes a row.
  So the run writes at most the time-zero row and then fails
  (`NegativeIntervalSchedule`, `NegativeIntervalStopsAtSleep`). Whatever the
  interval, the rows of a run are written at non-decreasing times
  (`WrittenTimesNonDecreasing`). The model follows Python 3, where this is a
  `ValueError`.
- A non-positive device count gives an empty `range`, and so an empty
  header block and an empty snapshot (`LenRange`).
- The header is written by `write_header(num_gpu)` with its default file
  name `gpu-state.csv`, not with `--csvfile`. The data rows go to
  `--csvfile`. The model keeps this as written: `HeaderWrites` targets
  `DefaultCsvFile`.

## Model

| member | source | states |
|---|---|---|
| `PyBuiltins.Range` | gpu-monitor.py:26 | `range(n)` lists 0, 1, …, n-1 in order: it has `LenRange(n)` entries, entry k is k, and an integer is in it iff `0 <= i < n`, so it is empty when n is not positive |
| `PyBuiltins.RStrip` | gpu-monitor.py:27 | the result is a prefix of the line that does not end in whitespace, and everything it drops is whitespace as `str.isspace()` defines it |
| `PyBuiltins.Decimal` | gpu-monitor.py:62 | `str(gpu_id)` is a non-empty string of decimal digits that starts with `0` only for the number 0 (no leading zeros) |
| `PyBuiltins.DecimalRoundTrip` | gpu-monitor.py:61-62 | reading back the numeral of `n` gives `n` |
| `PyBuiltins.DecimalInjective` | gpu-monitor.py:61-62 | two different device indices never get the same numeral |
| `Snapshot.ParseStdout` | gpu-monitor.py:24-29 | the loop returns or raises exactly what `ParseValues` specifies |
| `Snapshot.ParseValuesErrStays` | gpu-monitor.py:26-28 | once a pass raises, no later pass changes the outcome |
| `Snapshot.ParseValuesOk` | gpu-monitor.py:24-29 | parsing succeeds iff there are at least `num_gpu` lines and each of the first `num_gpu` lines parses after `rstrip`; it then returns exactly `num_gpu` values, value i taken from line i |
| `Snapshot.ParseValuesFewerLines` | gpu-monitor.py:26-27 | with fewer lines than devices, all of which parse, it raises `IndexError` at the first missing index |
| `Snapshot.ParseValuesIgnoresExtraLines` | gpu-monitor.py:24-29 | lines after the first `num_gpu` do not affect the result |
| `Snapshot.GetGpuPropertyReading` | gpu-monitor.py:32-36 | a parsed query has one value per device, value k being what line k of the tool's output parses to |
| `Snapshot.Zip4` | gpu-monitor.py:44 | `zip` of four lists is as long as the shortest, and entry k is the k-th element of each list in argument order |
| `Snapshot.GetStatesOk` | gpu-monitor.py:39-44 | a snapshot is taken iff all four queries parse |
| `Snapshot.GetStatesShape` | gpu-monitor.py:39-44 | a snapshot has exactly `num_gpu` entries in device order; entry k holds device k's utilization, temperature, fan and power readings, in that order |
| `Snapshot.ShortQueryFails` | gpu-monitor.py:39-44 | if any query prints fewer lines than there are devices, no snapshot is taken |
| `CsvRows.HeaderLayout` | gpu-monitor.py:47-51 | the header has `1 + 5·num_gpu` fields: `TIME`, then each device block is `GPU_ID, UTIL, TEMP, FAN, PWR` |
| `CsvRows.WriteHeader` | gpu-monitor.py:47-51 | the `extend` loop builds `Header(num_gpu)`, with the field count, leading `TIME` and five labels per block |
| `CsvRows.RowLayout` | gpu-monitor.py:60-64 | with four values per entry, the row has `1 + 5·len(state)` fields: field 0 is `str(time)`, and block k is `str(k)` followed by `str` of entry k's values in tuple order |
| `CsvRows.RowIdsInOrder` | gpu-monitor.py:61-62 | field `1+5k` of a row is a numeral that reads back as k, so device ids are 0, 1, …, n-1 in snapshot order |
| `CsvRows.WriteState` | gpu-monitor.py:57-65 | the `enumerate` loop builds `Row(time, state)`: it starts with `str(time)`, and with 4-tuple entries it has `1 + 5·len(state)` fields |
| `Scheduler.Iterations` | gpu-monitor.py:96-100 | the count is the floor of the window over the interval (`n ≤ maxtime/time < n + 1`); it is `ZeroDivisionError` exactly when the interval is zero |
| `Scheduler.SampleTimesExact` | gpu-monitor.py:103-107 | there are `iterations + 1` sample times (loop passes counted by `range`), and sample j is at `j·interval` minutes, 0.0 first |
| `Scheduler.SampleTimesIncreasing` | gpu-monitor.py:106-107 | with a positive interval the sample times strictly increase |
| `Scheduler.ShortWindowSingleSample` | gpu-monitor.py:96-106 | with a positive interval longer than the window, only the time-zero sample is taken, and the count is 0 when the window is not negative |
| `Scheduler.ReachableTimesNonDecreasing` | gpu-monitor.py:103-109 | the samples a run can reach are among the planned ones, and their times never decrease, whatever the interval |
| `Scheduler.NegativeIntervalSchedule` | gpu-monitor.py:96-108 | a negative interval with a window at or below it plans at least one loop pass, but only the time-zero sample is reachable, because the first sleep raises |
| `Scheduler.DefaultSchedule` | gpu-monitor.py:96-107 | the defaults (10 and 600 minutes) give 60 loop passes and 61 samples, the last at 600 minutes |
| `Scheduler.TwoGpuSchedule` | gpu-monitor.py:96-107 | 10-minute samples over 25 minutes give two passes, samples at 0, 10 and 20 minutes, and an 11-field header for two devices |
| `Scheduler.SampleRowWidth` | gpu-monitor.py:78-80 | every row `run_gpu_states` writes has as many fields as the header for the same device count, and starts with `str(time)` |
| `Scheduler.SampleRowBlocks` | gpu-monitor.py:78-80 | block k of a written row is `str(k)`, then `str` of device k's four readings, in query order |
| `Scheduler.RowShowsReadings` | gpu-monitor.py:60-64 | the row of a snapshot whose entries are the tool's readings shows, in block k, `str(k)` and `str` of device k's four readings |
| `Scheduler.RunGpuStates` | gpu-monitor.py:78-80 | takes the snapshot and builds its row; a failed snapshot returns the exception instead of a row, and a row matches the header's width |
| `Scheduler.SamplesWrittenExtend` | gpu-monitor.py:106-109 | writing the next sample's row keeps the rows written so far in step with the sample times |
| `Scheduler.SamplesWrittenWidth` | gpu-monitor.py:103-109 | every data row written in a run has the header's column count |
| `Scheduler.NegativeIntervalStopsAtSleep` | gpu-monitor.py:103-108 | a run with a negative interval and a window at or below it writes at most the time-zero row and always fails: with the sleep's `ValueError` once that row was written, otherwise with the time-zero sample's exception |
| `Scheduler.WrittenTimesNonDecreasing` | gpu-monitor.py:103-109 | every run, whatever its interval, writes its rows at non-decreasing sample times |
| `Scheduler.SampleFailsOutcome` | gpu-monitor.py:103-109 | a sample that raises before the last reachable one ends the run with that exception and no further rows |
| `Scheduler.SleepFailsOutcome` | gpu-monitor.py:106-108 | with a negative interval, the first loop pass ends the run with the sleep's `ValueError` after the time-zero row |
| `Scheduler.AllSamplesOutcome` | gpu-monitor.py:103-109 | a run that writes every planned sample ends with no exception |
| `Scheduler.SamplePass` | gpu-monitor.py:106-109 | one loop pass: with a negative interval the sleep raises and nothing is written; otherwise the pass's sample is written, or its exception ends the run |
| `Scheduler.RunSamples` | gpu-monitor.py:103-109 | sample j's row goes to `--csvfile` and is the row of the snapshot taken from `rounds(j)` at sample time j; no more rows than the run can reach are written; all samples are written iff nothing raises; a failure before the last reachable sample is that sample's exception, and a failure after it is the sleep's `ValueError` for a negative interval |
| `Scheduler.Monitor` | gpu-monitor.py:83-109 | the log starts with the header (to `gpu-state.csv`) iff `--overwrite` is `"True"`; a zero interval stops the run right after the header with `ZeroDivisionError`; otherwise the log ends with the sample rows and the failure as in `RunSamples`; every data row goes to `--csvfile` with the header's column count |

## Left out

- `get_process_stdout`, `get_num_gpu` and the `nvidia-smi` calls (lines 11-21, 32-34) are subprocess I/O. The device count is a parameter, and the tool is a function from a query field to lines.
- Decoding the tool's bytes as UTF-8 (line 27, line 20) is left out. Lines are already text, so a `UnicodeDecodeError` is not modelled.
- `float()` parsing and `str()` of floats are parameters, not models of IEEE-754 formatting (lines 27, 60, 63).
- `str()` of the device index is modelled exactly (`Decimal`).
- Floating-point arithmetic is left out. `wait_time`, `max_time`, `np.floor` and `current_time` (lines 96-100, 107) are computed as exact reals. Rounding, infinities and `OverflowError` from `int(np.floor(inf))` are not modelled.
- Opening the file with truncate or append mode, the `csv.writer` dialect and quoting (lines 52-54, 58-59, 65) are file I/O. The output is the list of fields given to `writerow`, tagged with the target file. So "a second header write truncates the first" is not modelled.
- `argparse` (lines 68-75) is configuration glue. `Args` holds `--time` and `--maxtime` already read as numbers, the file name, and the `--overwrite` string. A `ValueError` from `float(args.time)` is not modelled.
- `time.sleep` (line 108) blocks in real time, and the model leaves that out. It keeps the order of the samples, and the `ValueError` Python 3 raises for a negative length. Python 2.7 raises an `IOError` there instead, which is not modelled.
- The four queries in a snapshot run at slightly different moments. The model gives each sample one tool mapping, so it takes all four readings as if they were simultaneous. Different samples may still see different readings.
