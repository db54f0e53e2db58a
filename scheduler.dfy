/**
 * The sampling schedule of the script's main block: how many samples the
 * window holds, when each is taken, and the sequence of rows written.
 *
 * Times are exact reals (floating-point rounding is not modelled). The
 * time `time.sleep` blocks for is left out; what is kept is that it raises
 * for a negative length, which ends the run before the first loop pass
 * writes its row. The tool's output for sample j is `rounds(j)`, so every
 * sample may see different readings.
 */
module Scheduler {
  import opened PyBuiltins
  import opened Snapshot
  import opened CsvRows

  /** The command-line arguments, with `--time` and `--maxtime` already read as numbers of minutes. */
  datatype Args = Args(time: real, maxtime: real, csvfile: string, overwrite: string)

  /** The file `write_header` writes to when it is called without a file name, and the `--csvfile` default. */
  const DefaultCsvFile: string := "gpu-state.csv"
  const DefaultArgs: Args := Args(10.0, 600.0, DefaultCsvFile, "True")

  /** One `writerow` call: the file it went to and the fields written. */
  datatype Write = Write(file: string, row: seq<string>)

  /**
   * `int(np.floor(max_time / wait_time))` with both times in seconds:
   * the floor of the window over the interval, or the ZeroDivisionError
   * Python raises for a zero interval.
   */
  function Iterations(args: Args): (r: Result<int, Exception>)
    ensures r.Err? <==> args.time == 0.0
    ensures r.Err? ==> r.error == ZeroDivisionError
    ensures r.Ok? ==> r.value as real <= args.maxtime / args.time < r.value as real + 1.0
  {
    var waitTime := args.time * 60.0;
    var maxTime := args.maxtime * 60.0;
    if waitTime == 0.0 then Err(ZeroDivisionError)
    else
      assert maxTime / waitTime == args.maxtime / args.time by {
        assert maxTime == (args.maxtime / args.time) * waitTime;
      }
      Ok((maxTime / waitTime).Floor)
  }

  /** `current_time` of loop pass i: `((i+1.0) * wait_time) / 60.0`. */
  function PassTime(args: Args, i: int): real
  {
    ((i as real + 1.0) * (args.time * 60.0)) / 60.0
  }

  /** The time of each sample: 0.0, then the time of each loop pass. */
  function SampleTimes(args: Args, iterations: int): seq<real>
  {
    [0.0] + seq(LenRange(iterations), i => PassTime(args, i))
  }

  /** There is one sample more than loop passes, and sample j is taken j intervals in. */
  lemma SampleTimesExact(args: Args, iterations: int)
    ensures |SampleTimes(args, iterations)| == 1 + LenRange(iterations)
    ensures forall j :: 0 <= j < |SampleTimes(args, iterations)| ==>
      SampleTimes(args, iterations)[j] == j as real * args.time
  {
    var ts := SampleTimes(args, iterations);
    forall j | 1 <= j < |ts|
      ensures ts[j] == j as real * args.time
    {
      var i := j - 1;
      assert ts[j] == PassTime(args, i);
      assert (i as real + 1.0) * (args.time * 60.0) == (j as real * args.time) * 60.0;
    }
  }

  /** With a positive interval the sample times strictly increase. */
  lemma SampleTimesIncreasing(args: Args, iterations: int)
    requires args.time > 0.0
    ensures forall i, j :: 0 <= i < j < |SampleTimes(args, iterations)| ==>
      SampleTimes(args, iterations)[i] < SampleTimes(args, iterations)[j]
  {
    var ts := SampleTimes(args, iterations);
    SampleTimesExact(args, iterations);
    forall i, j | 0 <= i < j < |ts|
      ensures ts[i] < ts[j]
    {
      assert ts[i] == i as real * args.time && ts[j] == j as real * args.time;
      assert j as real * args.time - i as real * args.time == (j - i) as real * args.time;
      assert (j - i) as real * args.time > 0.0;
    }
  }

  /**
   * An interval longer than the window gives no loop pass, so the time-zero
   * sample is the only one; with a window that is not negative the count is
   * exactly zero.
   */
  lemma ShortWindowSingleSample(args: Args)
    requires args.time > 0.0 && args.maxtime < args.time
    ensures Iterations(args).Ok?
    ensures args.maxtime >= 0.0 ==> Iterations(args).value == 0
    ensures SampleTimes(args, Iterations(args).value) == [0.0]
  {
    var iterations := Iterations(args).value;
    assert args.maxtime / args.time < 1.0 by {
      assert args.maxtime / args.time * args.time == args.maxtime;
    }
    if args.maxtime >= 0.0 {
      assert args.maxtime / args.time >= 0.0;
    }
    assert LenRange(iterations) == 0;
  }

  /**
   * How many samples a run can take: `time.sleep(wait_time)` raises at the
   * start of the first loop pass when the interval is negative, so then only
   * the time-zero sample is reachable.
   */
  function ReachableSamples(args: Args, iterations: int): nat
  {
    if args.time < 0.0 then 1 else 1 + LenRange(iterations)
  }

  /**
   * The samples a run can reach are taken at non-decreasing times, whatever
   * the interval, and they are among the planned samples.
   */
  lemma ReachableTimesNonDecreasing(args: Args, iterations: int)
    ensures 1 <= ReachableSamples(args, iterations) <= |SampleTimes(args, iterations)|
    ensures forall i, j :: 0 <= i < j < ReachableSamples(args, iterations) ==>
      SampleTimes(args, iterations)[i] <= SampleTimes(args, iterations)[j]
  {
    SampleTimesExact(args, iterations);
    if args.time > 0.0 {
      SampleTimesIncreasing(args, iterations);
    }
  }

  /**
   * A negative interval is not rejected at line 100, and a window at or below
   * it gives at least one loop pass; but the `time.sleep` of that pass
   * raises, so only the time-zero sample of the planned ones is reachable.
   */
  lemma NegativeIntervalSchedule(args: Args)
    requires args.time < 0.0 && args.maxtime <= args.time
    ensures Iterations(args).Ok? && Iterations(args).value >= 1
    ensures ReachableSamples(args, Iterations(args).value) == 1 < |SampleTimes(args, Iterations(args).value)|
  {
    assert args.maxtime / args.time >= 1.0 by {
      assert args.maxtime / args.time * args.time == args.maxtime;
    }
  }

  /** With the default arguments the window holds 60 loop passes, 61 samples. */
  lemma DefaultSchedule()
    ensures Iterations(DefaultArgs) == Ok(60)
    ensures |SampleTimes(DefaultArgs, 60)| == 61
    ensures SampleTimes(DefaultArgs, 60)[60] == 600.0
  {
    SampleTimesExact(DefaultArgs, 60);
  }

  /**
   * Two devices sampled every 10 minutes for 25 minutes: two loop passes,
   * samples at 0, 10 and 20 minutes, and a header of 11 columns.
   */
  lemma TwoGpuSchedule()
    ensures Iterations(Args(10.0, 25.0, DefaultCsvFile, "True")) == Ok(2)
    ensures SampleTimes(Args(10.0, 25.0, DefaultCsvFile, "True"), 2) == [0.0, 10.0, 20.0]
    ensures |Header(2)| == 11
  {
    SampleTimesExact(Args(10.0, 25.0, DefaultCsvFile, "True"), 2);
    HeaderLayout(2);
  }

  /** `run_gpu_states`, as the row it writes when the snapshot is taken. */
  function SampleRow<V>(numGpu: int, time: real, smi: string -> seq<string>, float: string -> Option<V>,
                        strTime: real -> string, str: V -> string): Result<seq<string>, Exception>
  {
    var states :- GetStates(numGpu, smi, float);
    Ok(Row(time, states, strTime, str))
  }

  /** A row field shows a reading: the reading exists and the field is its `str`. */
  predicate Shows<V>(field: string, reading: Option<V>, str: V -> string) {
    reading.Some? && field == str(reading.value)
  }

  /**
   * Every row written for the same device count has the header's column
   * count, and it starts with the sample's time.
   */
  lemma SampleRowWidth<V>(numGpu: int, time: real, smi: string -> seq<string>, float: string -> Option<V>,
                          strTime: real -> string, str: V -> string)
    requires SampleRow(numGpu, time, smi, float, strTime, str).Ok?
    ensures var row := SampleRow(numGpu, time, smi, float, strTime, str).value;
      |row| == |Header(numGpu)| == 1 + 5 * LenRange(numGpu) && row[0] == strTime(time)
  {
    var states := GetStates(numGpu, smi, float).value;
    assert Row(time, states, strTime, str) == SampleRow(numGpu, time, smi, float, strTime, str).value;
    GetStatesShape(numGpu, smi, float);
    RowLayout(time, states, strTime, str);
    HeaderLayout(numGpu);
  }

  /**
   * Device block k of a written row is device k's index followed by its
   * four readings in query order.
   */
  lemma SampleRowBlocks<V>(numGpu: int, time: real, smi: string -> seq<string>, float: string -> Option<V>,
                           strTime: real -> string, str: V -> string)
    requires SampleRow(numGpu, time, smi, float, strTime, str).Ok?
    ensures var row := SampleRow(numGpu, time, smi, float, strTime, str).value;
      |row| == 1 + 5 * LenRange(numGpu) &&
      forall k :: 0 <= k < LenRange(numGpu) ==>
        Block(row, k)[0] == Decimal(k) &&
        Shows(Block(row, k)[1], Reading(smi, UtilizationQuery, k, float), str) &&
        Shows(Block(row, k)[2], Reading(smi, TemperatureQuery, k, float), str) &&
        Shows(Block(row, k)[3], Reading(smi, FanQuery, k, float), str) &&
        Shows(Block(row, k)[4], Reading(smi, PowerQuery, k, float), str)
  {
    var states := GetStates(numGpu, smi, float).value;
    assert Row(time, states, strTime, str) == SampleRow(numGpu, time, smi, float, strTime, str).value;
    GetStatesShape(numGpu, smi, float);
    RowShowsReadings(numGpu, time, states, smi, float, strTime, str);
  }

  /** The row of a snapshot of the tool's readings shows those readings block by block. */
  lemma RowShowsReadings<V>(numGpu: int, time: real, states: seq<seq<V>>, smi: string -> seq<string>,
                            float: string -> Option<V>, strTime: real -> string, str: V -> string)
    requires |states| == LenRange(numGpu)
    requires forall k :: 0 <= k < |states| ==>
      |states[k]| == 4 &&
      Reading(smi, UtilizationQuery, k, float) == Some(states[k][0]) &&
      Reading(smi, TemperatureQuery, k, float) == Some(states[k][1]) &&
      Reading(smi, FanQuery, k, float) == Some(states[k][2]) &&
      Reading(smi, PowerQuery, k, float) == Some(states[k][3])
    ensures var row := Row(time, states, strTime, str);
      |row| == 1 + 5 * LenRange(numGpu) &&
      forall k :: 0 <= k < LenRange(numGpu) ==>
        Block(row, k)[0] == Decimal(k) &&
        Shows(Block(row, k)[1], Reading(smi, UtilizationQuery, k, float), str) &&
        Shows(Block(row, k)[2], Reading(smi, TemperatureQuery, k, float), str) &&
        Shows(Block(row, k)[3], Reading(smi, FanQuery, k, float), str) &&
        Shows(Block(row, k)[4], Reading(smi, PowerQuery, k, float), str)
  {
    var row := Row(time, states, strTime, str);
    RowLayout(time, states, strTime, str);
    forall k | 0 <= k < LenRange(numGpu)
      ensures Block(row, k)[0] == Decimal(k)
      ensures Shows(Block(row, k)[1], Reading(smi, UtilizationQuery, k, float), str)
      ensures Shows(Block(row, k)[2], Reading(smi, TemperatureQuery, k, float), str)
      ensures Shows(Block(row, k)[3], Reading(smi, FanQuery, k, float), str)
      ensures Shows(Block(row, k)[4], Reading(smi, PowerQuery, k, float), str)
    {
      assert Block(row, k) == [Decimal(k), str(states[k][0]), str(states[k][1]), str(states[k][2]), str(states[k][3])];
    }
  }

  /** `run_gpu_states`: take a snapshot and build its row; a failed snapshot writes nothing. */
  method RunGpuStates<V>(numGpu: int, time: real, smi: string -> seq<string>, float: string -> Option<V>,
                         strTime: real -> string, str: V -> string)
    returns (r: Result<seq<string>, Exception>)
    ensures r == SampleRow(numGpu, time, smi, float, strTime, str)
    ensures r.Ok? ==> |r.value| == |Header(numGpu)| && r.value[0] == strTime(time)
  {
    var states :- GetStates(numGpu, smi, float);
    var row := WriteState(time, states, strTime, str);
    r := Ok(row);
    SampleRowWidth(numGpu, time, smi, float, strTime, str);
  }

  /** The header write at startup, made only when `--overwrite` is the string "True". */
  function HeaderWrites(numGpu: int, args: Args): seq<Write>
  {
    if args.overwrite == "True" then [Write(DefaultCsvFile, Header(numGpu))] else []
  }

  /** The first `|rows|` samples were taken and written, in order, to the `--csvfile` file. */
  predicate SamplesWritten<V>(numGpu: int, args: Args, times: seq<real>, rounds: nat -> string -> seq<string>,
                              float: string -> Option<V>, strTime: real -> string, str: V -> string, rows: seq<Write>)
  {
    |rows| <= |times| &&
    forall j :: 0 <= j < |rows| ==>
      rows[j].file == args.csvfile && SampleRow(numGpu, times[j], rounds(j), float, strTime, str) == Ok(rows[j].row)
  }

  /** Writing the row of the next sample keeps the written rows in step with the samples. */
  lemma SamplesWrittenExtend<V>(numGpu: int, args: Args, times: seq<real>, rounds: nat -> string -> seq<string>,
                                float: string -> Option<V>, strTime: real -> string, str: V -> string,
                                rows: seq<Write>, row: seq<string>)
    requires SamplesWritten(numGpu, args, times, rounds, float, strTime, str, rows)
    requires |rows| < |times|
    requires SampleRow(numGpu, times[|rows|], rounds(|rows|), float, strTime, str) == Ok(row)
    ensures SamplesWritten(numGpu, args, times, rounds, float, strTime, str, rows + [Write(args.csvfile, row)])
  {
  }

  /** Every data row written has as many columns as the header. */
  lemma SamplesWrittenWidth<V>(numGpu: int, args: Args, times: seq<real>, rounds: nat -> string -> seq<string>,
                               float: string -> Option<V>, strTime: real -> string, str: V -> string, rows: seq<Write>)
    requires SamplesWritten(numGpu, args, times, rounds, float, strTime, str, rows)
    ensures forall j :: 0 <= j < |rows| ==> |rows[j].row| == |Header(numGpu)| == 1 + 5 * LenRange(numGpu)
  {
    HeaderLayout(numGpu);
    forall j | 0 <= j < |rows|
      ensures |rows[j].row| == |Header(numGpu)|
    {
      SampleRowWidth(numGpu, times[j], rounds(j), float, strTime, str);
    }
  }

  /**
   * The outcome of the sampling loop: the rows written are those of the first
   * samples, no more than the run can reach; the run completes iff every
   * planned sample is written; a failure before the last reachable sample is
   * that sample's exception, and a failure after it is the one `time.sleep`
   * raises for a negative interval.
   */
  predicate SamplesOutcome<V>(numGpu: int, args: Args, iterations: int, rounds: nat -> string -> seq<string>,
                              float: string -> Option<V>, strTime: real -> string, str: V -> string,
                              rows: seq<Write>, failure: Option<Exception>)
  {
    var times := SampleTimes(args, iterations);
    SamplesWritten(numGpu, args, times, rounds, float, strTime, str, rows) &&
    |rows| <= ReachableSamples(args, iterations) &&
    (failure.None? <==> |rows| == |times|) &&
    (failure.Some? && |rows| < ReachableSamples(args, iterations) ==>
      SampleRow(numGpu, times[|rows|], rounds(|rows|), float, strTime, str) == Err(failure.value)) &&
    (failure.Some? && |rows| == ReachableSamples(args, iterations) ==>
      failure.value == SleepLengthError(args.time * 60.0))
  }

  /**
   * The run of a negative interval with a window at or below it: at most the
   * time-zero row is written, and the run always ends in an exception, the
   * sleep's one when the time-zero sample succeeded.
   */
  lemma NegativeIntervalStopsAtSleep<V>(numGpu: int, args: Args, rounds: nat -> string -> seq<string>,
                                        float: string -> Option<V>, strTime: real -> string, str: V -> string,
                                        rows: seq<Write>, failure: Option<Exception>)
    requires args.time < 0.0 && args.maxtime <= args.time
    requires Iterations(args).Ok?
    requires SamplesOutcome(numGpu, args, Iterations(args).value, rounds, float, strTime, str, rows, failure)
    ensures failure.Some? && |rows| <= 1
    ensures |rows| == 1 ==> failure == Some(SleepLengthError(args.time * 60.0))
    ensures |rows| == 0 ==> SampleRow(numGpu, 0.0, rounds(0), float, strTime, str) == Err(failure.value)
  {
    NegativeIntervalSchedule(args);
  }

  /** Every run writes its rows at non-decreasing sample times, whatever the interval. */
  lemma WrittenTimesNonDecreasing<V>(numGpu: int, args: Args, iterations: int, rounds: nat -> string -> seq<string>,
                                     float: string -> Option<V>, strTime: real -> string, str: V -> string,
                                     rows: seq<Write>, failure: Option<Exception>)
    requires SamplesOutcome(numGpu, args, iterations, rounds, float, strTime, str, rows, failure)
    ensures |rows| <= |SampleTimes(args, iterations)|
    ensures forall i, j :: 0 <= i < j < |rows| ==> SampleTimes(args, iterations)[i] <= SampleTimes(args, iterations)[j]
  {
    ReachableTimesNonDecreasing(args, iterations);
  }

  /** A sample that raises before the last reachable one ends the run with its exception. */
  lemma SampleFailsOutcome<V>(numGpu: int, args: Args, iterations: int, rounds: nat -> string -> seq<string>,
                              float: string -> Option<V>, strTime: real -> string, str: V -> string,
                              rows: seq<Write>, error: Exception)
    requires SamplesWritten(numGpu, args, SampleTimes(args, iterations), rounds, float, strTime, str, rows)
    requires |rows| < ReachableSamples(args, iterations)
    requires SampleRow(numGpu, SampleTimes(args, iterations)[|rows|], rounds(|rows|), float, strTime, str) == Err(error)
    ensures SamplesOutcome(numGpu, args, iterations, rounds, float, strTime, str, rows, Some(error))
  {
    ReachableTimesNonDecreasing(args, iterations);
  }

  /** A negative interval ends the run at the first sleep, after the time-zero row. */
  lemma SleepFailsOutcome<V>(numGpu: int, args: Args, iterations: int, rounds: nat -> string -> seq<string>,
                             float: string -> Option<V>, strTime: real -> string, str: V -> string,
                             rows: seq<Write>)
    requires SamplesWritten(numGpu, args, SampleTimes(args, iterations), rounds, float, strTime, str, rows)
    requires args.time < 0.0 && iterations >= 1 && |rows| == 1
    ensures SamplesOutcome(numGpu, args, iterations, rounds, float, strTime, str, rows, Some(SleepLengthError(args.time * 60.0)))
  {
  }

  /** A run that writes every planned sample completes without an exception. */
  lemma AllSamplesOutcome<V>(numGpu: int, args: Args, iterations: int, rounds: nat -> string -> seq<string>,
                             float: string -> Option<V>, strTime: real -> string, str: V -> string,
                             rows: seq<Write>)
    requires SamplesWritten(numGpu, args, SampleTimes(args, iterations), rounds, float, strTime, str, rows)
    requires |rows| == |SampleTimes(args, iterations)| <= ReachableSamples(args, iterations)
    ensures SamplesOutcome(numGpu, args, iterations, rounds, float, strTime, str, rows, None)
  {
  }

  /**
   * Lines 103-109 of the main block: the time-zero sample, then one sample
   * per loop pass, stopping at the first exception. `rows` is every
   * `writerow` call made, in order.
   */
  method RunSamples<V>(numGpu: int, args: Args, iterations: int, rounds: nat -> string -> seq<string>,
                       float: string -> Option<V>, strTime: real -> string, str: V -> string)
    returns (rows: seq<Write>, failure: Option<Exception>)
    ensures SamplesOutcome(numGpu, args, iterations, rounds, float, strTime, str, rows, failure)
  {
    ghost var times := SampleTimes(args, iterations);
    rows := [];
    var r := RunGpuStates(numGpu, 0.0, rounds(0), float, strTime, str);
    if r.Err? {
      assert times[0] == 0.0;
      SampleFailsOutcome(numGpu, args, iterations, rounds, float, strTime, str, rows, r.error);
      return rows, Some(r.error);
    }
    SamplesWrittenExtend(numGpu, args, times, rounds, float, strTime, str, rows, r.value);
    rows := [Write(args.csvfile, r.value)];

    var i := 0;
    while i < iterations
      invariant 0 <= i <= LenRange(iterations)
      invariant |rows| == 1 + i
      invariant SamplesWritten(numGpu, args, times, rounds, float, strTime, str, rows)
      invariant args.time < 0.0 ==> i == 0
    {
      rows, failure := SamplePass(numGpu, args, iterations, i, rounds, float, strTime, str, rows);
      if failure.Some? {
        return rows, failure;
      }
      i := i + 1;
    }
    AllSamplesOutcome(numGpu, args, iterations, rounds, float, strTime, str, rows);
    failure := None;
  }

  /**
   * Loop pass `i` (lines 107-109): the pass's time, the sleep, which raises
   * for a negative interval, then the sample, whose row is appended unless it
   * raises.
   */
  method SamplePass<V>(numGpu: int, args: Args, iterations: int, i: nat, rounds: nat -> string -> seq<string>,
                       float: string -> Option<V>, strTime: real -> string, str: V -> string, rows: seq<Write>)
    returns (rows': seq<Write>, failure: Option<Exception>)
    requires i < iterations && |rows| == 1 + i && (args.time < 0.0 ==> i == 0)
    requires SamplesWritten(numGpu, args, SampleTimes(args, iterations), rounds, float, strTime, str, rows)
    ensures failure.None? ==>
      args.time >= 0.0 && |rows'| == 2 + i &&
      SamplesWritten(numGpu, args, SampleTimes(args, iterations), rounds, float, strTime, str, rows')
    ensures failure.Some? ==>
      rows' == rows && SamplesOutcome(numGpu, args, iterations, rounds, float, strTime, str, rows, failure)
  {
    ghost var times := SampleTimes(args, iterations);
    var currentTime := PassTime(args, i);
    var waitTime := args.time * 60.0;
    if waitTime < 0.0 {
      SleepFailsOutcome(numGpu, args, iterations, rounds, float, strTime, str, rows);
      return rows, Some(SleepLengthError(waitTime));
    }
    var r := RunGpuStates(numGpu, currentTime, rounds(i + 1), float, strTime, str);
    if r.Err? {
      assert times[i + 1] == currentTime;
      SampleFailsOutcome(numGpu, args, iterations, rounds, float, strTime, str, rows, r.error);
      return rows, Some(r.error);
    }
    SamplesWrittenExtend(numGpu, args, times, rounds, float, strTime, str, rows, r.value);
    rows' := rows + [Write(args.csvfile, r.value)];
    failure := None;
  }

  /**
   * The main block after `get_num_gpu`: the header (if asked for), the
   * iteration count, then the samples. `log` is every `writerow` call made,
   * in order.
   */
  method Monitor<V>(numGpu: int, args: Args, rounds: nat -> string -> seq<string>, float: string -> Option<V>,
                    strTime: real -> string, str: V -> string)
    returns (log: seq<Write>, failure: Option<Exception>)
    ensures |HeaderWrites(numGpu, args)| <= |log|
    ensures log[..|HeaderWrites(numGpu, args)|] == HeaderWrites(numGpu, args)
    ensures Iterations(args).Err? ==> log == HeaderWrites(numGpu, args) && failure == Some(ZeroDivisionError)
    ensures Iterations(args).Ok? ==>
      SamplesOutcome(numGpu, args, Iterations(args).value, rounds, float, strTime, str,
                     log[|HeaderWrites(numGpu, args)|..], failure)
    ensures forall j :: |HeaderWrites(numGpu, args)| <= j < |log| ==>
      log[j].file == args.csvfile && |log[j].row| == |Header(numGpu)|
  {
    log := [];
    if args.overwrite == "True" {
      var header := WriteHeader(numGpu);
      log := log + [Write(DefaultCsvFile, header)];
    }
    assert log == HeaderWrites(numGpu, args);

    var count := Iterations(args);
    if count.Err? {
      return log, Some(count.error);
    }
    var rows;
    rows, failure := RunSamples(numGpu, args, count.value, rounds, float, strTime, str);
    SamplesWrittenWidth(numGpu, args, SampleTimes(args, count.value), rounds, float, strTime, str, rows);
    assert (log + rows)[|log|..] == rows;
    log := log + rows;
  }
}
