/**
 * Snapshot collection: reading one value per device out of the query tool's
 * output (`parse_stdout`) and zipping the four metrics into per-device
 * tuples (`get_states`).
 *
 * The query tool itself is a parameter `smi` from a `--query-gpu=` field to
 * the lines it prints (already decoded to text); Python's `float()` is a
 * parameter `float` that either yields a value or refuses the text.
 */
module Snapshot {
  import opened PyBuiltins

  /** The `--query-gpu=` fields, in the order `get_states` queries them. */
  const UtilizationQuery: string := "utilization.gpu"
  const TemperatureQuery: string := "temperature.gpu"
  const FanQuery: string := "fan.speed"
  const PowerQuery: string := "power.draw"
  const Queries: seq<string> := [UtilizationQuery, TemperatureQuery, FanQuery, PowerQuery]

  /**
   * What `parse_stdout(n, stdout)` returns or raises after its first `n`
   * loop passes: value i is `float(stdout[i].rstrip())`, and the first pass
   * that finds no line or unparsable text raises.
   */
  function ParseValues<V>(n: int, stdout: seq<string>, float: string -> Option<V>): Result<seq<V>, Exception>
    decreases n
  {
    if n <= 0 then Ok([])
    else
      var prefix :- ParseValues(n - 1, stdout, float);
      if n - 1 >= |stdout| then Err(IndexError(n - 1))
      else
        var text := RStrip(stdout[n - 1]);
        match float(text)
        case None => Err(ValueError(text))
        case Some(v) => Ok(prefix + [v])
  }

  /** Once a pass has raised, later passes are never reached. */
  lemma {:induction false} ParseValuesErrStays<V>(m: int, n: int, stdout: seq<string>, float: string -> Option<V>)
    requires m <= n
    requires ParseValues(m, stdout, float).Err?
    ensures ParseValues(n, stdout, float) == ParseValues(m, stdout, float)
    decreases n - m
  {
    if m < n {
      ParseValuesErrStays(m, n - 1, stdout, float);
    }
  }

  /** `parse_stdout`, as the loop the source runs. */
  method ParseStdout<V>(numGpu: int, stdout: seq<string>, float: string -> Option<V>)
    returns (r: Result<seq<V>, Exception>)
    ensures r == ParseValues(numGpu, stdout, float)
  {
    var values: seq<V> := [];
    var i := 0;
    while i < numGpu
      invariant 0 <= i <= LenRange(numGpu)
      invariant ParseValues(i, stdout, float) == Ok(values)
    {
      if i >= |stdout| {
        ParseValuesErrStays(i + 1, numGpu, stdout, float);
        return Err(IndexError(i));
      }
      var text := RStrip(stdout[i]);
      match float(text) {
        case None =>
          ParseValuesErrStays(i + 1, numGpu, stdout, float);
          return Err(ValueError(text));
        case Some(v) =>
          values := values + [v];
      }
      i := i + 1;
    }
    r := Ok(values);
  }

  /**
   * `parse_stdout` succeeds exactly when there are at least `n` lines and
   * each of the first `n` parses; it then returns exactly `n` values, value
   * i taken from line i.
   */
  lemma {:induction false} ParseValuesOk<V>(n: int, stdout: seq<string>, float: string -> Option<V>)
    ensures ParseValues(n, stdout, float).Ok? <==>
      (LenRange(n) <= |stdout| && forall i :: 0 <= i < LenRange(n) ==> float(RStrip(stdout[i])).Some?)
    ensures ParseValues(n, stdout, float).Ok? ==>
      var values := ParseValues(n, stdout, float).value;
      |values| == LenRange(n) &&
      forall i :: 0 <= i < LenRange(n) ==> values[i] == float(RStrip(stdout[i])).value
    decreases n
  {
    if n > 0 {
      ParseValuesOk(n - 1, stdout, float);
      if ParseValues(n - 1, stdout, float).Err? {
        ParseValuesErrStays(n - 1, n, stdout, float);
      }
    }
  }

  /**
   * With fewer than `n` lines whose every line parses, `parse_stdout`
   * raises an IndexError at the first missing line.
   */
  lemma {:induction false} ParseValuesFewerLines<V>(n: int, stdout: seq<string>, float: string -> Option<V>)
    requires |stdout| < n
    requires forall i :: 0 <= i < |stdout| ==> float(RStrip(stdout[i])).Some?
    ensures ParseValues(n, stdout, float) == Err(IndexError(|stdout|))
  {
    ParseValuesOk(|stdout|, stdout, float);
    ParseValuesErrStays(|stdout| + 1, n, stdout, float);
  }

  /** Lines after the first `n` are never read. */
  lemma {:induction false} ParseValuesIgnoresExtraLines<V>(n: int, stdout: seq<string>, extra: seq<string>, float: string -> Option<V>)
    requires n <= |stdout|
    ensures ParseValues(n, stdout + extra, float) == ParseValues(n, stdout, float)
    decreases n
  {
    if n > 0 {
      ParseValuesIgnoresExtraLines(n - 1, stdout, extra, float);
      assert (stdout + extra)[n - 1] == stdout[n - 1];
    }
  }

  /** `get_gpu_property`: one query of the tool, parsed. */
  function GetGpuProperty<V>(numGpu: int, smi: string -> seq<string>, query: string, float: string -> Option<V>): Result<seq<V>, Exception>
  {
    ParseValues(numGpu, smi(query), float)
  }

  function Min4(a: nat, b: nat, c: nat, d: nat): nat {
    var ab := if a < b then a else b;
    var cd := if c < d then c else d;
    if ab < cd then ab else cd
  }

  /** Python's `zip` of four lists: as long as the shortest, entry k holds the k-th of each. */
  function Zip4<V>(a: seq<V>, b: seq<V>, c: seq<V>, d: seq<V>): (z: seq<seq<V>>)
    ensures |z| == Min4(|a|, |b|, |c|, |d|)
    ensures forall k :: 0 <= k < |z| ==> z[k] == [a[k], b[k], c[k], d[k]]
    decreases |a|
  {
    if |a| == 0 || |b| == 0 || |c| == 0 || |d| == 0 then []
    else [[a[0], b[0], c[0], d[0]]] + Zip4(a[1..], b[1..], c[1..], d[1..])
  }

  /**
   * `get_states`: the four metrics queried in a fixed order, each parsed,
   * then zipped into (utilization, temperature, fan, power) per device.
   */
  function GetStates<V>(numGpu: int, smi: string -> seq<string>, float: string -> Option<V>): Result<seq<seq<V>>, Exception>
  {
    var utilization :- GetGpuProperty(numGpu, smi, UtilizationQuery, float);
    var temperatures :- GetGpuProperty(numGpu, smi, TemperatureQuery, float);
    var fanUsages :- GetGpuProperty(numGpu, smi, FanQuery, float);
    var powerUsages :- GetGpuProperty(numGpu, smi, PowerQuery, float);
    Ok(Zip4(utilization, temperatures, fanUsages, powerUsages))
  }

  /** The value device `k` reports for `query`, when the line parses. */
  function Reading<V>(smi: string -> seq<string>, query: string, k: nat, float: string -> Option<V>): Option<V>
  {
    if k < |smi(query)| then float(RStrip(smi(query)[k])) else None
  }

  /** A snapshot is taken exactly when all four queries parse. */
  lemma GetStatesOk<V>(numGpu: int, smi: string -> seq<string>, float: string -> Option<V>)
    ensures GetStates(numGpu, smi, float).Ok? <==>
      forall q :: q in Queries ==> GetGpuProperty(numGpu, smi, q, float).Ok?
  {
    assert Queries == [UtilizationQuery, TemperatureQuery, FanQuery, PowerQuery];
  }

  /** A parsed query has one value per device, value k being device k's reading. */
  lemma GetGpuPropertyReading<V>(numGpu: int, smi: string -> seq<string>, query: string, float: string -> Option<V>)
    requires GetGpuProperty(numGpu, smi, query, float).Ok?
    ensures var values := GetGpuProperty(numGpu, smi, query, float).value;
      |values| == LenRange(numGpu) &&
      forall k :: 0 <= k < |values| ==> Reading(smi, query, k, float) == Some(values[k])
  {
    ParseValuesOk(numGpu, smi(query), float);
  }

  /**
   * A snapshot has one entry per device, in device order, each entry the
   * device's four readings in query order.
   */
  lemma GetStatesShape<V>(numGpu: int, smi: string -> seq<string>, float: string -> Option<V>)
    requires GetStates(numGpu, smi, float).Ok?
    ensures var states := GetStates(numGpu, smi, float).value;
      |states| == LenRange(numGpu) &&
      forall k :: 0 <= k < |states| ==>
        |states[k]| == 4 &&
        Reading(smi, UtilizationQuery, k, float) == Some(states[k][0]) &&
        Reading(smi, TemperatureQuery, k, float) == Some(states[k][1]) &&
        Reading(smi, FanQuery, k, float) == Some(states[k][2]) &&
        Reading(smi, PowerQuery, k, float) == Some(states[k][3])
  {
    var u := GetGpuProperty(numGpu, smi, UtilizationQuery, float);
    var t := GetGpuProperty(numGpu, smi, TemperatureQuery, float);
    var f := GetGpuProperty(numGpu, smi, FanQuery, float);
    var p := GetGpuProperty(numGpu, smi, PowerQuery, float);
    assert u.Ok? && t.Ok? && f.Ok? && p.Ok?;
    GetGpuPropertyReading(numGpu, smi, UtilizationQuery, float);
    GetGpuPropertyReading(numGpu, smi, TemperatureQuery, float);
    GetGpuPropertyReading(numGpu, smi, FanQuery, float);
    GetGpuPropertyReading(numGpu, smi, PowerQuery, float);
    assert GetStates(numGpu, smi, float).value == Zip4(u.value, t.value, f.value, p.value);
  }

  /** If any query prints fewer lines than there are devices, no snapshot is taken. */
  lemma ShortQueryFails<V>(numGpu: int, smi: string -> seq<string>, float: string -> Option<V>, q: string)
    requires q in Queries
    requires |smi(q)| < numGpu
    ensures GetStates(numGpu, smi, float).Err?
  {
    ParseValuesOk(numGpu, smi(q), float);
    GetStatesOk(numGpu, smi, float);
  }
}
