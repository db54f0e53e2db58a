/**
 * The CSV rows the monitor writes: the header row of `write_header` and the
 * data row of `write_state`, each as the list of fields handed to
 * `writerow`. Python's `str()` of a float is a parameter; `str()` of the
 * device index is the decimal numeral.
 */
module CsvRows {
  import opened PyBuiltins

  const TimeHeading: string := "TIME"
  /** The five column labels repeated once per device. */
  const Headings: seq<string> := ["GPU_ID", "UTIL", "TEMP", "FAN", "PWR"]

  /** The five fields of device block `k` of a row (fields 1+5k .. 5+5k). */
  function Block<T>(row: seq<T>, k: nat): seq<T>
    requires 6 + 5 * k <= |row|
  {
    row[1 + 5 * k .. 6 + 5 * k]
  }

  /** The header after `n` passes of the `extend` loop. */
  function Header(n: int): seq<string>
    decreases n
  {
    if n <= 0 then [TimeHeading] else Header(n - 1) + Headings
  }

  /**
   * The header of `num_gpu` devices has 1 + 5·num_gpu fields: `TIME`, then
   * the five labels once per device.
   */
  lemma {:induction false} HeaderLayout(n: int)
    ensures |Header(n)| == 1 + 5 * LenRange(n)
    ensures Header(n)[0] == TimeHeading
    ensures forall k :: 0 <= k < LenRange(n) ==> Block(Header(n), k) == Headings
    decreases n
  {
    if n > 0 {
      HeaderLayout(n - 1);
      var h, h' := Header(n - 1), Header(n);
      assert h' == h + Headings;
      forall k | 0 <= k < n
        ensures Block(h', k) == Headings
      {
        if k < n - 1 {
          assert Block(h', k) == Block(h, k);
        } else {
          assert Block(h', k) == h'[|h|..];
        }
      }
    }
  }

  /** `write_header`, as the loop the source runs. */
  method WriteHeader(numGpu: int) returns (header: seq<string>)
    ensures header == Header(numGpu)
    ensures |header| == 1 + 5 * LenRange(numGpu) && header[0] == TimeHeading
    ensures forall k :: 0 <= k < LenRange(numGpu) ==> Block(header, k) == Headings
  {
    header := [TimeHeading];
    var i := 0;
    while i < numGpu
      invariant 0 <= i <= LenRange(numGpu)
      invariant header == Header(i)
    {
      header := header + Headings;
      i := i + 1;
    }
    HeaderLayout(numGpu);
  }

  /** `[str(x) for x in state_details]`. */
  function StrAll<V>(details: seq<V>, str: V -> string): seq<string>
  {
    seq(|details|, i requires 0 <= i < |details| => str(details[i]))
  }

  /** The `entry` of one device: its index, then its values. */
  function Entry<V>(gpuId: nat, details: seq<V>, str: V -> string): seq<string>
  {
    [Decimal(gpuId)] + StrAll(details, str)
  }

  /** The fields the `enumerate` loop adds for the devices of `state`. */
  function Entries<V>(state: seq<seq<V>>, str: V -> string): seq<string>
    decreases |state|
  {
    if |state| == 0 then []
    else Entries(state[..|state| - 1], str) + Entry(|state| - 1, state[|state| - 1], str)
  }

  /** The row `write_state(time, state)` hands to `writerow`. */
  function Row<V>(time: real, state: seq<seq<V>>, strTime: real -> string, str: V -> string): seq<string>
  {
    [strTime(time)] + Entries(state, str)
  }

  /**
   * When every device entry holds four values, the row has 1 + 5·len(state)
   * fields: the time, then per device in snapshot order its index and its
   * four values in tuple order.
   */
  lemma {:induction false} RowLayout<V>(time: real, state: seq<seq<V>>, strTime: real -> string, str: V -> string)
    requires forall k :: 0 <= k < |state| ==> |state[k]| == 4
    ensures |Row(time, state, strTime, str)| == 1 + 5 * |state|
    ensures Row(time, state, strTime, str)[0] == strTime(time)
    ensures forall k :: 0 <= k < |state| ==>
      Block(Row(time, state, strTime, str), k) ==
        [Decimal(k), str(state[k][0]), str(state[k][1]), str(state[k][2]), str(state[k][3])]
    decreases |state|
  {
    if |state| > 0 {
      var n := |state|;
      var front := state[..n - 1];
      RowLayout(time, front, strTime, str);
      var r, r' := Row(time, front, strTime, str), Row(time, state, strTime, str);
      assert r' == r + Entry(n - 1, state[n - 1], str);
      forall k | 0 <= k < n
        ensures Block(r', k) == [Decimal(k), str(state[k][0]), str(state[k][1]), str(state[k][2]), str(state[k][3])]
      {
        if k < n - 1 {
          assert Block(r', k) == Block(r, k);
          assert front[k] == state[k];
        } else {
          assert Block(r', k) == r'[|r|..];
        }
      }
    }
  }

  /**
   * The device-index fields of a row read back as 0, 1, …, n-1 in snapshot
   * order, so no two devices share an index.
   */
  lemma RowIdsInOrder<V>(time: real, state: seq<seq<V>>, strTime: real -> string, str: V -> string)
    requires forall k :: 0 <= k < |state| ==> |state[k]| == 4
    ensures |Row(time, state, strTime, str)| == 1 + 5 * |state|
    ensures forall k :: 0 <= k < |state| ==>
      var id := Row(time, state, strTime, str)[1 + 5 * k];
      IsDigits(id) && DecimalValue(id) == k
  {
    RowLayout(time, state, strTime, str);
    forall k | 0 <= k < |state|
      ensures var id := Row(time, state, strTime, str)[1 + 5 * k]; IsDigits(id) && DecimalValue(id) == k
    {
      assert Row(time, state, strTime, str)[1 + 5 * k] == Block(Row(time, state, strTime, str), k)[0];
      DecimalRoundTrip(k);
    }
  }

  /** `write_state`, as the loop the source runs. */
  method WriteState<V>(time: real, state: seq<seq<V>>, strTime: real -> string, str: V -> string)
    returns (csvLine: seq<string>)
    ensures csvLine == Row(time, state, strTime, str)
    ensures csvLine[0] == strTime(time)
    ensures (forall k :: 0 <= k < |state| ==> |state[k]| == 4) ==> |csvLine| == 1 + 5 * |state|
  {
    csvLine := [strTime(time)];
    var gpuId := 0;
    while gpuId < |state|
      invariant 0 <= gpuId <= |state|
      invariant csvLine == [strTime(time)] + Entries(state[..gpuId], str)
    {
      var entry := [Decimal(gpuId)];
      entry := entry + StrAll(state[gpuId], str);
      assert state[..gpuId + 1][..gpuId] == state[..gpuId];
      csvLine := csvLine + entry;
      gpuId := gpuId + 1;
    }
    assert state[..gpuId] == state;
    if forall k :: 0 <= k < |state| ==> |state[k]| == 4 {
      RowLayout(time, state, strTime, str);
    }
  }
}
