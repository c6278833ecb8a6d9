/**
 * `gather_cpu`: core counts and frequencies, with the failures it meets appended
 * to the caller's error list.
 */
module Cpu {
  import opened Ints
  import opened Wrappers
  import opened Snapshots
  import opened Pdh

  const FREQUENCY_METRIC := "cpu.current_frequency"
  const TEMPERATURE_METRIC := "cpu.temperature"
  const TEMPERATURE_MESSAGE := "unable to read CPU temperature"

  /** The caller-supplied `Vec<MetricError>`; collection only ever appends to it. */
  class ErrorList {
    var items: seq<MetricError>

    constructor ()
      ensures items == []
    {
      items := [];
    }

    method Push(e: MetricError)
      modifies this
      ensures items == old(items) + [e]
    {
      items := items + [e];
    }
  }

  /** What the system-information library reports about the processors. */
  datatype CpuReadings = CpuReadings(physicalCoreCount: Option<nat>, coreFrequencies: seq<u64>)

  /** `iter().max().unwrap_or(0)` over the per-core rated frequencies. */
  function MaxFrequency(freqs: seq<u64>): (m: u64)
    ensures forall i :: 0 <= i < |freqs| ==> freqs[i] <= m
    ensures freqs == [] ==> m == 0
    ensures freqs != [] ==> m in freqs
  {
    if freqs == [] then 0
    else
      var rest := MaxFrequency(freqs[1..]);
      if rest <= freqs[0] then freqs[0] else rest
  }

  /** The error pushed on every collection: the temperature cannot be read. */
  const TemperatureError := MetricError([TEMPERATURE_METRIC], TEMPERATURE_MESSAGE)

  /** The errors one collection appends, given how the frequency reading went. */
  function CpuErrors(freq: Result<u64, string>): (errs: seq<MetricError>)
    ensures |errs| == if freq.Err? then 2 else 1
    ensures errs[|errs| - 1] == TemperatureError
    ensures freq.Err? ==> errs[0] == MetricError([FREQUENCY_METRIC], freq.error)
  {
    var frequencyErrors := match freq
      case Ok(_) => []
      case Err(e) => [MetricError([FREQUENCY_METRIC], e)];
    frequencyErrors + [TemperatureError]
  }

  /** A `cpu.current_frequency` entry is among the appended errors exactly when the reading failed. */
  lemma FrequencyErrorIff(freq: Result<u64, string>)
    ensures (exists e :: e in CpuErrors(freq) && e.metric == [FREQUENCY_METRIC]) <==> freq.Err?
  {
    if freq.Err? {
      assert CpuErrors(freq)[0] in CpuErrors(freq);
    } else {
      assert CpuErrors(freq) == [TemperatureError];
      assert [FREQUENCY_METRIC] != [TEMPERATURE_METRIC] by {
        assert FREQUENCY_METRIC[4] != TEMPERATURE_METRIC[4];
      }
    }
  }

  /**
   * `gather_cpu`: reads the live frequency through `pdh`, appends its error (if any)
   * and then the temperature error to `errors`, and reports the snapshot.
   */
  method GatherCpu(errors: ErrorList, readings: CpuReadings, pdh: Library) returns (cpu: CpuData)
    requires pdh.Valid() && !pdh.queryOpen
    modifies errors, pdh
    ensures pdh.Valid() && !pdh.queryOpen
    ensures pdh.calls == old(pdh.calls) + FreqQueryCalls(pdh.answers)
    ensures errors.items == old(errors.items) + CpuErrors(FreqQueryResult(pdh.answers))
    ensures cpu.currentFrequency == FreqQueryResult(pdh.answers).ToOption()
    ensures cpu.temperatureC == None
    ensures cpu.frequency == MaxFrequency(readings.coreFrequencies)
    ensures cpu.logicalCore == |readings.coreFrequencies|
    ensures cpu.physicalCore == readings.physicalCoreCount.GetOr(0)
  {
    var baseFreq := MaxFrequency(readings.coreFrequencies);

    var currentFreq: Option<u64>;
    var freq := QueryCurrentFreqMhz(pdh);
    match freq {
      case Ok(v) =>
        currentFreq := Some(v);
      case Err(e) =>
        errors.Push(MetricError([FREQUENCY_METRIC], e));
        currentFreq := None;
    }

    errors.Push(TemperatureError);

    cpu := CpuData(
      readings.physicalCoreCount.GetOr(0),
      |readings.coreFrequencies|,
      baseFreq,
      currentFreq,
      None);
  }

  /**
   * Putting the two steps together: the live frequency is absent, and a
   * `cpu.current_frequency` error carries the PDH message, exactly when some checked
   * PDH status was non-zero; the temperature error is always the last one appended.
   */
  lemma CpuErrorsFromPdh(a: Answers)
    ensures var errs := CpuErrors(FreqQueryResult(a));
      && (|errs| == 2 <==> a.openStatus != 0 || a.addStatus != 0 || a.formatStatus != 0)
      && errs[|errs| - 1] == TemperatureError
      && (|errs| == 2 ==> errs[0] == MetricError([FREQUENCY_METRIC], FreqQueryResult(a).error))
      && (FreqQueryResult(a).ToOption() == None <==> |errs| == 2)
  {
  }
}
