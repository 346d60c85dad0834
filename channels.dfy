/**
 * The quantities a performance sample feeds into the chart histories, and the
 * run of readings a history is a window of.
 */
module Channels {
  import opened Models
  import opened ChartData

  datatype Channel = Cpu | Ram | Gpu | Network | Disk

  /** The value of a sample that feeds a channel's history. */
  function Reading(m: PerformanceMetrics, c: Channel): real
  {
    match c
    case Cpu => m.cpuUsage
    case Ram => m.ramUsagePercent
    case Gpu => m.gpuUsage
    case Network => m.networkUsageMbps
    case Disk => m.diskUsagePercent
  }

  /** A channel's readings of a run of samples, in order. */
  function Series(samples: seq<PerformanceMetrics>, c: Channel): (r: seq<real>)
    ensures |r| == |samples|
    decreases |samples|
  {
    if |samples| == 0 then [] else Series(samples[..|samples| - 1], c) + [Reading(samples[|samples| - 1], c)]
  }

  /** The i-th reading of a channel comes from the i-th sample. */
  lemma {:induction false} SeriesAt(samples: seq<PerformanceMetrics>, c: Channel, i: int)
    requires 0 <= i < |samples|
    ensures Series(samples, c)[i] == Reading(samples[i], c)
    decreases |samples|
  {
    if i < |samples| - 1 {
      SeriesAt(samples[..|samples| - 1], c, i);
    }
  }

  /** One more sample adds its reading at the end of each channel's run. */
  lemma SeriesAppend(samples: seq<PerformanceMetrics>, m: PerformanceMetrics, c: Channel)
    ensures Series(samples + [m], c) == Series(samples, c) + [Reading(m, c)]
  {
    assert (samples + [m])[..|samples|] == samples;
  }

  /**
   * One more sample keeps a history of capacity n the window of its channel:
   * appending the new reading to the last n readings gives the last n of the
   * longer run, and that reading is now the newest value.
   */
  lemma WindowStep(samples: seq<PerformanceMetrics>, m: PerformanceMetrics, c: Channel, h: seq<real>, n: nat)
    requires n > 0
    requires h == LastN(Series(samples, c), n)
    ensures Appended(h, Reading(m, c), n) == LastN(Series(samples + [m], c), n)
    ensures |Appended(h, Reading(m, c), n)| > 0
    ensures Appended(h, Reading(m, c), n)[|Appended(h, Reading(m, c), n)| - 1] == Reading(m, c)
  {
    SeriesAppend(samples, m, c);
    AppendedIsWindow(h, Reading(m, c), n);
    LastNOfLastN(Series(samples, c), Reading(m, c), n);
    AppendedFacts(h, Reading(m, c), n);
  }
}
