/** Interval counters of the latency distributions: counts, drops and sums, as far as the audit uses them. */
module Intervals {
  import opened Basics

  const HIGHEST_NS := 10_000_000_000

  datatype Distribution = Distribution(count: nat, dropped: nat, sum: nat) {
    /** A reversed or over-range interval is counted and dropped; so is one the sum has no room for. */
    function Record(start: int, end: int): Distribution {
      if start < 0 || end < start || end - start > HIGHEST_NS || end - start > MAX64 - sum then
        Distribution(count + 1, dropped + 1, sum)
      else Distribution(count + 1, dropped, sum + end - start)
    }
  }

  const NO_INTERVALS := Distribution(0, 0, 0)

  predicate InHistogram(ns: int) { ns <= HIGHEST_NS }

  /** Jitter, self-referenced jitter and execution time of recorded cycles, clamped below at 1 ns. */
  datatype LoopStats = LoopStats(recorded: nat, jitterCount: nat, execCount: nat, dropped: nat) {
    function Record(jitter: int, naive: int, exec: int): LoopStats {
      LoopStats(recorded + 1, jitterCount + (if InHistogram(jitter) then 1 else 0),
                execCount + (if InHistogram(exec) then 1 else 0),
                dropped + (if InHistogram(jitter) then 0 else 1) + (if InHistogram(naive) then 0 else 1)
                        + if InHistogram(exec) then 0 else 1)
    }
  }

  const NO_SAMPLES := LoopStats(0, 0, 0, 0)
}
