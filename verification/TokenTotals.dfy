/** Token accounting. A session reports running totals of its own usage, sometimes twice and sometimes
    late; the process totals are to count every run once, at its highest report. */
module TokenTotals {
  import opened Prelude

  datatype Usage = Usage(input: nat, output: nat, total: nat)

  const NO_USAGE: Usage := Usage(0, 0, 0)

  /** A usage report of one run; any count may be missing. */
  datatype Report = Report(run: nat, input: Option<nat>, output: Option<nat>, total: Option<nat>)

  datatype Channel = Input | Output | Total

  function Reported(r: Report, c: Channel): Option<nat> {
    match c case Input => r.input case Output => r.output case Total => r.total
  }

  function Count(u: Usage, c: Channel): nat {
    match c case Input => u.input case Output => u.output case Total => u.total
  }

  function Higher(a: nat, b: Option<nat>): nat {
    if b.Some? && b.value > a then b.value else a
  }

  /** The highest value the run ever reported, or zero. */
  function Peak(log: seq<Report>, run: nat, c: Channel): nat {
    if log == [] then 0
    else
      var last, before := log[|log| - 1], Peak(log[..|log| - 1], run, c);
      if last.run == run then Higher(before, Reported(last, c)) else before
  }

  /** Every run once, at its highest report. */
  function PeakSum(runs: seq<nat>, log: seq<Report>, c: Channel): nat {
    if runs == [] then 0 else Peak(log, runs[0], c) + PeakSum(runs[1..], log, c)
  }

  function PeakUsage(log: seq<Report>, run: nat): Usage {
    Usage(Peak(log, run, Input), Peak(log, run, Output), Peak(log, run, Total))
  }

  function PeakTotals(runs: seq<nat>, log: seq<Report>): Usage {
    Usage(PeakSum(runs, log, Input), PeakSum(runs, log, Output), PeakSum(runs, log, Total))
  }

  lemma {:induction false} SumWithout(runs: seq<nat>, log: seq<Report>, r: Report, c: Channel)
    requires r.run !in runs
    ensures PeakSum(runs, log + [r], c) == PeakSum(runs, log, c)
  {
    assert (log + [r])[..|log|] == log;
    if runs != [] {
      SumWithout(runs[1..], log, r, c);
    }
  }

  /** A report adds to the sum what it adds to its run's peak. */
  lemma {:induction false} SumGrows(runs: seq<nat>, log: seq<Report>, r: Report, c: Channel)
    requires Distinct(runs) && r.run in runs
    ensures PeakSum(runs, log + [r], c) == PeakSum(runs, log, c) + Peak(log + [r], r.run, c) - Peak(log, r.run, c)
  {
    assert (log + [r])[..|log|] == log;
    if runs[0] == r.run {
      SumWithout(runs[1..], log, r, c);
    } else {
      SumGrows(runs[1..], log, r, c);
    }
  }

  /** A run that has not reported yet adds nothing. */
  lemma {:induction false} SilentRun(log: seq<Report>, run: nat, c: Channel)
    requires forall r :: r in log ==> r.run != run
    ensures Peak(log, run, c) == 0
  {
    if log != [] {
      SilentRun(log[..|log| - 1], run, c);
    }
  }

  lemma {:induction false} SumJoins(runs: seq<nat>, run: nat, log: seq<Report>, c: Channel)
    ensures PeakSum(runs + [run], log, c) == PeakSum(runs, log, c) + Peak(log, run, c)
  {
    if runs != [] {
      assert (runs + [run])[1..] == runs[1..] + [run];
      SumJoins(runs[1..], run, log, c);
    } else {
      assert (runs + [run])[1..] == [];
    }
  }

  // ---------------------------------------------------------------------------------------------
  // Order and repetition do not matter

  lemma {:induction false} PeakIsReported(log: seq<Report>, run: nat, c: Channel)
    ensures forall r :: r in log && r.run == run && Reported(r, c).Some? ==> Reported(r, c).value <= Peak(log, run, c)
    ensures Peak(log, run, c) > 0 ==> exists r :: r in log && r.run == run && Reported(r, c) == Some(Peak(log, run, c))
  {
    if log != [] {
      var n := |log| - 1;
      assert log == log[..n] + [log[n]];
      PeakIsReported(log[..n], run, c);
    }
  }

  /** Two logs with the same reports, in whatever order and however often repeated, give the same
      totals. */
  lemma {:induction false} TotalsIgnoreOrder(runs: seq<nat>, a: seq<Report>, b: seq<Report>, c: Channel)
    requires forall r :: r in a <==> r in b
    ensures PeakSum(runs, a, c) == PeakSum(runs, b, c)
  {
    if runs != [] {
      TotalsIgnoreOrder(runs[1..], a, b, c);
      PeakIsReported(a, runs[0], c);
      PeakIsReported(b, runs[0], c);
    }
  }

  // ---------------------------------------------------------------------------------------------
  // The accounting itself

  function PositiveDelta(next: nat, prev: nat): nat {
    if next <= prev then 0 else next - prev
  }

  /** The usage fields of the orchestrator's state: what each live run last reported, and the totals.
      `runs` and `log` recall every run ever registered and every report that reached one. */
  class TokenMeter {
    var lastReported: map<nat, Usage>
    var totals: Usage
    ghost var runs: seq<nat>
    ghost var log: seq<Report>

    ghost predicate Valid()
      reads this
    {
      && Distinct(runs) && (forall r :: r in log ==> r.run in runs)
      && (forall run :: run in lastReported ==> run in runs && lastReported[run] == PeakUsage(log, run))
      && totals == PeakTotals(runs, log)
    }

    constructor ()
      ensures Valid() && runs == [] && log == []
    {
      lastReported, totals, runs, log := map[], NO_USAGE, [], [];
    }

    method Register(run: nat)
      requires Valid() && run !in runs
      modifies this
      ensures Valid() && runs == old(runs) + [run] && log == old(log) && totals == old(totals)
      ensures lastReported == old(lastReported)[run := NO_USAGE]
    {
      forall c ensures PeakSum(runs + [run], log, c) == PeakSum(runs, log, c) && Peak(log, run, c) == 0 {
        SilentRun(log, run, c);
        SumJoins(runs, run, log, c);
      }
      lastReported, runs := lastReported[run := NO_USAGE], runs + [run];
    }

    /** A finished run keeps its share of the totals and takes no more reports. */
    method Finish(run: nat)
      requires Valid()
      modifies this
      ensures Valid() && runs == old(runs) && log == old(log) && totals == old(totals)
      ensures lastReported == old(lastReported) - {run}
    {
      lastReported := lastReported - {run};
    }

    /** recordRuntimeEvent's usage branch: a report for a run nobody registered is dropped. */
    method Record(r: Report)
      requires Valid()
      modifies this
      ensures Valid() && runs == old(runs) && lastReported.Keys == old(lastReported.Keys)
      ensures log == if r.run in old(lastReported) then old(log) + [r] else old(log)
    {
      if r.run !in lastReported {
        return;
      }
      var last := lastReported[r.run];
      var input, inputDelta := ApplyChannel(last.input, r.input);
      var output, outputDelta := ApplyChannel(last.output, r.output);
      var total, totalDelta := ApplyChannel(last.total, r.total);
      assert (log + [r])[..|log|] == log;
      forall c {
        SumGrows(runs, log, r, c);
      }
      lastReported := lastReported[r.run := Usage(input, output, total)];
      totals := Usage(totals.input + inputDelta, totals.output + outputDelta, totals.total + totalDelta);
      log := log + [r];
    }
  }

  /** One of the three counts of applyTokenUsage. */
  method ApplyChannel(last: nat, reported: Option<nat>) returns (high: nat, delta: nat)
    ensures high == Higher(last, reported) && delta == high - last
  {
    high, delta := last, 0;
    if reported.Some? {
      delta := PositiveDelta(reported.value, last);
      if reported.value > last {
        high := reported.value;
      }
    }
  }
}
