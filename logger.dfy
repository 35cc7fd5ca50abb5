/**
 * Healing history: an append-only in-memory list of attempt events and the
 * statistics computed from it. The durable log sink is represented by the
 * list of records it would receive.
 */
module Logger {
  import opened Wrappers

  /** One healing attempt (the ISO timestamp is not modelled). */
  datatype HealingEvent = HealingEvent(
    originalStrategy: string,
    originalSelector: string,
    failureReason: string,
    healingAttempt: int,
    healingStrategy: string,
    healingSelector: Option<string>,
    success: bool,
    timeTakenMs: int,
    aiUsed: bool)

  datatype Level = Info | Error

  /** One call into the log sink: its level, its message and the event attached. */
  datatype SinkRecord = SinkRecord(level: Level, message: string, event: HealingEvent)

  const AttemptMessage := "Healing attempt"
  const SuccessMessage := "\U{2713} Healing successful"
  const FailureMessage := "\U{2717} Healing failed"

  /** `history.filter(e => e.success).length`. */
  function CountSuccessful(h: seq<HealingEvent>): (n: nat)
    ensures n <= |h|
  {
    if h == [] then 0 else (if h[0].success then 1 else 0) + CountSuccessful(h[1..])
  }

  /** `history.filter(e => e.aiUsed).length`. */
  function CountAIUsed(h: seq<HealingEvent>): (n: nat)
    ensures n <= |h|
  {
    if h == [] then 0 else (if h[0].aiUsed then 1 else 0) + CountAIUsed(h[1..])
  }

  /** `history.reduce((acc, e) => acc + e.timeTakenMs, 0)`. */
  function TotalTime(h: seq<HealingEvent>): int {
    if h == [] then 0 else h[0].timeTakenMs + TotalTime(h[1..])
  }

  /** getSuccessRate as a real number: 0 for an empty history, else the percentage of successes. */
  function SuccessRate(h: seq<HealingEvent>): (r: real)
    ensures 0.0 <= r <= 100.0
    ensures |h| == 0 ==> r == 0.0
    ensures |h| > 0 ==> r * (|h| as real) == 100.0 * (CountSuccessful(h) as real)
  {
    if |h| == 0 then 0.0
    else
      var frac := (CountSuccessful(h) as real) / (|h| as real);
      assert frac <= 1.0 by { RatioAtMostOne(CountSuccessful(h), |h|); }
      frac * 100.0
  }

  lemma RatioAtMostOne(k: nat, n: nat)
    requires 0 < n && k <= n
    ensures 0.0 <= (k as real) / (n as real) <= 1.0
  {
  }

  /** The figures of generateReport (its text and two-decimal rounding are not modelled). */
  datatype Report = Report(
    total: nat,
    successful: nat,
    failed: int,
    successRate: real,
    avgTimeMs: real,
    aiUsedCount: nat)

  function ReportOf(h: seq<HealingEvent>): (r: Report)
    ensures r.total == |h| && r.successful <= r.total && r.aiUsedCount <= r.total
    ensures r.failed == r.total - r.successful && r.failed >= 0
    ensures |h| == 0 ==> r.avgTimeMs == 0.0
    ensures |h| > 0 ==> r.avgTimeMs * (|h| as real) == TotalTime(h) as real
  {
    var total := |h|;
    var successful := CountSuccessful(h);
    Report(total, successful, total - successful, SuccessRate(h),
           if total == 0 then 0.0 else (TotalTime(h) as real) / (total as real),
           CountAIUsed(h))
  }

  /** The counts are additive over appended histories. */
  lemma {:induction false} CountsAppend(a: seq<HealingEvent>, b: seq<HealingEvent>)
    ensures CountSuccessful(a + b) == CountSuccessful(a) + CountSuccessful(b)
    ensures CountAIUsed(a + b) == CountAIUsed(a) + CountAIUsed(b)
    ensures TotalTime(a + b) == TotalTime(a) + TotalTime(b)
  {
    if a == [] {
      assert a + b == b;
    } else {
      assert (a + b)[1..] == a[1..] + b;
      CountsAppend(a[1..], b);
    }
  }

  /** A history every event of which failed has no successes. */
  lemma {:induction false} AllFailedCountsZero(h: seq<HealingEvent>)
    requires forall i :: 0 <= i < |h| ==> !h[i].success
    ensures CountSuccessful(h) == 0 && SuccessRate(h) == 0.0
  {
    if h != [] {
      AllFailedCountsZero(h[1..]);
    }
  }

  /** Three recorded attempts of which one succeeded give a rate of 100/3. */
  lemma OneInThree(e1: HealingEvent, e2: HealingEvent, e3: HealingEvent)
    requires e1.success && !e2.success && !e3.success
    ensures SuccessRate([e1, e2, e3]) == 100.0 / 3.0
  {
    assert [e1, e2, e3][1..] == [e2, e3];
    assert [e2, e3][1..] == [e3];
    assert [e3][1..] == [];
    assert CountSuccessful([e3]) == 0;
    assert CountSuccessful([e2, e3]) == 0;
    assert CountSuccessful([e1, e2, e3]) == 1;
    assert (1 as real) / (3 as real) * 100.0 == 100.0 / 3.0;
  }

  /** The logger's whole state as a value, and what each log operation does to it. */
  datatype LogState = LogState(history: seq<HealingEvent>, sink: seq<SinkRecord>)

  function AttemptLogged(st: LogState, e: HealingEvent): LogState {
    LogState(st.history + [e], st.sink + [SinkRecord(Info, AttemptMessage, e)])
  }

  function SuccessLogged(st: LogState, e: HealingEvent): LogState {
    LogState(st.history, st.sink + [SinkRecord(Info, SuccessMessage, e)])
  }

  function FailureLogged(st: LogState, e: HealingEvent): LogState {
    LogState(st.history, st.sink + [SinkRecord(Error, FailureMessage, e)])
  }

  /** HealingLogger: the static history and the sink it writes to. */
  class HealingLogger {
    var history: seq<HealingEvent>
    var sink: seq<SinkRecord>

    constructor ()
      ensures history == [] && sink == []
    {
      history := [];
      sink := [];
    }

    /** Appends the event to the history and writes it to the sink at info level. */
    method LogHealingAttempt(e: HealingEvent)
      modifies this
      ensures history == old(history) + [e]
      ensures sink == old(sink) + [SinkRecord(Info, AttemptMessage, e)]
    {
      sink := sink + [SinkRecord(Info, AttemptMessage, e)];
      history := history + [e];
    }

    /** Writes to the sink only; the history is unchanged. */
    method LogHealingSuccess(e: HealingEvent)
      modifies this
      ensures history == old(history)
      ensures sink == old(sink) + [SinkRecord(Info, SuccessMessage, e)]
    {
      sink := sink + [SinkRecord(Info, SuccessMessage, e)];
    }

    /** Writes to the sink at error level only; the history is unchanged. */
    method LogHealingFailure(e: HealingEvent)
      modifies this
      ensures history == old(history)
      ensures sink == old(sink) + [SinkRecord(Error, FailureMessage, e)]
    {
      sink := sink + [SinkRecord(Error, FailureMessage, e)];
    }

    /** The events in insertion order. */
    method GetHealingHistory() returns (h: seq<HealingEvent>)
      ensures h == history
    {
      h := history;
    }

    function GetSuccessRate(): (r: real)
      reads this
      ensures 0.0 <= r <= 100.0
      ensures |history| == 0 ==> r == 0.0
      ensures |history| > 0 ==> r * (|history| as real) == 100.0 * (CountSuccessful(history) as real)
    {
      SuccessRate(history)
    }

    /** Empties the history; what was written to the sink stays. */
    method ClearHistory()
      modifies this
      ensures history == [] && sink == old(sink)
    {
      history := [];
    }

    function GenerateReport(): (r: Report)
      reads this
      ensures r.total == |history| && r.successful + r.failed == r.total
      ensures r.aiUsedCount <= r.total && r.successRate == SuccessRate(history)
    {
      ReportOf(history)
    }
  }
}
