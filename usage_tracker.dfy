/**
  API usage accounting: the price table, the cost of one call, the
  append-only ledger (`api_usage.jsonl`, one JSON object per line) and the
  windowed totals over it that the status report shows.

  Ledger lines are modelled after parsing: a line that is not JSON is
  `Malformed`, any other line is a `Record` whose keys may be missing.
  Timestamps are whole seconds; `now` is a parameter. Costs are exact reals
  (the source's rounding to 6 and 4 decimals is not modelled).
 */
module UsageTracker {
  import opened Wrappers

  type Instant = int

  const SECONDS_PER_DAY: int := 86400
  const MILLION: real := 1000000.0

  /** The model whose prices apply to a model missing from the table. */
  const FALLBACK_MODEL: string := "claude-sonnet-4-20250514"

  /** Dollars per million input and output tokens. */
  datatype Price = Price(input: real, output: real)

  const PRICING: map<string, Price> := map[
    "claude-sonnet-4-20250514" := Price(3.00, 15.00),
    "claude-sonnet-4-5-20250929" := Price(3.00, 15.00),
    "claude-opus-4-5-20251101" := Price(15.00, 75.00),
    "claude-3-5-haiku-20241022" := Price(0.80, 4.00),
    "claude-3-haiku-20240307" := Price(0.25, 1.25)
  ]

  /** `PRICING.get(model, PRICING[FALLBACK_MODEL])`. */
  function PricingFor(model: string): (p: Price)
    ensures model in PRICING ==> p == PRICING[model]
    ensures model !in PRICING ==> p == Price(3.00, 15.00)
  {
    if model in PRICING then PRICING[model] else PRICING[FALLBACK_MODEL]
  }

  /** What `calculate_cost` returns. */
  datatype UsageData = UsageData(inputTokens: int, outputTokens: int, inputCost: real,
                                 outputCost: real, totalCost: real, model: string, timestamp: Instant)

  /** `calculate_cost`: the token counts are passed through, each cost is the
      token count times the model's (or the fallback's) price per million,
      and the total is the sum of the two costs. */
  function CalculateCost(model: string, inputTokens: int, outputTokens: int, now: Instant): (d: UsageData)
    ensures d.inputTokens == inputTokens && d.outputTokens == outputTokens
    ensures d.model == model && d.timestamp == now
    ensures d.inputCost * MILLION == inputTokens as real * PricingFor(model).input
    ensures d.outputCost * MILLION == outputTokens as real * PricingFor(model).output
    ensures d.totalCost == d.inputCost + d.outputCost
  {
    var pricing := PricingFor(model);
    var inputCost := (inputTokens as real / MILLION) * pricing.input;
    var outputCost := (outputTokens as real / MILLION) * pricing.output;
    UsageData(inputTokens, outputTokens, inputCost, outputCost, inputCost + outputCost, model, now)
  }

  /** One parsed ledger object. A key that is absent is `None`; so is a
      timestamp that does not parse as a time. */
  datatype UsageRecord = UsageRecord(
    timestamp: Option<Instant>,
    inputTokens: Option<int>,
    outputTokens: Option<int>,
    totalCost: Option<real>,
    model: Option<string>,
    requestType: Option<string>,
    userMessagePreview: Option<string>,
    userId: Option<string>)

  datatype LedgerLine = Malformed(raw: string) | Record(entry: UsageRecord)

  /** The object written for one call: the cost data plus the request type
      (and, for direct replies, a preview of the user's message). */
  function LogRecord(d: UsageData, requestType: string, preview: Option<string>): UsageRecord
  {
    UsageRecord(Some(d.timestamp), Some(d.inputTokens), Some(d.outputTokens), Some(d.totalCost),
                Some(d.model), Some(requestType), preview, None)
  }

  /** The four running sums of `get_usage_stats`. */
  datatype Totals = Totals(inputTokens: int, outputTokens: int, cost: real, requests: nat)

  const ZERO: Totals := Totals(0, 0, 0.0, 0)

  /** What `get_usage_stats` returns. */
  datatype UsageStats = UsageStats(totalCost: real, totalTokens: int, inputTokens: int,
                                   outputTokens: int, requestCount: nat)

  function Cutoff(now: Instant, days: int): Instant
  {
    now - days * SECONDS_PER_DAY
  }

  /** A line enters the totals when it parses, has all four keys, and its
      time is not before the cutoff. */
  predicate Counted(line: LedgerLine, cutoff: Instant)
  {
    && line.Record?
    && line.entry.timestamp.Some?
    && line.entry.inputTokens.Some?
    && line.entry.outputTokens.Some?
    && line.entry.totalCost.Some?
    && line.entry.timestamp.value >= cutoff
  }

  /** One line's effect on the sums: a counted line adds its tokens, its
      cost and one request; every other line adds nothing. */
  function Step(acc: Totals, line: LedgerLine, cutoff: Instant): Totals
  {
    if Counted(line, cutoff) then
      Totals(acc.inputTokens + line.entry.inputTokens.value,
             acc.outputTokens + line.entry.outputTokens.value,
             acc.cost + line.entry.totalCost.value,
             acc.requests + 1)
    else acc
  }

  /** The totals over a ledger, folding `Step` from the first line on. */
  function Tally(lines: seq<LedgerLine>, cutoff: Instant): Totals
  {
    if lines == [] then ZERO
    else Step(Tally(lines[..|lines| - 1], cutoff), lines[|lines| - 1], cutoff)
  }

  function Plus(a: Totals, b: Totals): Totals
  {
    Totals(a.inputTokens + b.inputTokens, a.outputTokens + b.outputTokens, a.cost + b.cost, a.requests + b.requests)
  }

  /** The number of counted lines. */
  function CountedLines(lines: seq<LedgerLine>, cutoff: Instant): nat
  {
    |set i | 0 <= i < |lines| && Counted(lines[i], cutoff)|
  }

  /** The totals of a concatenation are the sums of the totals of its parts,
      so the fold is independent of how the ledger is split. */
  lemma {:induction false} TallyAppend(a: seq<LedgerLine>, b: seq<LedgerLine>, cutoff: Instant)
    ensures Tally(a + b, cutoff) == Plus(Tally(a, cutoff), Tally(b, cutoff))
    decreases |b|
  {
    if b == [] {
      assert a + b == a;
    } else {
      var b', last := b[..|b| - 1], b[|b| - 1];
      var ab := a + b;
      assert ab[..|ab| - 1] == a + b' && ab[|ab| - 1] == last;
      TallyAppend(a, b', cutoff);
      var x, y := Tally(a, cutoff), Tally(b', cutoff);
      StepPlus(x, y, last, cutoff);
    }
  }

  lemma StepPlus(x: Totals, y: Totals, line: LedgerLine, cutoff: Instant)
    ensures Step(Plus(x, y), line, cutoff) == Plus(x, Step(y, line, cutoff))
  {
  }

  /** `request_count` is the number of counted lines. */
  lemma {:induction false} TallyCountsRequests(lines: seq<LedgerLine>, cutoff: Instant)
    ensures Tally(lines, cutoff).requests == CountedLines(lines, cutoff)
    decreases |lines|
  {
    if lines != [] {
      var init := lines[..|lines| - 1];
      var k := |lines| - 1;
      TallyCountsRequests(init, cutoff);
      var before := set i | 0 <= i < |init| && Counted(init[i], cutoff);
      var after := set i | 0 <= i < |lines| && Counted(lines[i], cutoff);
      assert after == if Counted(lines[k], cutoff) then before + {k} else before;
    }
  }

  /** Lines that are not counted (malformed, incomplete or too old) add
      nothing to any total. */
  lemma UncountedAddNothing(lines: seq<LedgerLine>, line: LedgerLine, cutoff: Instant)
    requires !Counted(line, cutoff)
    ensures Tally(lines + [line], cutoff) == Tally(lines, cutoff)
    ensures Tally([line] + lines, cutoff) == Tally(lines, cutoff)
  {
    TallyAppend([line], lines, cutoff);
    assert [line][..0] == [];
  }

  /** A record logged at time `d.timestamp` is counted by every window whose
      cutoff is not later, and adds exactly its own tokens and cost. */
  lemma LoggedRecordCounts(lines: seq<LedgerLine>, d: UsageData, requestType: string,
                           preview: Option<string>, cutoff: Instant)
    requires cutoff <= d.timestamp
    ensures Tally(lines + [Record(LogRecord(d, requestType, preview))], cutoff) ==
      Plus(Tally(lines, cutoff), Totals(d.inputTokens, d.outputTokens, d.totalCost, 1))
  {
    var line := Record(LogRecord(d, requestType, preview));
    assert (lines + [line])[..|lines|] == lines;
  }

  predicate NonNegative(lines: seq<LedgerLine>)
  {
    forall i :: 0 <= i < |lines| && lines[i].Record? ==>
      (lines[i].entry.inputTokens.Some? ==> lines[i].entry.inputTokens.value >= 0) &&
      (lines[i].entry.outputTokens.Some? ==> lines[i].entry.outputTokens.value >= 0) &&
      (lines[i].entry.totalCost.Some? ==> lines[i].entry.totalCost.value >= 0.0)
  }

  predicate AtMost(a: Totals, b: Totals)
  {
    a.inputTokens <= b.inputTokens && a.outputTokens <= b.outputTokens &&
    a.cost <= b.cost && a.requests <= b.requests
  }

  /** A wider window (an earlier cutoff) never counts fewer requests, and,
      when no entry is negative, never fewer tokens or less cost. */
  lemma {:induction false} WiderWindowCountsMore(lines: seq<LedgerLine>, early: Instant, late: Instant)
    requires early <= late
    ensures Tally(lines, late).requests <= Tally(lines, early).requests
    ensures NonNegative(lines) ==> AtMost(Tally(lines, late), Tally(lines, early))
    decreases |lines|
  {
    if lines != [] {
      var init := lines[..|lines| - 1];
      assert NonNegative(lines) ==> NonNegative(init) by {
        if NonNegative(lines) {
          forall i | 0 <= i < |init| && init[i].Record?
            ensures (init[i].entry.inputTokens.Some? ==> init[i].entry.inputTokens.value >= 0) &&
                    (init[i].entry.outputTokens.Some? ==> init[i].entry.outputTokens.value >= 0) &&
                    (init[i].entry.totalCost.Some? ==> init[i].entry.totalCost.value >= 0.0)
          {
            assert init[i] == lines[i];
          }
        }
      }
      WiderWindowCountsMore(init, early, late);
    }
  }

  /** `get_usage_stats(days)` as a value: all zeros without a ledger file,
      otherwise the totals of the window, with `total_tokens` their sum. */
  function StatsFor(file: Option<seq<LedgerLine>>, now: Instant, days: int): (s: UsageStats)
    ensures file.None? ==> s == UsageStats(0.0, 0, 0, 0, 0)
    ensures s.totalTokens == s.inputTokens + s.outputTokens
    ensures file.Some? ==> s.requestCount == CountedLines(file.value, Cutoff(now, days))
  {
    if file.None? then UsageStats(0.0, 0, 0, 0, 0)
    else
      var t := Tally(file.value, Cutoff(now, days));
      TallyCountsRequests(file.value, Cutoff(now, days));
      UsageStats(t.cost, t.inputTokens + t.outputTokens, t.inputTokens, t.outputTokens, t.requests)
  }

  /** The cost part of the status report: either the single line "No API
      usage recorded yet" or the three windows and today's token use. */
  datatype CostSection = NoUsageRecorded | Windows(today: UsageStats, week: UsageStats, month: UsageStats)

  datatype StatusReport = StatusReport(model: string, costs: CostSection)

  const NO_USAGE_TEXT: string := "No API usage recorded yet"

  /** `format_usage_report`: the windows are the last 1, 7 and 30 days; the
      no-usage branch is taken exactly when today has no request. */
  function FormatUsageReport(file: Option<seq<LedgerLine>>, now: Instant, model: string): (r: StatusReport)
    ensures r.model == model
    ensures r.costs.NoUsageRecorded? <==> StatsFor(file, now, 1).requestCount == 0
    ensures r.costs.Windows? ==>
      r.costs.today == StatsFor(file, now, 1) &&
      r.costs.week == StatsFor(file, now, 7) &&
      r.costs.month == StatsFor(file, now, 30)
  {
    var today := StatsFor(file, now, 1);
    var week := StatsFor(file, now, 7);
    var month := StatsFor(file, now, 30);
    StatusReport(model, if today.requestCount == 0 then NoUsageRecorded else Windows(today, week, month))
  }

  /** The three windows of a report are nested: the week counts at least as
      many requests as today, the month at least as many as the week. */
  lemma ReportWindowsNested(file: Option<seq<LedgerLine>>, now: Instant, model: string)
    ensures var r := FormatUsageReport(file, now, model);
      r.costs.Windows? ==>
        0 < r.costs.today.requestCount <= r.costs.week.requestCount <= r.costs.month.requestCount
  {
    if file.Some? {
      WiderWindowCountsMore(file.value, Cutoff(now, 7), Cutoff(now, 1));
      WiderWindowCountsMore(file.value, Cutoff(now, 30), Cutoff(now, 7));
    }
  }

  /** The ledger file, appended to by every API call. */
  class UsageLedger {
    var file: Option<seq<LedgerLine>>

    constructor (onDisk: Option<seq<LedgerLine>>)
      ensures file == onDisk
    {
      file := onDisk;
    }

    function Lines(): seq<LedgerLine>
      reads this
    {
      if file.Some? then file.value else []
    }

    /** `log_api_usage`: exactly one line is appended (the file is created if
        absent); the earlier lines are unchanged. */
    method LogApiUsage(usage: UsageRecord)
      modifies this
      ensures file == Some(old(Lines()) + [Record(usage)])
    {
      file := Some(Lines() + [Record(usage)]);
    }

    /** `get_usage_stats`: one pass over the ledger with four running sums,
        skipping lines that are malformed, incomplete or older than the
        cutoff. */
    method GetUsageStats(days: int, now: Instant) returns (stats: UsageStats)
      ensures file.None? ==> stats == UsageStats(0.0, 0, 0, 0, 0)
      ensures stats.totalTokens == stats.inputTokens + stats.outputTokens
      ensures file.Some? ==>
        var t := Tally(file.value, Cutoff(now, days));
        stats.requestCount == t.requests && stats.inputTokens == t.inputTokens &&
        stats.outputTokens == t.outputTokens && stats.totalCost == t.cost
      ensures stats == StatsFor(file, now, days)
    {
      if file.None? {
        return UsageStats(0.0, 0, 0, 0, 0);
      }
      var lines := file.value;
      var cutoff := Cutoff(now, days);
      var totalInputTokens, totalOutputTokens, totalCost, requestCount := 0, 0, 0.0, 0;
      for i := 0 to |lines|
        invariant Totals(totalInputTokens, totalOutputTokens, totalCost, requestCount) == Tally(lines[..i], cutoff)
      {
        assert lines[..i + 1][..i] == lines[..i];
        match lines[i] {
          case Malformed(_) =>
          case Record(entry) =>
            if entry.timestamp.None? || entry.inputTokens.None? ||
               entry.outputTokens.None? || entry.totalCost.None? {
              continue;
            }
            if entry.timestamp.value < cutoff {
              continue;
            }
            totalInputTokens := totalInputTokens + entry.inputTokens.value;
            totalOutputTokens := totalOutputTokens + entry.outputTokens.value;
            totalCost := totalCost + entry.totalCost.value;
            requestCount := requestCount + 1;
        }
      }
      assert lines[..|lines|] == lines;
      stats := UsageStats(totalCost, totalInputTokens + totalOutputTokens, totalInputTokens,
                          totalOutputTokens, requestCount);
    }
  }

  /** The loop of `get_usage_stats` as the source writes it: the keys are
      read one at a time while the sums are updated, so an entry without
      `output_tokens` has already added its input tokens, and one without
      `total_cost` its tokens, when the missing key aborts it uncounted. */
  function TallyAsWritten(lines: seq<LedgerLine>, cutoff: Instant): Totals
  {
    if lines == [] then ZERO
    else
      var acc := TallyAsWritten(lines[..|lines| - 1], cutoff);
      match lines[|lines| - 1]
      case Malformed(_) => acc
      case Record(e) =>
        if e.timestamp.None? || e.timestamp.value < cutoff || e.inputTokens.None? then acc
        else if e.outputTokens.None? then acc.(inputTokens := acc.inputTokens + e.inputTokens.value)
        else if e.totalCost.None? then
          acc.(inputTokens := acc.inputTokens + e.inputTokens.value,
               outputTokens := acc.outputTokens + e.outputTokens.value)
        else Totals(acc.inputTokens + e.inputTokens.value, acc.outputTokens + e.outputTokens.value,
                    acc.cost + e.totalCost.value, acc.requests + 1)
  }

  /** A ledger whose only entry, logged now, lacks `output_tokens`: the
      loop as written reports its 100 input tokens but no request. */
  lemma PartialEntryLeaksTokens(now: Instant)
    ensures var line := Record(UsageRecord(Some(now), Some(100), None, None, None, None, None, None));
      TallyAsWritten([line], Cutoff(now, 1)) == Totals(100, 0, 0.0, 0) &&
      Tally([line], Cutoff(now, 1)) == ZERO
  {
    var line := Record(UsageRecord(Some(now), Some(100), None, None, None, None, None, None));
    assert [line][..0] == [];
  }

  /** On a ledger with no incomplete entries the loop as written and the
      corrected fold agree. */
  lemma {:induction false} AsWrittenAgreesWhenComplete(lines: seq<LedgerLine>, cutoff: Instant)
    requires forall i :: 0 <= i < |lines| && lines[i].Record? && lines[i].entry.inputTokens.Some? ==>
      lines[i].entry.outputTokens.Some? && lines[i].entry.totalCost.Some?
    ensures TallyAsWritten(lines, cutoff) == Tally(lines, cutoff)
    decreases |lines|
  {
    if lines != [] {
      var init := lines[..|lines| - 1];
      forall i | 0 <= i < |init| && init[i].Record? && init[i].entry.inputTokens.Some?
        ensures init[i].entry.outputTokens.Some? && init[i].entry.totalCost.Some?
      {
        assert init[i] == lines[i];
      }
      AsWrittenAgreesWhenComplete(init, cutoff);
    }
  }
}
