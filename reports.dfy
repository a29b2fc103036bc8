/** Per-funnel conversion reports (analytics/reports.py): two counting
    queries over `funnel_entries` and the percentage derived from them. */
module Reports {
  import opened Wrappers
  import opened Time
  import opened Db
  import opened SeqOps
  import opened Selectors

  datatype FunnelConversionReport = FunnelConversionReport(
    funnelType: string,
    periodStart: Option<Instant>,
    periodEnd: Option<Instant>,
    totalEntries: int,
    totalPurchases: int)

  /** `conversion_rate`: purchases per hundred entries, and 0 when there are
      no entries. */
  function ConversionRate(report: FunnelConversionReport): (rate: real)
    ensures report.totalEntries == 0 ==> rate == 0.0
    ensures report.totalEntries != 0 ==> rate * report.totalEntries as real == report.totalPurchases as real * 100.0
  {
    if report.totalEntries == 0 then 0.0
    else (report.totalPurchases as real / report.totalEntries as real) * 100.0
  }

  lemma ProductPositive(a: real, b: real)
    requires 0.0 < a && 0.0 < b
    ensures 0.0 < a * b
  {
  }

  /** A share of a positive whole lies between 0 and 1, and is 1 only for the
      whole itself. */
  lemma ShareBounds(part: real, whole: real, q: real)
    requires 0.0 <= part <= whole && 0.0 < whole && q * whole == part
    ensures 0.0 <= q <= 1.0
    ensures q == 1.0 <==> part == whole
  {
    if q < 0.0 {
      ProductPositive(-q, whole);
    } else if q > 1.0 {
      ProductPositive(q - 1.0, whole);
    } else if q < 1.0 {
      ProductPositive(1.0 - q, whole);
    }
  }

  lemma FractionBounds(part: real, whole: real)
    requires 0.0 <= part <= whole && 0.0 < whole
    ensures 0.0 <= part / whole <= 1.0
    ensures part / whole == 1.0 <==> part == whole
  {
    ShareBounds(part, whole, part / whole);
  }

  /** For counts that can come from the table the rate is a percentage. */
  lemma ConversionRateIsPercentage(report: FunnelConversionReport)
    requires 0 <= report.totalPurchases <= report.totalEntries
    ensures 0.0 <= ConversionRate(report) <= 100.0
    ensures ConversionRate(report) == 100.0 <==> report.totalEntries > 0 && report.totalPurchases == report.totalEntries
  {
    if report.totalEntries > 0 {
      FractionBounds(report.totalPurchases as real, report.totalEntries as real);
    }
  }

  /** `_count_funnel_entries`: the COUNT(*) of the rows of the type entered
      inside the period; 0 exactly when there is no such row. */
  function CountFunnelEntries(connection: Database, funnelType: string, start: Option<Instant>, end: Option<Instant>): (n: nat)
    reads connection
    ensures n <= |connection.funnelEntries|
    ensures n == 0 <==> forall i :: 0 <= i < |connection.funnelEntries| ==>
      !(connection.funnelEntries[i].funnelType == funnelType && InPeriod(connection.funnelEntries[i], start, end))
  {
    FilterEmpty(connection.funnelEntries, EntryFilter(funnelType, start, end));
    |EntriesOf(connection.funnelEntries, funnelType, start, end)|
  }

  /** `_count_funnel_purchases`: the same count restricted to purchased rows,
      so never more than the entry count; 0 exactly when no such row is
      purchased. */
  function CountFunnelPurchases(connection: Database, funnelType: string, start: Option<Instant>, end: Option<Instant>): (n: nat)
    reads connection
    ensures n <= CountFunnelEntries(connection, funnelType, start, end)
    ensures n == 0 <==> forall i :: 0 <= i < |connection.funnelEntries| ==>
      !(connection.funnelEntries[i].funnelType == funnelType && InPeriod(connection.funnelEntries[i], start, end) &&
        connection.funnelEntries[i].purchased)
  {
    FilterEmpty(connection.funnelEntries, PurchaseFilter(funnelType, start, end));
    PurchasesWithinEntries(connection.funnelEntries, funnelType, start, end);
    |PurchasesOf(connection.funnelEntries, funnelType, start, end)|
  }

  /** `get_funnel_conversion_report`: the report carries the requested type
      and period, every count is of rows of that type entered inside the
      period, and purchases never exceed entries. */
  function GetFunnelConversionReport(connection: Database, funnelType: string, start: Option<Instant>, end: Option<Instant>): (r: FunnelConversionReport)
    reads connection
    ensures r.funnelType == funnelType && r.periodStart == start && r.periodEnd == end
    ensures 0 <= r.totalPurchases <= r.totalEntries <= |connection.funnelEntries|
    ensures r.totalEntries == |EntriesOf(connection.funnelEntries, funnelType, start, end)|
    ensures r.totalPurchases == |PurchasesOf(connection.funnelEntries, funnelType, start, end)|
  {
    PurchasesWithinEntries(connection.funnelEntries, funnelType, start, end);
    FunnelConversionReport(funnelType, start, end,
      CountFunnelEntries(connection, funnelType, start, end),
      CountFunnelPurchases(connection, funnelType, start, end))
  }

  /** The per-type report and the grouped summary agree: a type listed in the
      summary has the same totals in both, and a type the summary omits has
      no entries in the report. */
  lemma ReportAgreesWithSummary(connection: Database, funnelType: string, start: Option<Instant>, end: Option<Instant>)
    ensures var report := GetFunnelConversionReport(connection, funnelType, start, end);
      var summary := ConversionSummary(connection.funnelEntries, start, end);
      (forall i :: 0 <= i < |summary| && summary[i].funnelType == funnelType ==>
         summary[i].totalEntries == report.totalEntries && summary[i].totalPurchased == report.totalPurchases) &&
      ((forall i :: 0 <= i < |summary| ==> summary[i].funnelType != funnelType) ==>
         report.totalEntries == 0 && report.totalPurchases == 0)
  {
    var rows := connection.funnelEntries;
    var summary := ConversionSummary(rows, start, end);
    var entries := EntriesOf(rows, funnelType, start, end);
    if (forall i :: 0 <= i < |summary| ==> summary[i].funnelType != funnelType) && entries != [] {
      var e := entries[0];
      FilterMembership(rows, EntryFilter(funnelType, start, end), e);
      PeriodTypesMeaning(rows, start, end, funnelType);
      assert false;
    }
    PurchasesWithinEntries(rows, funnelType, start, end);
  }
}

/** The all-funnels report (analytics/report_service.py): one conversion per
    row of the grouped summary. */
module ReportService {
  import opened Wrappers
  import opened Time
  import opened Db
  import opened Selectors
  import Reports

  datatype FunnelConversion = FunnelConversion(funnelType: string, totalEntries: int, totalPurchased: int)

  /** `conversion_rate`: purchases per entry, and 0 when there are no entries. */
  function ConversionRate(c: FunnelConversion): (rate: real)
    ensures c.totalEntries == 0 ==> rate == 0.0
    ensures c.totalEntries != 0 ==> rate * c.totalEntries as real == c.totalPurchased as real
  {
    if c.totalEntries == 0 then 0.0 else c.totalPurchased as real / c.totalEntries as real
  }

  /** The two reports' rates measure the same thing on different scales: this
      one is a fraction, the per-funnel one a percentage. */
  lemma RatesAgree(c: FunnelConversion, start: Option<Instant>, end: Option<Instant>)
    ensures Reports.ConversionRate(Reports.FunnelConversionReport(c.funnelType, start, end, c.totalEntries, c.totalPurchased)) ==
      ConversionRate(c) * 100.0
  {
  }

  lemma ConversionRateIsFraction(c: FunnelConversion)
    requires 0 <= c.totalPurchased <= c.totalEntries
    ensures 0.0 <= ConversionRate(c) <= 1.0
  {
    if c.totalEntries > 0 {
      Reports.FractionBounds(c.totalPurchased as real, c.totalEntries as real);
    }
  }

  /** One summary row as a conversion. */
  function ConversionOf(row: SummaryRow): FunnelConversion {
    FunnelConversion(row.funnelType, row.totalEntries, row.totalPurchased)
  }

  /** The summary rows as conversions, in order. */
  function ConversionsOf(rows: seq<SummaryRow>): (r: seq<FunnelConversion>)
    ensures |r| == |rows|
  {
    if rows == [] then [] else ConversionsOf(rows[..|rows| - 1]) + [ConversionOf(rows[|rows| - 1])]
  }

  lemma {:induction false} ConversionsOfAt(rows: seq<SummaryRow>, i: nat)
    requires i < |rows|
    ensures ConversionsOf(rows)[i] == ConversionOf(rows[i])
  {
    if i < |rows| - 1 {
      ConversionsOfAt(rows[..|rows| - 1], i);
    }
  }

  /** The conversions of the summary rows each have at least one entry and a
      rate between 0 and 1, and name distinct funnel types. */
  lemma SummaryConversions(entries: seq<FunnelEntry>, from: Option<Instant>, to: Option<Instant>, report: seq<FunnelConversion>)
    requires var rows := ConversionSummary(entries, from, to);
      |report| == |rows| && forall i :: 0 <= i < |report| ==> report[i] == ConversionOf(rows[i])
    ensures forall i :: 0 <= i < |report| ==>
      1 <= report[i].totalEntries && 0.0 <= ConversionRate(report[i]) <= 1.0
    ensures forall i, j :: 0 <= i < j < |report| ==> report[i].funnelType != report[j].funnelType
  {
    ConversionSummaryCounts(entries, from, to);
    forall i | 0 <= i < |report| ensures 1 <= report[i].totalEntries && 0.0 <= ConversionRate(report[i]) <= 1.0 {
      ConversionRateIsFraction(report[i]);
    }
    forall i, j | 0 <= i < j < |report| ensures report[i].funnelType != report[j].funnelType {
      if report[i].funnelType == report[j].funnelType {
        Text.StrLessIrreflexive(report[i].funnelType);
      }
    }
  }

  /** The loop of `generate_conversion_report`: one conversion appended per
      summary row, in order. */
  method AppendConversions(rows: seq<SummaryRow>) returns (report: seq<FunnelConversion>)
    ensures |report| == |rows| && forall i :: 0 <= i < |report| ==> report[i] == ConversionOf(rows[i])
  {
    report := [];
    for i := 0 to |rows|
      invariant report == ConversionsOf(rows[..i])
    {
      assert rows[..i + 1][..i] == rows[..i];
      report := report + [ConversionOf(rows[i])];
    }
    assert rows[..|rows|] == rows;
    forall i | 0 <= i < |report| ensures report[i] == ConversionOf(rows[i]) {
      ConversionsOfAt(rows, i);
    }
  }

  /** `generate_conversion_report`, given the open connection: the summary
      rows become conversions one by one, in order; each has at least one
      entry and a rate between 0 and 1. */
  method GenerateConversionReport(connection: Database, from: Option<Instant>, to: Option<Instant>)
    returns (report: seq<FunnelConversion>)
    ensures var rows := ConversionSummary(connection.funnelEntries, from, to);
      |report| == |rows| && forall i :: 0 <= i < |report| ==> report[i] == ConversionOf(rows[i])
    ensures forall i :: 0 <= i < |report| ==>
      1 <= report[i].totalEntries && 0.0 <= ConversionRate(report[i]) <= 1.0
    ensures forall i, j :: 0 <= i < j < |report| ==> report[i].funnelType != report[j].funnelType
  {
    var rows := GetFunnelConversionSummary(connection, from, to);
    report := AppendConversions(rows);
    SummaryConversions(connection.funnelEntries, from, to, report);
  }
}

/** The reporting window of the report command (cli/report_job.py). */
module ReportJob {
  import opened Wrappers
  import opened Time
  import opened Db
  import opened Selectors

  /** `build_period`, with `utcnow()` passed in as `now`: no bound at all for a
      non-positive day count, otherwise the `days` days that end at `now`. */
  function BuildPeriod(days: int, now: Instant): (p: (Option<Instant>, Option<Instant>))
    ensures days <= 0 <==> p.0.None?
    ensures days <= 0 <==> p.1.None?
    ensures days > 0 ==> p.1 == Some(now) && p.0 == Some(now - days * MicrosPerDay)
  {
    if days <= 0 then (None, None) else (Some(now - days * MicrosPerDay), Some(now))
  }

  /** With a positive day count an entry falls in the window exactly when it
      entered at most `days` days before `now` and strictly before `now`;
      otherwise every entry does. */
  lemma BuildPeriodWindow(days: int, now: Instant, e: FunnelEntry)
    ensures var (start, end) := BuildPeriod(days, now);
      (days > 0 ==> (InPeriod(e, start, end) <==> now - days * MicrosPerDay <= e.enteredAt < now)) &&
      (days <= 0 ==> InPeriod(e, start, end))
  {
  }
}
