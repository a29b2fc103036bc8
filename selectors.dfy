/** The funnel type names shared by the selectors, the ledger and the
    orchestrators. */
module Funnels {
  const Language: string := "language"
  const NonLanguage: string := "non_language"
}

/** The read-only queries of db/selectors.py, evaluated over the in-memory
    tables of a `Database`. */
module Selectors {
  import opened Wrappers
  import opened Time
  import opened Text
  import opened Db
  import opened SeqOps
  import Funnels

  const DefaultCandidateLookbackDays: nat := 30

  /** A `(user_id, email)` row of the candidate queries. */
  datatype Candidate = Candidate(userId: int, email: string)

  /** Some row of the table already puts `email` in the language funnel. */
  predicate InLanguageFunnel(entries: seq<FunnelEntry>, email: string) {
    exists i | 0 <= i < |entries| :: entries[i].email == email && entries[i].funnelType == Funnels.Language
  }

  /** The WHERE clause of the language-candidate query, with the anti-join on
      `funnel_entries` written as "no entry in the language funnel". */
  predicate IsLanguageCandidate(u: TestUser, entries: seq<FunnelEntry>, now: Instant) {
    u.email.Some? && u.email.value != [] &&
    u.completedAt >= now - DefaultCandidateLookbackDays * MicrosPerDay &&
    !InLanguageFunnel(entries, u.email.value)
  }

  function CandidateFilter(entries: seq<FunnelEntry>, now: Instant): TestUser -> bool {
    (u: TestUser) => IsLanguageCandidate(u, entries, now)
  }

  /** `ORDER BY Datep DESC` as an ascending key. */
  const MostRecentFirst: TestUser -> int := (u: TestUser) => -u.completedAt

  /** The selected users before projection, most recent first. */
  function LanguageCandidateUsers(users: seq<TestUser>, entries: seq<FunnelEntry>, now: Instant, limit: nat): (r: seq<TestUser>)
    ensures |r| <= limit
    ensures forall i :: 0 <= i < |r| ==> IsLanguageCandidate(r[i], entries, now)
    ensures forall i, j :: 0 <= i < j < |r| ==> r[i].completedAt >= r[j].completedAt
    ensures multiset(r) <= multiset(users)
  {
    var r := SelectTop(users, CandidateFilter(entries, now), MostRecentFirst, limit);
    assert forall i, j :: 0 <= i < j < |r| ==> -r[i].completedAt <= -r[j].completedAt;
    r
  }

  /** Eligible users are dropped only once the limit is reached, and only in
      favour of users who completed their test no earlier. */
  lemma LanguageCandidatesAreMostRecent(users: seq<TestUser>, entries: seq<FunnelEntry>, now: Instant, limit: nat, u: TestUser)
    requires u in users && IsLanguageCandidate(u, entries, now)
    requires u !in LanguageCandidateUsers(users, entries, now, limit)
    ensures |LanguageCandidateUsers(users, entries, now, limit)| == limit
    ensures forall x :: x in LanguageCandidateUsers(users, entries, now, limit) ==> x.completedAt >= u.completedAt
  {
    SelectTopMissing(users, CandidateFilter(entries, now), MostRecentFirst, limit, u);
  }

  function ToCandidates(us: seq<TestUser>): (r: seq<Candidate>)
    requires forall i :: 0 <= i < |us| ==> us[i].email.Some?
    ensures |r| == |us|
    ensures forall i :: 0 <= i < |r| ==> r[i] == Candidate(us[i].userId, us[i].email.value)
  {
    seq(|us|, i requires 0 <= i < |us| => Candidate(us[i].userId, us[i].email.value))
  }

  /** `get_language_test_candidates`. */
  function GetLanguageTestCandidates(connection: Database, limit: nat): (r: seq<Candidate>)
    reads connection
    ensures |r| <= limit
    ensures forall i :: 0 <= i < |r| ==>
      r[i].email != [] && !InLanguageFunnel(connection.funnelEntries, r[i].email)
  {
    ToCandidates(LanguageCandidateUsers(connection.testUsers, connection.funnelEntries, connection.clock, limit))
  }

  /** `get_non_language_test_candidates`: a placeholder with no candidates,
      whatever the limit. */
  function GetNonLanguageTestCandidates(connection: Database, limit: int): (r: seq<Candidate>)
    ensures |r| == 0
  {
    []
  }

  /** An `(email, funnel_type, user_id, test_id)` row of the pending query. */
  datatype PendingEntry = PendingEntry(email: string, funnelType: string, userId: Option<int>, testId: Option<int>)

  const Unpurchased: FunnelEntry -> bool := (e: FunnelEntry) => !e.purchased
  const EntryTime: FunnelEntry -> int := (e: FunnelEntry) => e.enteredAt

  /** The selected rows before projection, oldest first. */
  function PendingRows(rows: seq<FunnelEntry>, maxRows: nat): (r: seq<FunnelEntry>)
    ensures |r| == Min(maxRows, |Filter(rows, Unpurchased)|)
    ensures forall i :: 0 <= i < |r| ==> !r[i].purchased
    ensures forall i, j :: 0 <= i < j < |r| ==> r[i].enteredAt <= r[j].enteredAt
    ensures multiset(r) <= multiset(rows)
  {
    SelectTop(rows, Unpurchased, EntryTime, maxRows)
  }

  /** An unpurchased row is left out only when the batch is full of rows that
      entered no later. */
  lemma PendingRowsAreOldest(rows: seq<FunnelEntry>, maxRows: nat, e: FunnelEntry)
    requires e in rows && !e.purchased && e !in PendingRows(rows, maxRows)
    ensures |PendingRows(rows, maxRows)| == maxRows
    ensures forall x :: x in PendingRows(rows, maxRows) ==> x.enteredAt <= e.enteredAt
  {
    SelectTopMissing(rows, Unpurchased, EntryTime, maxRows, e);
  }

  function ToPending(e: FunnelEntry): PendingEntry {
    PendingEntry(e.email, e.funnelType, e.userId, e.testId)
  }

  /** Every selected row is an unpurchased row of the table. */
  lemma PendingRowsDrawn(table: seq<FunnelEntry>, maxRows: nat)
    ensures var rows := PendingRows(table, maxRows);
      forall i :: 0 <= i < |rows| ==>
        exists k :: 0 <= k < |table| && !table[k].purchased && ToPending(table[k]) == ToPending(rows[i])
  {
    var rows := PendingRows(table, maxRows);
    forall i | 0 <= i < |rows|
      ensures exists k :: 0 <= k < |table| && !table[k].purchased && ToPending(table[k]) == ToPending(rows[i])
    {
      assert rows[i] in multiset(table);
    }
  }

  /** `get_pending_funnel_entries`. */
  function GetPendingFunnelEntries(connection: Database, maxRows: nat): (r: seq<PendingEntry>)
    reads connection
    ensures |r| <= maxRows
    ensures forall i :: 0 <= i < |r| ==>
      exists k :: 0 <= k < |connection.funnelEntries| && !connection.funnelEntries[k].purchased &&
        ToPending(connection.funnelEntries[k]) == r[i]
  {
    var rows := PendingRows(connection.funnelEntries, maxRows);
    PendingRowsDrawn(connection.funnelEntries, maxRows);
    seq(|rows|, i requires 0 <= i < |rows| => ToPending(rows[i]))
  }

  /** The test type a funnel type maps to: 1 for language, 2 for non-language;
      any other funnel type matches no test. */
  function TestTypeFor(funnelType: string): Option<int> {
    if funnelType == Funnels.Language then Some(1)
    else if funnelType == Funnels.NonLanguage then Some(2)
    else None
  }

  const PaidStatus: int := 2

  /** The WHERE clause of the purchase lookup. */
  predicate Qualifies(p: Payment, email: string, funnelType: string) {
    p.email == email && p.status == PaidStatus && p.paidAt.Some? && TestTypeFor(funnelType) == Some(p.testType)
  }

  function PaidAtKey(p: Payment): int {
    if p.paidAt.Some? then p.paidAt.value else 0
  }

  /** A `(payment_id, payment_datetime)` row. */
  datatype Purchase = Purchase(paymentId: int, paidAt: Instant)

  /** `get_certificate_purchase_for_entry`: the earliest paid certificate of the
      entry's email for the funnel's test type, if any. The user id and test id
      take no part in the match. */
  function CertificatePurchaseForEntry(payments: seq<Payment>, email: string, funnelType: string, userId: Option<int>, testId: Option<int>): (r: Option<Purchase>)
    ensures r.None? <==> forall p :: p in payments ==> !Qualifies(p, email, funnelType)
    ensures r.Some? ==>
      exists p :: p in payments && Qualifies(p, email, funnelType) && r.value == Purchase(p.id, p.paidAt.value)
    ensures r.Some? ==> forall p :: p in payments && Qualifies(p, email, funnelType) ==> r.value.paidAt <= p.paidAt.value
  {
    var q := (p: Payment) => Qualifies(p, email, funnelType);
    var first := SelectTop(payments, q, PaidAtKey, 1);
    SelectFirst(payments, q, PaidAtKey);
    if first == [] then None
    else
      var p := first[0];
      Some(Purchase(p.id, p.paidAt.value))
  }

  /** A funnel type other than the two known ones never finds a purchase. */
  lemma UnknownFunnelTypeHasNoPurchase(payments: seq<Payment>, email: string, funnelType: string, userId: Option<int>, testId: Option<int>)
    requires funnelType != Funnels.Language && funnelType != Funnels.NonLanguage
    ensures CertificatePurchaseForEntry(payments, email, funnelType, userId, testId).None?
  {
  }

  /** The reporting window: `entered_at >= from` when a start is given and
      `entered_at < to` when an end is given. */
  predicate InPeriod(e: FunnelEntry, from: Option<Instant>, to: Option<Instant>) {
    (from.None? || e.enteredAt >= from.value) && (to.None? || e.enteredAt < to.value)
  }

  function EntryFilter(funnelType: string, from: Option<Instant>, to: Option<Instant>): FunnelEntry -> bool {
    (e: FunnelEntry) => e.funnelType == funnelType && InPeriod(e, from, to)
  }

  function PurchaseFilter(funnelType: string, from: Option<Instant>, to: Option<Instant>): FunnelEntry -> bool {
    (e: FunnelEntry) => e.funnelType == funnelType && InPeriod(e, from, to) && e.purchased
  }

  function PeriodFilter(from: Option<Instant>, to: Option<Instant>): FunnelEntry -> bool {
    (e: FunnelEntry) => InPeriod(e, from, to)
  }

  /** The rows a per-type entry count counts. */
  function EntriesOf(rows: seq<FunnelEntry>, funnelType: string, from: Option<Instant>, to: Option<Instant>): seq<FunnelEntry> {
    Filter(rows, EntryFilter(funnelType, from, to))
  }

  /** The rows a per-type purchase count counts. */
  function PurchasesOf(rows: seq<FunnelEntry>, funnelType: string, from: Option<Instant>, to: Option<Instant>): seq<FunnelEntry> {
    Filter(rows, PurchaseFilter(funnelType, from, to))
  }

  /** A purchase count never exceeds the entry count it is drawn from. */
  lemma PurchasesWithinEntries(rows: seq<FunnelEntry>, funnelType: string, from: Option<Instant>, to: Option<Instant>)
    ensures multiset(PurchasesOf(rows, funnelType, from, to)) <= multiset(EntriesOf(rows, funnelType, from, to))
    ensures |PurchasesOf(rows, funnelType, from, to)| <= |EntriesOf(rows, funnelType, from, to)|
  {
    FilterStronger(rows, PurchaseFilter(funnelType, from, to), EntryFilter(funnelType, from, to));
  }

  /** The strictly increasing lists of funnel types. */
  predicate StrictlyAscending(s: seq<string>) {
    forall i, j :: 0 <= i < j < |s| ==> StrLess(s[i], s[j])
  }

  /** Adds `t` to an ascending list of distinct types, keeping it so. */
  function InsertType(t: string, s: seq<string>): (r: seq<string>)
    requires StrictlyAscending(s)
    ensures StrictlyAscending(r)
    ensures forall x :: x in r <==> x in s || x == t
  {
    if s == [] then [t]
    else if t == s[0] then s
    else if StrLess(t, s[0]) then
      forall j | 0 <= j < |s| ensures StrLess(t, s[j]) {
        if j > 0 { StrLessTransitive(t, s[0], s[j]); }
      }
      [t] + s
    else
      StrLessTotal(t, s[0]);
      var rest := InsertType(t, s[1..]);
      assert s == [s[0]] + s[1..];
      forall j | 0 <= j < |rest| ensures StrLess(s[0], rest[j]) {
        assert rest[j] in rest;
      }
      [s[0]] + rest
  }

  /** The funnel types occurring in `rows`. */
  function TypesOf(rows: seq<FunnelEntry>): set<string> {
    set e | e in rows :: e.funnelType
  }

  /** The groups of `GROUP BY funnel_type ORDER BY funnel_type`. */
  function GroupTypes(rows: seq<FunnelEntry>): (r: seq<string>)
    ensures StrictlyAscending(r)
    ensures forall x :: x in r <==> x in TypesOf(rows)
  {
    if rows == [] then []
    else
      var init := rows[..|rows| - 1];
      assert rows == init + [rows[|rows| - 1]];
      assert TypesOf(rows) == TypesOf(init) + {rows[|rows| - 1].funnelType};
      InsertType(rows[|rows| - 1].funnelType, GroupTypes(init))
  }

  /** The rows inside the reporting window. */
  function PeriodRows(rows: seq<FunnelEntry>, from: Option<Instant>, to: Option<Instant>): seq<FunnelEntry> {
    Filter(rows, PeriodFilter(from, to))
  }

  /** A type occurs in the window exactly when some row of that type lies in it. */
  lemma PeriodTypesMeaning(rows: seq<FunnelEntry>, from: Option<Instant>, to: Option<Instant>, t: string)
    ensures t in TypesOf(PeriodRows(rows, from, to)) <==> exists e :: e in rows && e.funnelType == t && InPeriod(e, from, to)
  {
    if t in TypesOf(PeriodRows(rows, from, to)) {
      var e :| e in PeriodRows(rows, from, to) && e.funnelType == t;
      FilterMembership(rows, PeriodFilter(from, to), e);
    }
    if exists e :: e in rows && e.funnelType == t && InPeriod(e, from, to) {
      var e :| e in rows && e.funnelType == t && InPeriod(e, from, to);
      FilterMembership(rows, PeriodFilter(from, to), e);
    }
  }

  /** A `(funnel_type, total_entries, total_purchased)` row of the summary. */
  datatype SummaryRow = SummaryRow(funnelType: string, totalEntries: nat, totalPurchased: nat)

  function SummaryTypes(r: seq<SummaryRow>): set<string> {
    set row | row in r :: row.funnelType
  }

  function RowFor(rows: seq<FunnelEntry>, t: string, from: Option<Instant>, to: Option<Instant>): SummaryRow {
    SummaryRow(t, |EntriesOf(rows, t, from, to)|, |PurchasesOf(rows, t, from, to)|)
  }

  /** What the summary query returns: one row per funnel type present in the
      window, in ascending order of type, with that type's counts. */
  function ConversionSummary(rows: seq<FunnelEntry>, from: Option<Instant>, to: Option<Instant>): (r: seq<SummaryRow>)
    ensures forall i, j :: 0 <= i < j < |r| ==> StrLess(r[i].funnelType, r[j].funnelType)
    ensures SummaryTypes(r) == TypesOf(PeriodRows(rows, from, to))
    ensures forall i :: 0 <= i < |r| ==>
      r[i].totalEntries == |EntriesOf(rows, r[i].funnelType, from, to)| &&
      r[i].totalPurchased == |PurchasesOf(rows, r[i].funnelType, from, to)|
  {
    var types := GroupTypes(PeriodRows(rows, from, to));
    var r := seq(|types|, i requires 0 <= i < |types| => RowFor(rows, types[i], from, to));
    SummaryTypesOfRows(r, types, TypesOf(PeriodRows(rows, from, to)));
    r
  }

  lemma SummaryTypesOfRows(r: seq<SummaryRow>, types: seq<string>, expected: set<string>)
    requires |r| == |types| && forall i :: 0 <= i < |r| ==> r[i].funnelType == types[i]
    requires forall x :: x in types <==> x in expected
    ensures SummaryTypes(r) == expected
  {
    forall t ensures t in SummaryTypes(r) <==> t in expected {
      if t in expected {
        var i :| 0 <= i < |types| && types[i] == t;
        assert r[i] in r;
      }
      if t in SummaryTypes(r) {
        var row :| row in r && row.funnelType == t;
        var i :| 0 <= i < |r| && r[i] == row;
      }
    }
  }

  /** Every summary row counts at least one entry and no more purchases than
      entries, and a window without rows gives no summary rows. */
  lemma ConversionSummaryCounts(rows: seq<FunnelEntry>, from: Option<Instant>, to: Option<Instant>)
    ensures var r := ConversionSummary(rows, from, to);
      (forall i :: 0 <= i < |r| ==> 1 <= r[i].totalEntries && r[i].totalPurchased <= r[i].totalEntries) &&
      ((forall e :: e in rows ==> !InPeriod(e, from, to)) ==> r == [])
  {
    var r := ConversionSummary(rows, from, to);
    forall i | 0 <= i < |r| ensures 1 <= r[i].totalEntries && r[i].totalPurchased <= r[i].totalEntries {
      var t := r[i].funnelType;
      assert t in SummaryTypes(r) by { assert r[i] in r; }
      PeriodTypesMeaning(rows, from, to, t);
      var e :| e in rows && e.funnelType == t && InPeriod(e, from, to);
      FilterMembership(rows, EntryFilter(t, from, to), e);
      PurchasesWithinEntries(rows, t, from, to);
    }
    if r != [] {
      assert r[0].funnelType in SummaryTypes(r) by { assert r[0] in r; }
      PeriodTypesMeaning(rows, from, to, r[0].funnelType);
    }
  }

  /** `get_funnel_conversion_summary`: runs the grouped query and converts each
      row to `(str, int, int)`. */
  method GetFunnelConversionSummary(connection: Database, from: Option<Instant>, to: Option<Instant>)
    returns (result: seq<SummaryRow>)
    ensures result == ConversionSummary(connection.funnelEntries, from, to)
  {
    var rows := ConversionSummary(connection.funnelEntries, from, to);
    result := [];
    for i := 0 to |rows|
      invariant result == rows[..i]
    {
      var row := rows[i];
      result := result + [SummaryRow(row.funnelType, row.totalEntries, row.totalPurchased)];
    }
    assert rows[..|rows|] == rows;
  }
}
