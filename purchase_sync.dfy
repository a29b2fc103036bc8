/** Purchase detection (funnels/purchase_sync_service.py): pending ledger
    entries are matched against paid certificates; a match marks the entries
    purchased and updates the Brevo contact. */
module PurchaseSync {
  import opened Wrappers
  import opened Time
  import opened JsonValue
  import opened BrevoModels
  import opened Gateway
  import opened Db
  import opened Tracking
  import opened Selectors

  /** What the database driver hands back for the payment time column. */
  datatype DbValue = DateTimeValue(at: Instant) | TextValue(text: string) | IntValue(n: int) | NullValue

  const UnexpectedTimestampMessage: string := "Unexpected purchased_at value type"

  /** `_ensure_datetime`: a datetime passes, anything else is a ValueError. */
  function EnsureDatetime(v: DbValue): (r: Result<Instant, Failure>)
    ensures r.Ok? <==> v.DateTimeValue?
    ensures r.Ok? ==> r.value == v.at
    ensures r.Err? ==> r.error == Failure(Value, UnexpectedTimestampMessage)
  {
    if v.DateTimeValue? then Ok(v.at) else Err(Failure(Value, UnexpectedTimestampMessage))
  }

  /** The `(order_id, purchased_at)` row of the lookup, before validation. */
  datatype PurchaseRow = PurchaseRow(orderId: int, purchasedAt: DbValue)

  /** How the driver surfaces a stored payment time. MySQL's connector
      gives a datetime; another schema or driver may not. */
  type Driver = Instant -> DbValue

  ghost predicate TypedDriver(driver: Driver) {
    forall t :: driver(t) == DateTimeValue(t)
  }

  /** The lookup of `sync`: `get_certificate_purchase_for_entry` on the
      entry's four columns, the time column as the driver hands it over. */
  function PurchaseRowFor(payments: seq<Payment>, driver: Driver, e: PendingEntry): (r: Option<PurchaseRow>)
    ensures r.None? <==> CertificatePurchaseForEntry(payments, e.email, e.funnelType, e.userId, e.testId).None?
  {
    match CertificatePurchaseForEntry(payments, e.email, e.funnelType, e.userId, e.testId)
    case None => None
    case Some(p) => Some(PurchaseRow(p.paymentId, driver(p.paidAt)))
  }

  /** With the connector's datetimes the time check never rejects a row of
      the lookup, and the time it passes on is the earliest qualifying
      payment's. */
  lemma LookupTimesAreDatetimes(payments: seq<Payment>, driver: Driver, e: PendingEntry)
    requires TypedDriver(driver)
    ensures var found := PurchaseRowFor(payments, driver, e);
      found.Some? ==>
        var r := EnsureDatetime(found.value.purchasedAt);
        r.Ok? && exists p :: p in payments && Qualifies(p, e.email, e.funnelType) && r.value == p.paidAt.value
  {
  }

  /** The lookup as `sync` performs it, entry by entry. */
  function Lookup(payments: seq<Payment>, driver: Driver): (f: PendingEntry -> Option<PurchaseRow>)
    ensures forall e :: f(e) == PurchaseRowFor(payments, driver, e)
  {
    e => PurchaseRowFor(payments, driver, e)
  }

  /** Every row the lookup finds carries a datetime. */
  ghost predicate TypedLookup(lookup: PendingEntry -> Option<PurchaseRow>) {
    forall e :: lookup(e).Some? ==> lookup(e).value.purchasedAt.DateTimeValue?
  }

  /** With the connector's datetimes every row of the lookup carries one. */
  lemma TypedDriverLookup(payments: seq<Payment>, driver: Driver)
    requires TypedDriver(driver)
    ensures TypedLookup(Lookup(payments, driver))
  {
    forall e | Lookup(payments, driver)(e).Some?
      ensures Lookup(payments, driver)(e).value.purchasedAt.DateTimeValue?
    {
      LookupTimesAreDatetimes(payments, driver, e);
    }
  }

  /** `_update_brevo_contact_after_purchase`: no lists, three attributes, and
      an update of an existing contact. */
  function PurchaseContact(email: string, funnelType: string, purchasedAtText: string): (c: BrevoContact)
    ensures c.email == email && c.listIds == [] && c.updateEnabled
    ensures c.attributes.Keys == {"FUNNEL_TYPE", "CERTIFICATE_PURCHASED", "CERTIFICATE_PURCHASED_AT"}
    ensures c.attributes["FUNNEL_TYPE"] == JString(funnelType)
    ensures c.attributes["CERTIFICATE_PURCHASED"] == JInt(1)
    ensures c.attributes["CERTIFICATE_PURCHASED_AT"] == JString(purchasedAtText)
  {
    BrevoContact(email, [],
                 map["FUNNEL_TYPE" := JString(funnelType), "CERTIFICATE_PURCHASED" := JInt(1),
                     "CERTIFICATE_PURCHASED_AT" := JString(purchasedAtText)],
                 true)
  }

  /** The request body of the purchase update carries no list ids, so list
      membership is left alone: only attributes change. */
  lemma PurchaseContactKeepsLists(email: string, funnelType: string, purchasedAtText: string)
    ensures var p := ToPayload(PurchaseContact(email, funnelType, purchasedAtText));
      "listIds" !in p && p["attributes"] == JObject(PurchaseContact(email, funnelType, purchasedAtText).attributes) &&
      p["updateEnabled"] == JBool(true)
  {
  }

  /** Everything a run can change: the ledger table, its statement log and
      commit count, the contacts sent, and whether an exception ended the run. */
  datatype PurchaseState = PurchaseState(
    rows: seq<FunnelEntry>,
    executed: seq<Statement>,
    commits: nat,
    sent: seq<BrevoContact>,
    outcome: Result<(), Failure>)

  /** What a run reads and does not change: the purchase lookup of each
      entry (`Lookup` on the payments and the driver), the dry-run flag,
      `isoformat`, and the gateway's answers. */
  datatype Context = Context(
    lookup: PendingEntry -> Option<PurchaseRow>,
    dryRun: bool,
    iso: Instant -> string,
    respond: (nat, BrevoContact) -> Result<Json, Failure>)

  /** One turn of the loop of `sync`: no purchase, skip; a bad time, raise;
      a dry run, nothing; otherwise the update with its commit, then the
      contact call, whose failure raises. */
  function PurchaseStep(s: PurchaseState, e: PendingEntry, ctx: Context): PurchaseState {
    StepWith(s, e, ctx.lookup(e), ctx)
  }

  /** The turn of the loop for entry `e`, given what the lookup found. */
  function StepWith(s: PurchaseState, e: PendingEntry, found: Option<PurchaseRow>, ctx: Context): PurchaseState {
    match found
    case None => s
    case Some(row) =>
      match EnsureDatetime(row.purchasedAt)
      case Err(f) => s.(outcome := Err(f))
      case Ok(at) =>
        if ctx.dryRun then s
        else
          var contact := PurchaseContact(e.email, e.funnelType, ctx.iso(at));
          var reply := ctx.respond(|s.sent|, contact);
          var marked := s.(rows := MarkAll(s.rows, e.email, e.funnelType, e.testId, at),
                           executed := s.executed + [UpdatePurchased(at, e.email, e.funnelType, e.testId)],
                           commits := s.commits + 1,
                           sent := s.sent + [contact]);
          if reply.Err? then marked.(outcome := Err(reply.error)) else marked
  }

  /** The loop of `sync` over the pending entries; an exception ends it. */
  function PurchaseSpec(entries: seq<PendingEntry>, ctx: Context, s: PurchaseState): PurchaseState
    decreases |entries|
  {
    if entries == [] || s.outcome.Err? then s
    else PurchaseSpec(entries[1..], ctx, PurchaseStep(s, entries[0], ctx))
  }

  lemma PurchaseSpecUnfold(entries: seq<PendingEntry>, ctx: Context, s: PurchaseState)
    requires entries != [] && s.outcome.Ok?
    ensures PurchaseSpec(entries, ctx, s) == PurchaseSpec(entries[1..], ctx, PurchaseStep(s, entries[0], ctx))
  {
  }

  /** The loop of `sync` after its i-th entry: the run goes on from the new
      state with the entries after it, or has ended there if it raised. */
  lemma PurchaseSpecAdvance(entries: seq<PendingEntry>, i: nat, ctx: Context, s: PurchaseState, s1: PurchaseState)
    requires i < |entries| && s.outcome.Ok? && s1 == PurchaseStep(s, entries[i], ctx)
    ensures PurchaseSpec(entries[i..], ctx, s) == PurchaseSpec(entries[i + 1..], ctx, s1)
    ensures s1.outcome.Err? ==> PurchaseSpec(entries[i..], ctx, s) == s1
  {
    assert entries[i..][0] == entries[i] && entries[i..][1..] == entries[i + 1..];
    PurchaseSpecUnfold(entries[i..], ctx, s);
    if s1.outcome.Err? {
      PurchaseSpecStopped(entries[i + 1..], ctx, s1);
    }
  }

  lemma PurchaseSpecStopped(entries: seq<PendingEntry>, ctx: Context, s: PurchaseState)
    requires s.outcome.Err?
    ensures PurchaseSpec(entries, ctx, s) == s
  {
  }

  /** An entry without a paid certificate purchase is skipped: the turn
      changes nothing. */
  lemma NoPurchaseSkips(s: PurchaseState, e: PendingEntry, ctx: Context)
    requires ctx.lookup(e).None?
    ensures PurchaseStep(s, e, ctx) == s
  {
  }

  /** Running two batches one after the other is running them together. */
  lemma {:induction false} PurchaseSpecConcat(a: seq<PendingEntry>, b: seq<PendingEntry>, ctx: Context, s: PurchaseState)
    ensures PurchaseSpec(a + b, ctx, s) == PurchaseSpec(b, ctx, PurchaseSpec(a, ctx, s))
    decreases |a|
  {
    if a == [] {
      assert a + b == b;
    } else if s.outcome.Err? {
      PurchaseSpecStopped(a + b, ctx, s);
      PurchaseSpecStopped(a, ctx, s);
      PurchaseSpecStopped(b, ctx, s);
    } else {
      assert (a + b)[0] == a[0] && (a + b)[1..] == a[1..] + b;
      PurchaseSpecConcat(a[1..], b, ctx, PurchaseStep(s, a[0], ctx));
    }
  }

  /** A purchase time that is not a datetime raises a ValueError with the
      fixed message when the run reaches it, dry or not: the table, the
      statements, the commits and the Brevo calls are those of the entries
      before it, and nothing after it is handled. */
  lemma BadTimeRaises(entries: seq<PendingEntry>, ctx: Context, s: PurchaseState, k: nat)
    requires k < |entries| && PurchaseSpec(entries[..k], ctx, s).outcome.Ok?
    requires ctx.lookup(entries[k]).Some? && !ctx.lookup(entries[k]).value.purchasedAt.DateTimeValue?
    ensures var before := PurchaseSpec(entries[..k], ctx, s);
      var after := PurchaseSpec(entries, ctx, s);
      && after.rows == before.rows && after.executed == before.executed
      && after.commits == before.commits && after.sent == before.sent
      && after.outcome == Err(Failure(Value, UnexpectedTimestampMessage))
  {
    var before := PurchaseSpec(entries[..k], ctx, s);
    assert entries == entries[..k] + entries[k..];
    PurchaseSpecConcat(entries[..k], entries[k..], ctx, s);
    PurchaseSpecAdvance(entries, k, ctx, before, PurchaseStep(before, entries[k], ctx));
  }

  /** A dry run only reads: the table, the statement log, the commits and
      the Brevo calls stay exactly as they were; with the connector's
      datetimes it also ends normally. */
  lemma {:induction false} DryRunChangesNothing(entries: seq<PendingEntry>, ctx: Context, s: PurchaseState)
    requires ctx.dryRun
    ensures var s' := PurchaseSpec(entries, ctx, s);
      s'.rows == s.rows && s'.executed == s.executed && s'.commits == s.commits && s'.sent == s.sent
    ensures TypedLookup(ctx.lookup) ==> PurchaseSpec(entries, ctx, s).outcome == s.outcome
    decreases |entries|
  {
    if entries != [] && s.outcome.Ok? {
      var found := ctx.lookup(entries[0]);
      DryStepChangesNothing(s, entries[0], found, ctx);
      DryRunChangesNothing(entries[1..], ctx, PurchaseStep(s, entries[0], ctx));
    }
  }

  lemma DryStepChangesNothing(s: PurchaseState, e: PendingEntry, found: Option<PurchaseRow>, ctx: Context)
    requires ctx.dryRun
    ensures var s' := StepWith(s, e, found, ctx);
      s'.rows == s.rows && s'.executed == s.executed && s'.commits == s.commits && s'.sent == s.sent
    ensures found.None? || EnsureDatetime(found.value.purchasedAt).Ok? ==> StepWith(s, e, found, ctx).outcome == s.outcome
  {
  }

  /** From `s` to `s'` the table keeps its length, the log and the calls only
      grow, by one UPDATE, one commit and one purchase contact per detected
      purchase, and no contact names a list. */
  predicate Grew(s: PurchaseState, s': PurchaseState) {
    |s'.rows| == |s.rows| &&
    |s.sent| <= |s'.sent| && s'.sent[..|s.sent|] == s.sent &&
    |s.executed| <= |s'.executed| && s'.executed[..|s.executed|] == s.executed &&
    |s'.sent| - |s.sent| == |s'.executed| - |s.executed| == s'.commits - s.commits &&
    (forall k :: |s.sent| <= k < |s'.sent| ==> s'.sent[k].listIds == [] && s'.sent[k].updateEnabled) &&
    (forall k :: |s.executed| <= k < |s'.executed| ==> s'.executed[k].UpdatePurchased?)
  }

  lemma GrewTransitive(a: PurchaseState, b: PurchaseState, c: PurchaseState)
    requires Grew(a, b) && Grew(b, c)
    ensures Grew(a, c)
  {
    assert c.sent[..|a.sent|] == c.sent[..|b.sent|][..|a.sent|];
    assert c.executed[..|a.executed|] == c.executed[..|b.executed|][..|a.executed|];
    forall k | |a.sent| <= k < |c.sent| ensures c.sent[k].listIds == [] && c.sent[k].updateEnabled {
      if k < |b.sent| { assert c.sent[k] == c.sent[..|b.sent|][k]; }
    }
    forall k | |a.executed| <= k < |c.executed| ensures c.executed[k].UpdatePurchased? {
      if k < |b.executed| { assert c.executed[k] == c.executed[..|b.executed|][k]; }
    }
  }

  lemma PurchaseStepGrows(s: PurchaseState, e: PendingEntry, ctx: Context)
    ensures Grew(s, PurchaseStep(s, e, ctx))
  {
    StepWithGrows(s, e, ctx.lookup(e), ctx);
  }

  lemma StepWithGrows(s: PurchaseState, e: PendingEntry, found: Option<PurchaseRow>, ctx: Context)
    ensures Grew(s, StepWith(s, e, found, ctx))
  {
    var s' := StepWith(s, e, found, ctx);
    if found.Some? && EnsureDatetime(found.value.purchasedAt).Ok? && !ctx.dryRun {
      var at := EnsureDatetime(found.value.purchasedAt).value;
      var contact := PurchaseContact(e.email, e.funnelType, ctx.iso(at));
      assert s'.sent == s.sent + [contact];
      assert s'.executed == s.executed + [UpdatePurchased(at, e.email, e.funnelType, e.testId)];
      assert s'.commits == s.commits + 1;
      assert |s'.rows| == |s.rows|;
    } else {
      assert s'.rows == s.rows && s'.sent == s.sent && s'.executed == s.executed && s'.commits == s.commits;
    }
  }

  /** The two writes of a detected purchase go together: every UPDATE with
      its commit is followed by exactly one contact call, and every call is
      a purchase update that touches no list; the table keeps its length. */
  lemma {:induction false} MarksPairWithContacts(entries: seq<PendingEntry>, ctx: Context, s: PurchaseState)
    ensures Grew(s, PurchaseSpec(entries, ctx, s))
    decreases |entries|
  {
    if entries != [] && s.outcome.Ok? {
      var s1 := PurchaseStep(s, entries[0], ctx);
      PurchaseStepGrows(s, entries[0], ctx);
      MarksPairWithContacts(entries[1..], ctx, s1);
      GrewTransitive(s, s1, PurchaseSpec(entries[1..], ctx, s1));
    }
  }

  /** Row `i` keeps its key columns, and a purchased row stays purchased. */
  predicate Progressed(before: seq<FunnelEntry>, after: seq<FunnelEntry>) {
    |after| == |before| &&
    forall i :: 0 <= i < |before| ==>
      after[i].email == before[i].email && after[i].funnelType == before[i].funnelType &&
      after[i].testId == before[i].testId && (before[i].purchased ==> after[i].purchased)
  }

  lemma ProgressedTransitive(a: seq<FunnelEntry>, b: seq<FunnelEntry>, c: seq<FunnelEntry>)
    requires Progressed(a, b) && Progressed(b, c)
    ensures Progressed(a, c)
  {
  }

  lemma PurchaseStepProgresses(s: PurchaseState, e: PendingEntry, ctx: Context)
    ensures Progressed(s.rows, PurchaseStep(s, e, ctx).rows)
  {
    StepWithProgresses(s, e, ctx.lookup(e), ctx);
  }

  lemma StepWithProgresses(s: PurchaseState, e: PendingEntry, found: Option<PurchaseRow>, ctx: Context)
    ensures Progressed(s.rows, StepWith(s, e, found, ctx).rows)
  {
    if found.Some? && EnsureDatetime(found.value.purchasedAt).Ok? && !ctx.dryRun {
      var at := EnsureDatetime(found.value.purchasedAt).value;
      assert StepWith(s, e, found, ctx).rows == MarkAll(s.rows, e.email, e.funnelType, e.testId, at);
      MarkAllEffect(s.rows, e.email, e.funnelType, e.testId, at);
    }
  }

  /** Marks are never undone and rows never change their keys. */
  lemma {:induction false} PurchaseSpecProgresses(entries: seq<PendingEntry>, ctx: Context, s: PurchaseState)
    ensures Progressed(s.rows, PurchaseSpec(entries, ctx, s).rows)
    decreases |entries|
  {
    if entries != [] && s.outcome.Ok? {
      var s1 := PurchaseStep(s, entries[0], ctx);
      PurchaseStepProgresses(s, entries[0], ctx);
      PurchaseSpecProgresses(entries[1..], ctx, s1);
      ProgressedTransitive(s.rows, s1.rows, PurchaseSpec(entries[1..], ctx, s1).rows);
    }
  }

  /** After a run that was not a dry run and ended normally, no entry whose
      purchase was detected is left unmarked: every row matching it (by
      email, funnel type and, when given, test id) is purchased. */
  lemma {:induction false} DetectedPurchasesAreMarked(entries: seq<PendingEntry>, ctx: Context, s: PurchaseState, k: nat, i: nat)
    requires !ctx.dryRun && s.outcome.Ok?
    requires PurchaseSpec(entries, ctx, s).outcome.Ok?
    requires k < |entries| && ctx.lookup(entries[k]).Some?
    requires i < |PurchaseSpec(entries, ctx, s).rows|
    ensures var r := PurchaseSpec(entries, ctx, s).rows[i];
      Matches(r, entries[k].email, entries[k].funnelType, entries[k].testId) ==> r.purchased
    decreases |entries|
  {
    var e := entries[0];
    var s1 := PurchaseStep(s, e, ctx);
    PurchaseSpecUnfold(entries, ctx, s);
    if s1.outcome.Err? {
      assert false;
    }
    if k == 0 {
      DetectedStepMarks(s, e, ctx);
      PurchaseSpecProgresses(entries[1..], ctx, s1);
    } else {
      assert entries[1..][k - 1] == entries[k];
      DetectedPurchasesAreMarked(entries[1..], ctx, s1, k - 1, i);
    }
  }

  lemma DetectedStepMarks(s: PurchaseState, e: PendingEntry, ctx: Context)
    requires !ctx.dryRun && ctx.lookup(e).Some? && PurchaseStep(s, e, ctx).outcome.Ok?
    ensures var r := PurchaseStep(s, e, ctx).rows;
      forall i :: 0 <= i < |r| && Matches(r[i], e.email, e.funnelType, e.testId) ==> r[i].purchased
  {
    StepWithMarks(s, e, ctx.lookup(e), ctx);
  }

  lemma StepWithMarks(s: PurchaseState, e: PendingEntry, found: Option<PurchaseRow>, ctx: Context)
    requires !ctx.dryRun && found.Some? && StepWith(s, e, found, ctx).outcome.Ok?
    ensures var r := StepWith(s, e, found, ctx).rows;
      forall i :: 0 <= i < |r| && Matches(r[i], e.email, e.funnelType, e.testId) ==> r[i].purchased
  {
    var checked := EnsureDatetime(found.value.purchasedAt);
    if checked.Ok? {
      var at := checked.value;
      var r := MarkAll(s.rows, e.email, e.funnelType, e.testId, at);
      var after := StepWith(s, e, found, ctx).rows;
      assert after == r;
      forall i | 0 <= i < |after| && Matches(after[i], e.email, e.funnelType, e.testId) ensures after[i].purchased {
        MarkAllAt(s.rows, e.email, e.funnelType, e.testId, at, i);
      }
    }
  }

  class PurchaseSyncService {
    const connection: Database
    const gateway: ContactGateway
    const dryRun: bool
    const driver: Driver
    /** `datetime.isoformat`, which is not part of this model. */
    const isoFormat: Instant -> string

    constructor (connection: Database, gateway: ContactGateway, dryRun: bool, driver: Driver, isoFormat: Instant -> string)
      ensures this.connection == connection && this.gateway == gateway
      ensures this.dryRun == dryRun && this.driver == driver && this.isoFormat == isoFormat
    {
      this.connection := connection;
      this.gateway := gateway;
      this.dryRun := dryRun;
      this.driver := driver;
      this.isoFormat := isoFormat;
    }

    ghost function State(outcome: Result<(), Failure>): PurchaseState
      reads connection, gateway
    {
      PurchaseState(connection.funnelEntries, connection.executed, connection.commits, gateway.sent, outcome)
    }

    function Ctx(): Context
      reads connection, gateway
    {
      Context(Lookup(connection.payments, driver), dryRun, isoFormat, gateway.respond)
    }

    /** `_update_brevo_contact_after_purchase`. */
    method UpdateBrevoContactAfterPurchase(email: string, funnelType: string, purchasedAt: Instant)
      returns (r: Result<(), Failure>)
      modifies gateway
      ensures gateway.sent == old(gateway.sent) + [PurchaseContact(email, funnelType, isoFormat(purchasedAt))]
      ensures var reply := gateway.respond(|old(gateway.sent)|, PurchaseContact(email, funnelType, isoFormat(purchasedAt)));
        if reply.Err? then r == Err(reply.error) else r == Ok(())
    {
      var reply := gateway.CreateOrUpdateContact(PurchaseContact(email, funnelType, isoFormat(purchasedAt)));
      if reply.Err? {
        return Err(reply.error);
      }
      return Ok(());
    }

    /** The body of the loop of `sync` for one pending entry. */
    method ProcessEntry(e: PendingEntry) returns (r: Result<(), Failure>)
      requires connection.Valid() && connection != gateway as object
      modifies connection, gateway
      ensures connection.Valid() && connection.nextEntryId == old(connection.nextEntryId)
      ensures r.Ok? ==> r == Ok(())
      ensures State(r) == PurchaseStep(old(State(Ok(()))), e, Ctx())
    {
      ghost var s0 := State(Ok(()));
      var purchaseRow := PurchaseRowFor(connection.payments, driver, e);
      assert PurchaseStep(s0, e, Ctx()) == StepWith(s0, e, purchaseRow, Ctx());
      r := Ok(());
      if purchaseRow.Some? {
        var at := EnsureDatetime(purchaseRow.value.purchasedAt);
        if at.Err? {
          r := Err(at.error);
        } else if !dryRun {
          MarkCertificatePurchased(connection, e.email, e.funnelType, e.testId, at.value);
          r := UpdateBrevoContactAfterPurchase(e.email, e.funnelType, at.value);
        }
      }
    }

    /** `sync(max_rows)`: the pending entries are read once, oldest first,
        then handled in order until the end or the first exception. */
    method Sync(maxRows: nat) returns (r: Result<(), Failure>)
      requires connection.Valid() && connection != gateway as object
      modifies connection, gateway
      ensures connection.Valid() && connection.nextEntryId == old(connection.nextEntryId)
      ensures State(r) == PurchaseSpec(old(GetPendingFunnelEntries(connection, maxRows)), Ctx(), old(State(Ok(()))))
    {
      var pending := GetPendingFunnelEntries(connection, maxRows);
      r := Ok(());
      var i := 0;
      while i < |pending|
        invariant 0 <= i <= |pending|
        invariant connection.Valid() && connection.nextEntryId == old(connection.nextEntryId)
        invariant r == Ok(())
        invariant PurchaseSpec(pending[i..], Ctx(), State(r)) == PurchaseSpec(pending, Ctx(), old(State(Ok(()))))
      {
        ghost var before := State(r);
        r := ProcessEntry(pending[i]);
        PurchaseSpecAdvance(pending, i, Ctx(), before, State(r));
        if r.Err? {
          return;
        }
        i := i + 1;
      }
    }
  }
}
