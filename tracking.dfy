/** The funnel-entry ledger (analytics/tracking.py): an existence check, an
    insert, and the multi-row "mark purchased if not yet marked" update. */
module Tracking {
  import opened Wrappers
  import opened Time
  import opened Db
  import opened Gateway

  /** The WHERE clause shared by the existence check and the update: same email
      and funnel type, and the same test id when one is given. A row whose
      test_id is NULL never equals a given test id. */
  predicate Matches(e: FunnelEntry, email: string, funnelType: string, testId: Option<int>) {
    e.email == email && e.funnelType == funnelType && (testId.Some? ==> e.testId == testId)
  }

  predicate HasMatch(rows: seq<FunnelEntry>, email: string, funnelType: string, testId: Option<int>) {
    exists i | 0 <= i < |rows| :: Matches(rows[i], email, funnelType, testId)
  }

  /** The insert would break the unique key (email, funnel_type, test_id). */
  predicate Collides(rows: seq<FunnelEntry>, email: string, funnelType: string, testId: Option<int>) {
    exists i | 0 <= i < |rows| :: SameKey(rows[i], email, funnelType, testId)
  }

  /** Stand-in for the text of the MySQL duplicate-key error. */
  const DuplicateKeyMessage: string := "Duplicate entry for unique key (email, funnel_type, test_id)"

  /** `funnel_entry_exists`: one SELECT; true exactly when some row matches. */
  method FunnelEntryExists(connection: Database, email: string, funnelType: string, testId: Option<int>)
    returns (found: bool)
    modifies connection`executed
    ensures connection.executed == old(connection.executed) + [SelectEntry(email, funnelType, testId)]
    ensures found <==> HasMatch(connection.funnelEntries, email, funnelType, testId)
  {
    connection.executed := connection.executed + [SelectEntry(email, funnelType, testId)];
    found := HasMatch(connection.funnelEntries, email, funnelType, testId);
  }

  /** Without a test id the existence check ignores test ids; with one it also
      requires that test id. */
  lemma HasMatchMeaning(rows: seq<FunnelEntry>, email: string, funnelType: string, testId: Option<int>)
    ensures testId.None? ==>
      (HasMatch(rows, email, funnelType, testId) <==>
       exists i :: 0 <= i < |rows| && rows[i].email == email && rows[i].funnelType == funnelType)
    ensures testId.Some? ==>
      (HasMatch(rows, email, funnelType, testId) <==>
       exists i :: 0 <= i < |rows| && rows[i].email == email && rows[i].funnelType == funnelType && rows[i].testId == testId)
  {
  }

  /** `create_funnel_entry`: one INSERT. When the unique key would break the
      insert raises and nothing is committed; otherwise exactly one row is
      appended, carrying the given values, the server's clock and no purchase,
      and the change is committed once. Existing rows never change. */
  method CreateFunnelEntry(connection: Database, email: string, funnelType: string, userId: Option<int>, testId: Option<int>)
    returns (r: Result<(), Failure>)
    requires connection.Valid()
    modifies connection
    ensures connection.Valid()
    ensures connection.executed == old(connection.executed) + [InsertEntry(email, funnelType, userId, testId)]
    ensures r.Ok? <==> !Collides(old(connection.funnelEntries), email, funnelType, testId)
    ensures r.Ok? ==> r == Ok(())
    ensures r.Ok? ==>
      connection.funnelEntries ==
        old(connection.funnelEntries) + [FunnelEntry(old(connection.nextEntryId), email, funnelType, userId, testId, connection.clock, false, None)] &&
      connection.nextEntryId == old(connection.nextEntryId) + 1 &&
      connection.commits == old(connection.commits) + 1
    ensures r.Err? ==>
      r.error == Failure(Other, DuplicateKeyMessage) &&
      connection.funnelEntries == old(connection.funnelEntries) &&
      connection.nextEntryId == old(connection.nextEntryId) &&
      connection.commits == old(connection.commits)
  {
    connection.executed := connection.executed + [InsertEntry(email, funnelType, userId, testId)];
    if Collides(connection.funnelEntries, email, funnelType, testId) {
      return Err(Failure(Other, DuplicateKeyMessage));
    }
    var row := FunnelEntry(connection.nextEntryId, email, funnelType, userId, testId, connection.clock, false, None);
    connection.funnelEntries := connection.funnelEntries + [row];
    connection.nextEntryId := connection.nextEntryId + 1;
    connection.commits := connection.commits + 1;
    r := Ok(());
  }

  /** A NULL test id is never part of a key collision, so such an insert
      always succeeds. */
  lemma NoCollisionWithoutTestId(rows: seq<FunnelEntry>, email: string, funnelType: string)
    ensures !Collides(rows, email, funnelType, None)
  {
  }

  /** The effect of the UPDATE on one row. */
  function MarkRow(e: FunnelEntry, email: string, funnelType: string, testId: Option<int>, purchasedAt: Instant): FunnelEntry {
    if Matches(e, email, funnelType, testId) && !e.purchased then e.(purchased := true, purchasedAt := Some(purchasedAt)) else e
  }

  /** The effect of the UPDATE on the table. */
  function MarkAll(rows: seq<FunnelEntry>, email: string, funnelType: string, testId: Option<int>, purchasedAt: Instant): (r: seq<FunnelEntry>)
    ensures |r| == |rows|
  {
    if rows == [] then []
    else MarkAll(rows[..|rows| - 1], email, funnelType, testId, purchasedAt) + [MarkRow(rows[|rows| - 1], email, funnelType, testId, purchasedAt)]
  }

  lemma {:induction false} MarkAllAt(rows: seq<FunnelEntry>, email: string, funnelType: string, testId: Option<int>, purchasedAt: Instant, i: nat)
    requires i < |rows|
    ensures MarkAll(rows, email, funnelType, testId, purchasedAt)[i] == MarkRow(rows[i], email, funnelType, testId, purchasedAt)
  {
    if i < |rows| - 1 {
      MarkAllAt(rows[..|rows| - 1], email, funnelType, testId, purchasedAt, i);
    }
  }

  /** What the update does, row by row: a matching unpurchased row becomes
      purchased at the given time; every other row, including a matching row
      already purchased (which keeps its original time), is left as it was;
      and only the two purchase columns ever change. */
  lemma MarkAllEffect(rows: seq<FunnelEntry>, email: string, funnelType: string, testId: Option<int>, purchasedAt: Instant)
    ensures var r := MarkAll(rows, email, funnelType, testId, purchasedAt);
      |r| == |rows| &&
      (forall i :: 0 <= i < |rows| && Matches(rows[i], email, funnelType, testId) && !rows[i].purchased ==>
         r[i].purchased && r[i].purchasedAt == Some(purchasedAt)) &&
      (forall i :: 0 <= i < |rows| && !(Matches(rows[i], email, funnelType, testId) && !rows[i].purchased) ==>
         r[i] == rows[i]) &&
      (forall i :: 0 <= i < |rows| ==>
         r[i] == rows[i].(purchased := r[i].purchased, purchasedAt := r[i].purchasedAt))
  {
    forall i | 0 <= i < |rows| {
      MarkAllAt(rows, email, funnelType, testId, purchasedAt, i);
    }
  }

  /** After the update no row satisfies its WHERE clause any more: every
      matching row is purchased. */
  lemma MarkAllLeavesNoneUnmarked(rows: seq<FunnelEntry>, email: string, funnelType: string, testId: Option<int>, purchasedAt: Instant)
    ensures var r := MarkAll(rows, email, funnelType, testId, purchasedAt);
      forall i :: 0 <= i < |r| && Matches(r[i], email, funnelType, testId) ==> r[i].purchased
  {
    var r := MarkAll(rows, email, funnelType, testId, purchasedAt);
    forall i | 0 <= i < |r| && Matches(r[i], email, funnelType, testId) ensures r[i].purchased {
      MarkAllAt(rows, email, funnelType, testId, purchasedAt, i);
    }
  }

  /** The update is idempotent: repeating it, with any purchase time, changes
      nothing. */
  lemma MarkAllIdempotent(rows: seq<FunnelEntry>, email: string, funnelType: string, testId: Option<int>, first: Instant, second: Instant)
    ensures var once := MarkAll(rows, email, funnelType, testId, first);
      MarkAll(once, email, funnelType, testId, second) == once
  {
    var once := MarkAll(rows, email, funnelType, testId, first);
    MarkAllLeavesNoneUnmarked(rows, email, funnelType, testId, first);
    MarkAllEffect(once, email, funnelType, testId, second);
  }

  /** The update keeps the table invariant: keys and ids are untouched. */
  lemma MarkAllKeepsValid(rows: seq<FunnelEntry>, nextId: nat, email: string, funnelType: string, testId: Option<int>, purchasedAt: Instant)
    requires TableValid(rows, nextId)
    ensures TableValid(MarkAll(rows, email, funnelType, testId, purchasedAt), nextId)
  {
    MarkAllEffect(rows, email, funnelType, testId, purchasedAt);
  }

  /** The update's loop after row i: the first i + 1 rows are updated and the
      rest are untouched. */
  lemma MarkNext(current: seq<FunnelEntry>, before: seq<FunnelEntry>, i: nat,
                 email: string, funnelType: string, testId: Option<int>, purchasedAt: Instant)
    requires |current| == |before| && i < |before|
    requires current[..i] == MarkAll(before[..i], email, funnelType, testId, purchasedAt)
    requires current[i..] == before[i..]
    ensures var next := current[i := MarkRow(current[i], email, funnelType, testId, purchasedAt)];
      next[..i + 1] == MarkAll(before[..i + 1], email, funnelType, testId, purchasedAt) &&
      next[i + 1..] == before[i + 1..]
  {
    var next := current[i := MarkRow(current[i], email, funnelType, testId, purchasedAt)];
    assert current[i] == current[i..][0] == before[i];
    assert before[..i + 1][..i] == before[..i];
    assert next[..i + 1] == current[..i] + [next[i]];
    assert next[i + 1..] == current[i + 1..] == current[i..][1..];
  }

  /** `mark_certificate_purchased`: one UPDATE over every matching row that is
      not yet purchased, then one commit. */
  method MarkCertificatePurchased(connection: Database, email: string, funnelType: string, testId: Option<int>, purchasedAt: Instant)
    requires connection.Valid()
    modifies connection
    ensures connection.Valid()
    ensures connection.funnelEntries == MarkAll(old(connection.funnelEntries), email, funnelType, testId, purchasedAt)
    ensures connection.executed == old(connection.executed) + [UpdatePurchased(purchasedAt, email, funnelType, testId)]
    ensures connection.commits == old(connection.commits) + 1
    ensures connection.nextEntryId == old(connection.nextEntryId)
  {
    connection.executed := connection.executed + [UpdatePurchased(purchasedAt, email, funnelType, testId)];
    ghost var before := connection.funnelEntries;
    var i := 0;
    while i < |connection.funnelEntries|
      invariant |connection.funnelEntries| == |before|
      invariant 0 <= i <= |before|
      invariant connection.funnelEntries[..i] == MarkAll(before[..i], email, funnelType, testId, purchasedAt)
      invariant connection.funnelEntries[i..] == before[i..]
      invariant connection.nextEntryId == old(connection.nextEntryId)
      invariant connection.executed == old(connection.executed) + [UpdatePurchased(purchasedAt, email, funnelType, testId)]
      invariant connection.commits == old(connection.commits)
    {
      var row := connection.funnelEntries[i];
      MarkNext(connection.funnelEntries, before, i, email, funnelType, testId, purchasedAt);
      connection.funnelEntries := connection.funnelEntries[i := MarkRow(row, email, funnelType, testId, purchasedAt)];
      i := i + 1;
    }
    assert before[..i] == before;
    assert connection.funnelEntries[..i] == connection.funnelEntries;
    MarkAllKeepsValid(before, connection.nextEntryId, email, funnelType, testId, purchasedAt);
    connection.commits := connection.commits + 1;
  }
}
