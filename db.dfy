/** The tables the core reads and writes, held in memory. A `Database` stands
    for the MySQL connection the Python code passes around; the SQL engine's
    own work (joins, constraint checks) is done by the model's functions. */
module Db {
  import opened Wrappers
  import opened Time

  /** One row of `funnel_entries`. */
  datatype FunnelEntry = FunnelEntry(
    id: nat,
    email: string,
    funnelType: string,
    userId: Option<int>,
    testId: Option<int>,
    enteredAt: Instant,
    purchased: bool,
    purchasedAt: Option<Instant>)

  /** One row of `simpletest_users` already joined with its test and the
      test's language: the user id, the email (NULL allowed) and `Datep`. */
  datatype TestUser = TestUser(userId: int, email: Option<string>, completedAt: Instant)

  /** One row of `modx_cert_payment` joined with its result, user and test:
      the payment id, the user's email, `id_status`, `datetime_payment`
      (NULL allowed) and the test's `type`. */
  datatype Payment = Payment(id: int, email: string, status: int, paidAt: Option<Instant>, testType: int)

  /** The statements the ledger functions send, with their parameters. */
  datatype Statement =
    | SelectEntry(email: string, funnelType: string, testId: Option<int>)
    | InsertEntry(email: string, funnelType: string, userId: Option<int>, testId: Option<int>)
    | UpdatePurchased(purchasedAt: Instant, email: string, funnelType: string, testId: Option<int>)

  /** Whether row `e` holds the unique key (email, funnel_type, test_id). As in
      SQL, a NULL test_id equals nothing, so it never collides. */
  predicate SameKey(e: FunnelEntry, email: string, funnelType: string, testId: Option<int>) {
    testId.Some? && e.email == email && e.funnelType == funnelType && e.testId == testId
  }

  ghost predicate KeysUnique(rows: seq<FunnelEntry>) {
    forall i, j :: 0 <= i < j < |rows| ==> !SameKey(rows[i], rows[j].email, rows[j].funnelType, rows[j].testId)
  }

  ghost predicate IdsFresh(rows: seq<FunnelEntry>, nextId: nat) {
    (forall i :: 0 <= i < |rows| ==> rows[i].id < nextId) &&
    (forall i, j :: 0 <= i < j < |rows| ==> rows[i].id != rows[j].id)
  }

  /** The table invariant: the unique key holds and every id is below the next
      auto-increment value and used once. */
  ghost predicate TableValid(rows: seq<FunnelEntry>, nextId: nat) {
    KeysUnique(rows) && IdsFresh(rows, nextId)
  }

  class Database {
    var funnelEntries: seq<FunnelEntry>
    var nextEntryId: nat
    /** Every statement executed on the connection, in order. */
    var executed: seq<Statement>
    var commits: nat
    /** The server's NOW(), fixed for one run. */
    const clock: Instant
    const testUsers: seq<TestUser>
    const payments: seq<Payment>

    ghost predicate Valid()
      reads this
    {
      TableValid(funnelEntries, nextEntryId)
    }

    constructor (entries: seq<FunnelEntry>, nextId: nat, clock: Instant, testUsers: seq<TestUser>, payments: seq<Payment>)
      requires TableValid(entries, nextId)
      ensures Valid()
      ensures funnelEntries == entries && nextEntryId == nextId && executed == [] && commits == 0
      ensures this.clock == clock && this.testUsers == testUsers && this.payments == payments
    {
      funnelEntries := entries;
      nextEntryId := nextId;
      executed := [];
      commits := 0;
      this.clock := clock;
      this.testUsers := testUsers;
      this.payments := payments;
    }
  }
}
