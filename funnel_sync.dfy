/** Funnel intake (funnels/sync_service.py): candidates from the selectors
    become Brevo contacts and ledger entries, one of each per candidate. */
module FunnelSync {
  import opened Wrappers
  import opened Time
  import opened JsonValue
  import opened BrevoModels
  import opened Gateway
  import opened Db
  import opened Tracking
  import opened Selectors
  import Funnels
  import SeqOps

  /** A candidate of the pipeline (the record of funnels/models.py, which is
      not part of this model). */
  datatype FunnelCandidate = FunnelCandidate(
    email: string,
    funnelType: string,
    userId: Option<int>,
    testId: Option<int>,
    testCompletedAt: Option<Instant>)

  /** `_map_placeholder_row_to_candidate`: the row's email and the funnel
      type; the user id of the row is dropped and nothing else is known. */
  function CandidateFor(row: Candidate, funnelType: string): (c: FunnelCandidate)
    ensures c.email == row.email && c.funnelType == funnelType
    ensures c.userId.None? && c.testId.None? && c.testCompletedAt.None?
  {
    FunnelCandidate(row.email, funnelType, None, None, None)
  }

  /** The contact `_process_candidate` sends: the list of the funnel, and the
      funnel type as the only attribute. */
  function ContactFor(c: FunnelCandidate, listId: int): (contact: BrevoContact)
    ensures contact.email == c.email && contact.listIds == [listId] && contact.updateEnabled
    ensures contact.attributes.Keys == {"FUNNEL_TYPE"} && contact.attributes["FUNNEL_TYPE"] == JString(c.funnelType)
  {
    BrevoContact(c.email, [listId], map["FUNNEL_TYPE" := JString(c.funnelType)], true)
  }

  /** Everything a run can change: the ledger table with its id counter,
      statement log and commit count, the contacts sent, and whether an
      exception has ended the run. */
  datatype SyncState = SyncState(
    rows: seq<FunnelEntry>,
    nextId: nat,
    executed: seq<Statement>,
    commits: nat,
    sent: seq<BrevoContact>,
    outcome: Result<(), Failure>)

  /** `create_funnel_entry` on the state, as `Tracking.CreateFunnelEntry` does it. */
  function InsertStep(s: SyncState, c: FunnelCandidate, clock: Instant): SyncState {
    var executed := s.executed + [InsertEntry(c.email, c.funnelType, c.userId, c.testId)];
    if Collides(s.rows, c.email, c.funnelType, c.testId) then
      s.(executed := executed, outcome := Err(Failure(Other, DuplicateKeyMessage)))
    else
      s.(rows := s.rows + [FunnelEntry(s.nextId, c.email, c.funnelType, c.userId, c.testId, clock, false, None)],
         nextId := s.nextId + 1, executed := executed, commits := s.commits + 1)
  }

  /** `_process_candidate`: the contact call, and only if it returns, the insert. */
  function CandidateStep(s: SyncState, c: FunnelCandidate, listId: int, clock: Instant,
                         respond: (nat, BrevoContact) -> Result<Json, Failure>): SyncState {
    var contact := ContactFor(c, listId);
    var reply := respond(|s.sent|, contact);
    var s1 := s.(sent := s.sent + [contact]);
    if reply.Err? then s1.(outcome := Err(reply.error)) else InsertStep(s1, c, clock)
  }

  /** The loop of `_sync_language_funnel` / `_sync_non_language_funnel`; an
      exception ends it. */
  function RowsSpec(rows: seq<Candidate>, funnelType: string, listId: int, clock: Instant,
                    respond: (nat, BrevoContact) -> Result<Json, Failure>, s: SyncState): SyncState
    decreases |rows|
  {
    if rows == [] || s.outcome.Err? then s
    else RowsSpec(rows[1..], funnelType, listId, clock, respond, CandidateStep(s, CandidateFor(rows[0], funnelType), listId, clock, respond))
  }

  /** One funnel: nothing at all when its list id is not positive. */
  function FunnelSpec(rows: seq<Candidate>, funnelType: string, listId: int, clock: Instant,
                      respond: (nat, BrevoContact) -> Result<Json, Failure>, s: SyncState): SyncState {
    if listId <= 0 then s else RowsSpec(rows, funnelType, listId, clock, respond, s)
  }

  /** The contacts and the entries a fully successful pass over `rows` adds. */
  function ContactsFor(rows: seq<Candidate>, funnelType: string, listId: int): (r: seq<BrevoContact>)
    ensures |r| == |rows|
    ensures forall k :: 0 <= k < |rows| ==> r[k] == ContactFor(CandidateFor(rows[k], funnelType), listId)
  {
    seq(|rows|, k requires 0 <= k < |rows| => ContactFor(CandidateFor(rows[k], funnelType), listId))
  }

  function EntriesFor(rows: seq<Candidate>, funnelType: string, firstId: nat, clock: Instant): (r: seq<FunnelEntry>)
    ensures |r| == |rows|
    ensures forall k :: 0 <= k < |rows| ==> r[k] == FunnelEntry(firstId + k, rows[k].email, funnelType, None, None, clock, false, None)
  {
    seq(|rows|, k requires 0 <= k < |rows| => FunnelEntry(firstId + k, rows[k].email, funnelType, None, None, clock, false, None))
  }

  function InsertsFor(rows: seq<Candidate>, funnelType: string): (r: seq<Statement>)
    ensures |r| == |rows|
    ensures forall k :: 0 <= k < |rows| ==> r[k] == InsertEntry(rows[k].email, funnelType, None, None)
  {
    seq(|rows|, k requires 0 <= k < |rows| => InsertEntry(rows[k].email, funnelType, None, None))
  }

  /** The gateway accepts every contact of the pass. */
  predicate AllAccepted(rows: seq<Candidate>, funnelType: string, listId: int,
                        respond: (nat, BrevoContact) -> Result<Json, Failure>, calls: nat) {
    forall k :: 0 <= k < |rows| ==> respond(calls + k, ContactFor(CandidateFor(rows[k], funnelType), listId)).Ok?
  }

  /** One accepted candidate adds its contact, one entry, one insert and one commit. */
  lemma AcceptedStep(s: SyncState, c: FunnelCandidate, listId: int, clock: Instant,
                     respond: (nat, BrevoContact) -> Result<Json, Failure>)
    requires c.testId.None? && respond(|s.sent|, ContactFor(c, listId)).Ok?
    ensures CandidateStep(s, c, listId, clock, respond) ==
      s.(rows := s.rows + [FunnelEntry(s.nextId, c.email, c.funnelType, c.userId, None, clock, false, None)],
         nextId := s.nextId + 1,
         executed := s.executed + [InsertEntry(c.email, c.funnelType, c.userId, None)],
         commits := s.commits + 1,
         sent := s.sent + [ContactFor(c, listId)])
  {
    NoCollisionWithoutTestId(s.rows, c.email, c.funnelType);
  }

  lemma RowsSpecUnfold(rows: seq<Candidate>, funnelType: string, listId: int, clock: Instant,
                       respond: (nat, BrevoContact) -> Result<Json, Failure>, s: SyncState)
    requires rows != [] && s.outcome.Ok?
    ensures RowsSpec(rows, funnelType, listId, clock, respond, s) ==
      RowsSpec(rows[1..], funnelType, listId, clock, respond, CandidateStep(s, CandidateFor(rows[0], funnelType), listId, clock, respond))
  {
  }

  /** The state a fully accepted pass over `rows` ends in, from `s`. */
  function AcceptedState(rows: seq<Candidate>, funnelType: string, listId: int, clock: Instant, s: SyncState): SyncState {
    SyncState(s.rows + EntriesFor(rows, funnelType, s.nextId, clock), s.nextId + |rows|,
              s.executed + InsertsFor(rows, funnelType), s.commits + |rows|,
              s.sent + ContactsFor(rows, funnelType, listId), s.outcome)
  }

  lemma AcceptedStateCons(rows: seq<Candidate>, funnelType: string, listId: int, clock: Instant, s: SyncState, s1: SyncState)
    requires rows != []
    requires s1 == s.(rows := s.rows + [FunnelEntry(s.nextId, rows[0].email, funnelType, None, None, clock, false, None)],
                      nextId := s.nextId + 1,
                      executed := s.executed + [InsertEntry(rows[0].email, funnelType, None, None)],
                      commits := s.commits + 1,
                      sent := s.sent + [ContactFor(CandidateFor(rows[0], funnelType), listId)])
    ensures AcceptedState(rows[1..], funnelType, listId, clock, s1) == AcceptedState(rows, funnelType, listId, clock, s)
  {
    EntriesForCons(rows, funnelType, s.nextId, clock);
    InsertsForCons(rows, funnelType);
    ContactsForCons(rows, funnelType, listId);
    var e0 := FunnelEntry(s.nextId, rows[0].email, funnelType, None, None, clock, false, None);
    SeqOps.ConcatAssoc(s.rows, [e0], EntriesFor(rows[1..], funnelType, s1.nextId, clock));
    SeqOps.ConcatAssoc(s.executed, [InsertEntry(rows[0].email, funnelType, None, None)], InsertsFor(rows[1..], funnelType));
    SeqOps.ConcatAssoc(s.sent, [ContactFor(CandidateFor(rows[0], funnelType), listId)], ContactsFor(rows[1..], funnelType, listId));
  }

  /** When the gateway accepts every contact, each candidate gives exactly one
      contact and then exactly one new entry with its email and the funnel's
      type, in row order, with one insert and one commit each; nothing else
      changes. */
  lemma {:induction false} RowsSpecAllAccepted(rows: seq<Candidate>, funnelType: string, listId: int, clock: Instant,
                                               respond: (nat, BrevoContact) -> Result<Json, Failure>, s: SyncState)
    requires s.outcome.Ok?
    requires AllAccepted(rows, funnelType, listId, respond, |s.sent|)
    ensures RowsSpec(rows, funnelType, listId, clock, respond, s) == AcceptedState(rows, funnelType, listId, clock, s)
    decreases |rows|
  {
    if rows == [] {
      assert EntriesFor(rows, funnelType, s.nextId, clock) == [];
      assert InsertsFor(rows, funnelType) == [];
      assert ContactsFor(rows, funnelType, listId) == [];
    } else {
      var c := CandidateFor(rows[0], funnelType);
      AcceptedStep(s, c, listId, clock, respond);
      RowsSpecUnfold(rows, funnelType, listId, clock, respond, s);
      var s1 := CandidateStep(s, c, listId, clock, respond);
      AllAcceptedTail(rows, funnelType, listId, respond, |s.sent|);
      RowsSpecAllAccepted(rows[1..], funnelType, listId, clock, respond, s1);
      AcceptedStateCons(rows, funnelType, listId, clock, s, s1);
    }
  }

  lemma AllAcceptedTail(rows: seq<Candidate>, funnelType: string, listId: int,
                        respond: (nat, BrevoContact) -> Result<Json, Failure>, calls: nat)
    requires rows != [] && AllAccepted(rows, funnelType, listId, respond, calls)
    ensures AllAccepted(rows[1..], funnelType, listId, respond, calls + 1)
  {
    forall k | 0 <= k < |rows[1..]|
      ensures respond(calls + 1 + k, ContactFor(CandidateFor(rows[1..][k], funnelType), listId)).Ok?
    {
      assert rows[1..][k] == rows[k + 1];
    }
  }

  lemma EntriesForCons(rows: seq<Candidate>, funnelType: string, firstId: nat, clock: Instant)
    requires rows != []
    ensures EntriesFor(rows, funnelType, firstId, clock) ==
      [FunnelEntry(firstId, rows[0].email, funnelType, None, None, clock, false, None)] + EntriesFor(rows[1..], funnelType, firstId + 1, clock)
  {
    var a := EntriesFor(rows, funnelType, firstId, clock);
    var b := [FunnelEntry(firstId, rows[0].email, funnelType, None, None, clock, false, None)] + EntriesFor(rows[1..], funnelType, firstId + 1, clock);
    forall k | 0 <= k < |a| ensures a[k] == b[k] {
      if k > 0 { assert rows[1..][k - 1] == rows[k]; }
    }
  }

  lemma InsertsForCons(rows: seq<Candidate>, funnelType: string)
    requires rows != []
    ensures InsertsFor(rows, funnelType) == [InsertEntry(rows[0].email, funnelType, None, None)] + InsertsFor(rows[1..], funnelType)
  {
    var a := InsertsFor(rows, funnelType);
    var b := [InsertEntry(rows[0].email, funnelType, None, None)] + InsertsFor(rows[1..], funnelType);
    forall k | 0 <= k < |a| ensures a[k] == b[k] {
      if k > 0 { assert rows[1..][k - 1] == rows[k]; }
    }
  }

  lemma ContactsForCons(rows: seq<Candidate>, funnelType: string, listId: int)
    requires rows != []
    ensures ContactsFor(rows, funnelType, listId) == [ContactFor(CandidateFor(rows[0], funnelType), listId)] + ContactsFor(rows[1..], funnelType, listId)
  {
    var a := ContactsFor(rows, funnelType, listId);
    var b := [ContactFor(CandidateFor(rows[0], funnelType), listId)] + ContactsFor(rows[1..], funnelType, listId);
    forall k | 0 <= k < |a| ensures a[k] == b[k] {
      if k > 0 { assert rows[1..][k - 1] == rows[k]; }
    }
  }

  /** Whatever the gateway answers, the pass makes one contact call per entry
      it creates, plus the call that failed if one did: an entry never exists
      without its contact. */
  lemma {:induction false} RowsSpecCallsMatchEntries(rows: seq<Candidate>, funnelType: string, listId: int, clock: Instant,
                                                     respond: (nat, BrevoContact) -> Result<Json, Failure>, s: SyncState)
    requires s.outcome.Ok?
    ensures var s' := RowsSpec(rows, funnelType, listId, clock, respond, s);
      |s'.sent| - |s.sent| == |s'.rows| - |s.rows| + (if s'.outcome.Err? then 1 else 0) &&
      |s'.rows| - |s.rows| == |s'.executed| - |s.executed| == s'.commits - s.commits &&
      |s.rows| <= |s'.rows| && |s'.sent| - |s.sent| <= |rows| && s'.rows[..|s.rows|] == s.rows
    decreases |rows|
  {
    if rows != [] {
      var c := CandidateFor(rows[0], funnelType);
      NoCollisionWithoutTestId(s.rows, c.email, funnelType);
      var s1 := CandidateStep(s, c, listId, clock, respond);
      RowsSpecUnfold(rows, funnelType, listId, clock, respond, s);
      if s1.outcome.Ok? {
        RowsSpecCallsMatchEntries(rows[1..], funnelType, listId, clock, respond, s1);
        var s' := RowsSpec(rows, funnelType, listId, clock, respond, s);
        assert s1.rows[..|s.rows|] == s.rows;
        assert s'.rows[..|s.rows|] == s'.rows[..|s1.rows|][..|s.rows|];
      }
    }
  }

  lemma RowsSpecStopped(rows: seq<Candidate>, funnelType: string, listId: int, clock: Instant,
                        respond: (nat, BrevoContact) -> Result<Json, Failure>, s: SyncState)
    requires s.outcome.Err?
    ensures RowsSpec(rows, funnelType, listId, clock, respond, s) == s
  {
  }

  /** Nothing to process means no contact call and no entry. */
  lemma NoRowsNoEffect(funnelType: string, listId: int, clock: Instant,
                       respond: (nat, BrevoContact) -> Result<Json, Failure>, s: SyncState)
    ensures FunnelSpec([], funnelType, listId, clock, respond, s) == s
  {
  }

  /** What `sync` does: the language funnel, then the non-language funnel,
      each skipped when its list id is not positive; the second only after
      the first has finished without an exception. */
  function SyncSpec(language: seq<Candidate>, nonLanguage: seq<Candidate>, languageListId: int, nonLanguageListId: int,
                    clock: Instant, respond: (nat, BrevoContact) -> Result<Json, Failure>, s: SyncState): SyncState {
    var s1 := FunnelSpec(language, Funnels.Language, languageListId, clock, respond, s);
    if s1.outcome.Err? then s1 else FunnelSpec(nonLanguage, Funnels.NonLanguage, nonLanguageListId, clock, respond, s1)
  }

  /** A language candidate that a successful run processed is in the language
      funnel afterwards, so no later selection picks it again. */
  lemma ProcessedCandidateIsNotSelectedAgain(rows: seq<Candidate>, listId: int, clock: Instant,
                                             respond: (nat, BrevoContact) -> Result<Json, Failure>, s: SyncState,
                                             k: nat, u: TestUser, now: Instant)
    requires s.outcome.Ok? && listId > 0
    requires AllAccepted(rows, Funnels.Language, listId, respond, |s.sent|)
    requires k < |rows| && u.email == Some(rows[k].email)
    ensures !IsLanguageCandidate(u, FunnelSpec(rows, Funnels.Language, listId, clock, respond, s).rows, now)
  {
    RowsSpecAllAccepted(rows, Funnels.Language, listId, clock, respond, s);
    var after := FunnelSpec(rows, Funnels.Language, listId, clock, respond, s).rows;
    var added := EntriesFor(rows, Funnels.Language, s.nextId, clock);
    assert after[|s.rows| + k] == added[k];
    assert InLanguageFunnel(after, rows[k].email);
  }

  class FunnelSyncService {
    const connection: Database
    const gateway: ContactGateway
    const languageListId: int
    const nonLanguageListId: int

    constructor (connection: Database, gateway: ContactGateway, languageListId: int, nonLanguageListId: int)
      ensures this.connection == connection && this.gateway == gateway
      ensures this.languageListId == languageListId && this.nonLanguageListId == nonLanguageListId
    {
      this.connection := connection;
      this.gateway := gateway;
      this.languageListId := languageListId;
      this.nonLanguageListId := nonLanguageListId;
    }

    ghost function State(outcome: Result<(), Failure>): SyncState
      reads connection, gateway
    {
      SyncState(connection.funnelEntries, connection.nextEntryId, connection.executed, connection.commits, gateway.sent, outcome)
    }

    /** `_process_candidate`. */
    method ProcessCandidate(c: FunnelCandidate, listId: int) returns (r: Result<(), Failure>)
      requires connection.Valid() && connection != gateway as object
      modifies connection, gateway
      ensures connection.Valid()
      ensures State(r) == CandidateStep(old(State(Ok(()))), c, listId, connection.clock, gateway.respond)
    {
      ghost var s0 := State(Ok(()));
      var reply := gateway.CreateOrUpdateContact(ContactFor(c, listId));
      ghost var s1 := s0.(sent := s0.sent + [ContactFor(c, listId)]);
      assert State(Ok(())) == s1;
      assert reply == gateway.respond(|s0.sent|, ContactFor(c, listId));
      if reply.Err? {
        r := Err(reply.error);
        assert State(r) == s1.(outcome := Err(reply.error));
        return;
      }
      r := CreateFunnelEntry(connection, c.email, c.funnelType, c.userId, c.testId);
      assert State(r) == InsertStep(s1, c, connection.clock);
    }

    /** `_sync_language_funnel` and `_sync_non_language_funnel`, which differ
        only in the funnel type and the list id. */
    method SyncFunnel(rows: seq<Candidate>, funnelType: string, listId: int) returns (r: Result<(), Failure>)
      requires connection.Valid() && connection != gateway as object
      modifies connection, gateway
      ensures connection.Valid()
      ensures r.Ok? ==> r == Ok(())
      ensures State(r) == FunnelSpec(rows, funnelType, listId, connection.clock, gateway.respond, old(State(Ok(()))))
    {
      if listId <= 0 {
        return Ok(());
      }
      r := Ok(());
      var i := 0;
      while i < |rows|
        invariant 0 <= i <= |rows|
        invariant connection.Valid()
        invariant r == Ok(())
        invariant RowsSpec(rows[i..], funnelType, listId, connection.clock, gateway.respond, State(r)) ==
                  RowsSpec(rows, funnelType, listId, connection.clock, gateway.respond, old(State(Ok(()))))
      {
        assert rows[i..][0] == rows[i] && rows[i..][1..] == rows[i + 1..];
        RowsSpecUnfold(rows[i..], funnelType, listId, connection.clock, gateway.respond, State(r));
        r := ProcessCandidate(CandidateFor(rows[i], funnelType), listId);
        if r.Err? {
          return;
        }
        i := i + 1;
      }
    }

    /** `sync(max_rows_per_type)`: both selections are read first, with the
        same limit; then the language funnel and the non-language funnel are
        synchronised in that order, and an exception ends the run. */
    method Sync(maxRowsPerType: nat) returns (r: Result<(), Failure>)
      requires connection.Valid() && connection != gateway as object
      modifies connection, gateway
      ensures connection.Valid()
      ensures State(r) == SyncSpec(
        old(GetLanguageTestCandidates(connection, maxRowsPerType)), [],
        languageListId, nonLanguageListId, connection.clock, gateway.respond, old(State(Ok(()))))
    {
      ghost var s0 := State(Ok(()));
      var languageRows := GetLanguageTestCandidates(connection, maxRowsPerType);
      var nonLanguageRows := GetNonLanguageTestCandidates(connection, maxRowsPerType);
      assert nonLanguageRows == [];
      r := SyncFunnel(languageRows, Funnels.Language, languageListId);
      ghost var s1 := FunnelSpec(languageRows, Funnels.Language, languageListId, connection.clock, gateway.respond, s0);
      assert State(r) == s1;
      if r.Err? {
        return;
      }
      assert r == Ok(());
      r := SyncFunnel(nonLanguageRows, Funnels.NonLanguage, nonLanguageListId);
      NoRowsNoEffect(Funnels.NonLanguage, nonLanguageListId, connection.clock, gateway.respond, s1);
    }
  }
}
