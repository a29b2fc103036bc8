/** The outbox table `brevo_sync_outbox`, as the worker uses it. Its own
    module (brevo/outbox.py) is not part of this model; the table is given
    the least behaviour the worker relies on: pending jobs are fetched in
    table order up to a limit, and a mark records the job's final status. */
module Outbox {
  import opened SeqOps

  datatype JobStatus = Pending | Success | Error(message: string)

  /** One queued job: its id, `operation_type` and JSON `payload` text. */
  datatype SyncJob = SyncJob(id: nat, operationType: string, payload: string)

  /** The calls the worker makes on the outbox, in order. */
  datatype OutboxCall = Fetch(limit: nat) | MarkSuccess(jobId: nat) | MarkError(jobId: nat, message: string)

  predicate IsPending(status: map<nat, JobStatus>, job: SyncJob) {
    job.id in status && status[job.id] == Pending
  }

  function PendingFilter(status: map<nat, JobStatus>): SyncJob -> bool {
    (j: SyncJob) => IsPending(status, j)
  }

  /** The effect of a sequence of marks on the status column. A mark of an id
      the table does not hold changes nothing. */
  function ApplyMarks(status: map<nat, JobStatus>, marks: seq<OutboxCall>): (r: map<nat, JobStatus>)
    ensures r.Keys == status.Keys
  {
    if marks == [] then status
    else
      var m := marks[0];
      var next :=
        if m.Fetch? || m.jobId !in status then status
        else status[m.jobId := if m.MarkSuccess? then Success else Error(m.message)];
      ApplyMarks(next, marks[1..])
  }

  class OutboxTable {
    const jobs: seq<SyncJob>
    var status: map<nat, JobStatus>
    var calls: seq<OutboxCall>

    constructor (jobs: seq<SyncJob>, status: map<nat, JobStatus>)
      ensures this.jobs == jobs && this.status == status && calls == []
    {
      this.jobs := jobs;
      this.status := status;
      calls := [];
    }

    /** `fetch_pending_jobs(limit)`: the first `limit` pending jobs, oldest first. */
    method FetchPendingJobs(limit: nat) returns (r: seq<SyncJob>)
      modifies this`calls
      ensures calls == old(calls) + [Fetch(limit)]
      ensures r == Take(Filter(jobs, PendingFilter(status)), limit)
    {
      calls := calls + [Fetch(limit)];
      r := Take(Filter(jobs, PendingFilter(status)), limit);
    }

    /** `mark_job_success(job_id)`. */
    method MarkJobSuccess(jobId: nat)
      modifies this
      ensures calls == old(calls) + [MarkSuccess(jobId)]
      ensures status == ApplyMarks(old(status), [MarkSuccess(jobId)])
    {
      status := ApplyMarks(status, [MarkSuccess(jobId)]);
      calls := calls + [MarkSuccess(jobId)];
    }

    /** `mark_job_error(job_id, message)`. */
    method MarkJobError(jobId: nat, message: string)
      modifies this
      ensures calls == old(calls) + [MarkError(jobId, message)]
      ensures status == ApplyMarks(old(status), [MarkError(jobId, message)])
    {
      status := ApplyMarks(status, [MarkError(jobId, message)]);
      calls := calls + [MarkError(jobId, message)];
    }
  }

  lemma {:induction false} ApplyMarksConcat(status: map<nat, JobStatus>, a: seq<OutboxCall>, b: seq<OutboxCall>)
    ensures ApplyMarks(status, a + b) == ApplyMarks(ApplyMarks(status, a), b)
  {
    if a != [] {
      assert (a + b)[0] == a[0];
      assert (a + b)[1..] == a[1..] + b;
      var m := a[0];
      var next :=
        if m.Fetch? || m.jobId !in status then status
        else status[m.jobId := if m.MarkSuccess? then Success else Error(m.message)];
      ApplyMarksConcat(next, a[1..], b);
    } else {
      assert a + b == b;
    }
  }
}

/** The outbox worker (brevo/sync_worker.py): every fetched job is turned into
    a contact, sent once, and marked once. */
module SyncWorker {
  import opened Wrappers
  import opened JsonValue
  import opened Text
  import opened BrevoModels
  import opened Gateway
  import opened Outbox

  /** A job payload after `json.loads`: the fields the worker reads, each
      absent or present. */
  datatype JobPayload = JobPayload(
    email: Option<string>,
    listIds: Option<seq<int>>,
    attributes: Option<map<string, Json>>,
    updateEnabled: Option<bool>,
    purchasedAt: Option<Json>)

  /** `json.loads`: a payload, or the text of the decoding error. */
  type Decoder = string -> Result<JobPayload, string>

  const UpsertContact: string := "upsert_contact"
  const UpdateAfterPurchase: string := "update_after_purchase"
  const MissingEmailMessage: string := "Missing required field 'email' in payload"

  function InvalidJsonMessage(jobId: nat, error: string): string {
    "Invalid JSON payload for job " + IntToString(jobId) + ": " + error
  }

  function UnknownOperationMessage(operationType: string, jobId: nat): string {
    "Unknown operation_type '" + operationType + "' for job " + IntToString(jobId)
  }

  function GetOr<T>(o: Option<T>, default: T): T {
    if o.Some? then o.value else default
  }

  /** `_process_upsert_contact`, up to the call: the payload's fields, with
      the contact defaults for those it leaves out. */
  function UpsertContactFor(p: JobPayload): (r: Result<BrevoContact, Failure>)
    ensures p.email.None? <==> r.Err?
    ensures r.Err? ==> r.error == Failure(Value, MissingEmailMessage)
    ensures r.Ok? ==> r.value.email == p.email.value
    ensures r.Ok? ==> r.value.listIds == (if p.listIds.Some? then p.listIds.value else [])
    ensures r.Ok? ==> r.value.attributes == (if p.attributes.Some? then p.attributes.value else map[])
    ensures r.Ok? ==> r.value.updateEnabled == (p.updateEnabled.None? || p.updateEnabled.value)
  {
    if p.email.None? then Err(Failure(Value, MissingEmailMessage))
    else Ok(BrevoContact(p.email.value, GetOr(p.listIds, []), GetOr(p.attributes, map[]), GetOr(p.updateEnabled, true)))
  }

  /** The attributes of an after-purchase contact: the payload's attributes
      with the two purchase attributes set over them. */
  function PurchaseAttributes(p: JobPayload): (a: map<string, Json>)
    ensures a.Keys == GetOr(p.attributes, map[]).Keys + {"CERTIFICATE_PURCHASED", "CERTIFICATE_PURCHASED_AT"}
    ensures a["CERTIFICATE_PURCHASED"] == JInt(1)
    ensures a["CERTIFICATE_PURCHASED_AT"] == GetOr(p.purchasedAt, JString(""))
    ensures forall k :: k in GetOr(p.attributes, map[]) && k != "CERTIFICATE_PURCHASED" && k != "CERTIFICATE_PURCHASED_AT" ==>
      a[k] == GetOr(p.attributes, map[])[k]
  {
    GetOr(p.attributes, map[])["CERTIFICATE_PURCHASED" := JInt(1)]["CERTIFICATE_PURCHASED_AT" := GetOr(p.purchasedAt, JString(""))]
  }

  /** `_process_update_after_purchase`, up to the call. */
  function AfterPurchaseContactFor(p: JobPayload): (r: Result<BrevoContact, Failure>)
    ensures p.email.None? <==> r.Err?
    ensures r.Err? ==> r.error == Failure(Value, MissingEmailMessage)
    ensures r.Ok? ==> r.value.email == p.email.value && r.value.updateEnabled
    ensures r.Ok? ==> r.value.listIds == (if p.listIds.Some? then p.listIds.value else [])
    ensures r.Ok? ==> r.value.attributes == PurchaseAttributes(p)
  {
    if p.email.None? then Err(Failure(Value, MissingEmailMessage))
    else Ok(BrevoContact(p.email.value, GetOr(p.listIds, []), PurchaseAttributes(p), true))
  }

  /** `_process_job` up to the gateway call: decode first, then dispatch on
      the operation type. Only a well-formed job of a known operation with an
      email yields a contact; every other job yields a `ValueError`. */
  function ContactForJob(job: SyncJob, decode: Decoder): (r: Result<BrevoContact, Failure>)
    ensures r.Err? ==> r.error.kind == Value
    ensures decode(job.payload).Err? ==>
      r == Err(Failure(Value, InvalidJsonMessage(job.id, decode(job.payload).error)))
    ensures decode(job.payload).Ok? && job.operationType != UpsertContact && job.operationType != UpdateAfterPurchase ==>
      r == Err(Failure(Value, UnknownOperationMessage(job.operationType, job.id)))
    ensures decode(job.payload).Ok? && job.operationType == UpsertContact ==>
      r == UpsertContactFor(decode(job.payload).value)
    ensures decode(job.payload).Ok? && job.operationType == UpdateAfterPurchase ==>
      r == AfterPurchaseContactFor(decode(job.payload).value)
  {
    match decode(job.payload)
    case Err(e) => Err(Failure(Value, InvalidJsonMessage(job.id, e)))
    case Ok(p) =>
      if job.operationType == UpsertContact then UpsertContactFor(p)
      else if job.operationType == UpdateAfterPurchase then AfterPurchaseContactFor(p)
      else Err(Failure(Value, UnknownOperationMessage(job.operationType, job.id)))
  }

  /** The three error texts carry what the worker's log and the outbox row
      need: the phrase naming the problem, and the job id or operation type. */
  lemma ErrorMessagesName(job: SyncJob, error: string)
    ensures IsInfix("Invalid JSON payload", InvalidJsonMessage(job.id, error))
    ensures IsInfix(error, InvalidJsonMessage(job.id, error))
    ensures IsInfix("Unknown operation_type", UnknownOperationMessage(job.operationType, job.id))
    ensures IsInfix(job.operationType, UnknownOperationMessage(job.operationType, job.id))
    ensures IsInfix("Missing required field 'email'", MissingEmailMessage)
  {
    var json := InvalidJsonMessage(job.id, error);
    assert InfixAt("Invalid JSON payload", json, 0);
    assert InfixAt(error, json, |json| - |error|);
    var unknown := UnknownOperationMessage(job.operationType, job.id);
    assert InfixAt("Unknown operation_type", unknown, 0);
    assert InfixAt(job.operationType, unknown, |"Unknown operation_type '"|);
    assert InfixAt("Missing required field 'email'", MissingEmailMessage, 0);
  }

  /** The mark a job ends with: success when the gateway call returned, an
      error with the exception's text otherwise. */
  function MarkFor(job: SyncJob, contact: Result<BrevoContact, Failure>, reply: Result<Json, Failure>): OutboxCall {
    if contact.Err? then MarkError(job.id, contact.error.message)
    else if reply.Err? then MarkError(job.id, reply.error.message)
    else MarkSuccess(job.id)
  }

  /** How `_process_job` turns a job into a contact, or into the error it
      raises before reaching the gateway. */
  type JobContact = SyncJob -> Result<BrevoContact, Failure>

  /** The worker's own job-to-contact step, `ContactForJob` with its decoder. */
  function JobContacts(decode: Decoder): (f: JobContact)
    ensures forall job :: f(job) == ContactForJob(job, decode)
  {
    job => ContactForJob(job, decode)
  }

  /** What `run_once` does after the fetch, job by job: the contacts sent so
      far (whose count numbers the gateway's calls) and the marks made. */
  function RunSpec(jobs: seq<SyncJob>, contactOf: JobContact, respond: (nat, BrevoContact) -> Result<Json, Failure>,
                   sent: seq<BrevoContact>, marks: seq<OutboxCall>): (seq<BrevoContact>, seq<OutboxCall>)
    decreases |jobs|
  {
    if jobs == [] then (sent, marks)
    else
      var job := jobs[0];
      var contact := contactOf(job);
      if contact.Err? then
        RunSpec(jobs[1..], contactOf, respond, sent, marks + [MarkFor(job, contact, Ok(JNull))])
      else
        var reply := respond(|sent|, contact.value);
        RunSpec(jobs[1..], contactOf, respond, sent + [contact.value], marks + [MarkFor(job, contact, reply)])
  }

  /** The state after the first job. */
  function RunStep(job: SyncJob, contactOf: JobContact, respond: (nat, BrevoContact) -> Result<Json, Failure>,
                   sent: seq<BrevoContact>, marks: seq<OutboxCall>): (seq<BrevoContact>, seq<OutboxCall>)
  {
    var contact := contactOf(job);
    if contact.Err? then (sent, marks + [MarkFor(job, contact, Ok(JNull))])
    else (sent + [contact.value], marks + [MarkFor(job, contact, respond(|sent|, contact.value))])
  }

  /** The step's mark does not depend on the marks before it. */
  lemma RunStepMarks(job: SyncJob, contactOf: JobContact, respond: (nat, BrevoContact) -> Result<Json, Failure>,
                     sent: seq<BrevoContact>, marks: seq<OutboxCall>)
    ensures var (s0, m0) := RunStep(job, contactOf, respond, sent, []);
      RunStep(job, contactOf, respond, sent, marks) == (s0, marks + m0)
  {
    var contact := contactOf(job);
    var reply := if contact.Err? then Ok(JNull) else respond(|sent|, contact.value);
    assert [] + [MarkFor(job, contact, reply)] == [MarkFor(job, contact, reply)];
  }

  lemma RunSpecUnfold(jobs: seq<SyncJob>, contactOf: JobContact, respond: (nat, BrevoContact) -> Result<Json, Failure>,
                      sent: seq<BrevoContact>, marks: seq<OutboxCall>)
    requires jobs != []
    ensures var step := RunStep(jobs[0], contactOf, respond, sent, marks);
      RunSpec(jobs, contactOf, respond, sent, marks) == RunSpec(jobs[1..], contactOf, respond, step.0, step.1)
  {
  }

  /** The loop of `run_once` after its i-th job: the run of the remaining
      jobs from the new state is the run of the jobs from the i-th on. */
  lemma RunSpecAdvance(jobs: seq<SyncJob>, i: nat, contactOf: JobContact, respond: (nat, BrevoContact) -> Result<Json, Failure>,
                       sent: seq<BrevoContact>, marks: seq<OutboxCall>, sent1: seq<BrevoContact>, m: OutboxCall)
    requires i < |jobs|
    requires (sent1, [m]) == RunStep(jobs[i], contactOf, respond, sent, [])
    ensures RunSpec(jobs[i..], contactOf, respond, sent, marks) == RunSpec(jobs[i + 1..], contactOf, respond, sent1, marks + [m])
  {
    RunSpecUnfold(jobs[i..], contactOf, respond, sent, marks);
    assert jobs[i..][0] == jobs[i] && jobs[i..][1..] == jobs[i + 1..];
    RunStepMarks(jobs[i], contactOf, respond, sent, marks);
  }

  /** How many of `jobs` yield a contact. */
  function ContactCount(jobs: seq<SyncJob>, contactOf: JobContact): nat
    decreases |jobs|
  {
    if jobs == [] then 0 else (if contactOf(jobs[0]).Ok? then 1 else 0) + ContactCount(jobs[1..], contactOf)
  }

  /** The first job adds one mark, and one contact exactly when it yields one. */
  lemma RunStepSent(job: SyncJob, contactOf: JobContact, respond: (nat, BrevoContact) -> Result<Json, Failure>,
                    sent: seq<BrevoContact>, marks: seq<OutboxCall>)
    ensures |RunStep(job, contactOf, respond, sent, marks).0| == |sent| + (if contactOf(job).Ok? then 1 else 0)
    ensures |RunStep(job, contactOf, respond, sent, marks).1| == |marks| + 1
  {
  }

  /** One mark per job and one call per contact: the run extends both logs,
      adding a mark for every job and a contact for every job that yields
      one. */
  lemma {:induction false} RunSpecLengths(jobs: seq<SyncJob>, contactOf: JobContact, respond: (nat, BrevoContact) -> Result<Json, Failure>,
                                          sent: seq<BrevoContact>, marks: seq<OutboxCall>)
    ensures var after := RunSpec(jobs, contactOf, respond, sent, marks);
      |after.1| == |marks| + |jobs| && after.1[..|marks|] == marks &&
      |after.0| == |sent| + ContactCount(jobs, contactOf) && after.0[..|sent|] == sent
    decreases |jobs|
  {
    if jobs != [] {
      var step := RunStep(jobs[0], contactOf, respond, sent, marks);
      RunSpecUnfold(jobs, contactOf, respond, sent, marks);
      RunSpecLengths(jobs[1..], contactOf, respond, step.0, step.1);
      RunStepSent(jobs[0], contactOf, respond, sent, marks);
      var after := RunSpec(jobs, contactOf, respond, sent, marks);
      assert after.1[..|marks|] == after.1[..|step.1|][..|marks|];
      assert after.0[..|sent|] == after.0[..|step.0|][..|sent|];
    }
  }

  /** The mark the first job adds names it, and carries the error's text
      when the job yields no contact. */
  lemma RunStepLastMark(job: SyncJob, contactOf: JobContact, respond: (nat, BrevoContact) -> Result<Json, Failure>,
                        sent: seq<BrevoContact>, marks: seq<OutboxCall>)
    ensures |RunStep(job, contactOf, respond, sent, marks).1| == |marks| + 1
    ensures var m := RunStep(job, contactOf, respond, sent, marks).1[|marks|];
      !m.Fetch? && m.jobId == job.id &&
      (contactOf(job).Err? ==> m == MarkError(job.id, contactOf(job).error.message))
  {
  }

  /** The mark of the k-th fetched job names that job, and a job that yields
      no contact is marked with the error's text. */
  lemma {:induction false} RunSpecMarkAt(jobs: seq<SyncJob>, contactOf: JobContact, respond: (nat, BrevoContact) -> Result<Json, Failure>,
                                         sent: seq<BrevoContact>, marks: seq<OutboxCall>, k: nat)
    requires k < |jobs|
    ensures var after := RunSpec(jobs, contactOf, respond, sent, marks);
      |marks| + k < |after.1| &&
      !after.1[|marks| + k].Fetch? && after.1[|marks| + k].jobId == jobs[k].id &&
      (contactOf(jobs[k]).Err? ==>
         after.1[|marks| + k] == MarkError(jobs[k].id, contactOf(jobs[k]).error.message))
    decreases |jobs|
  {
    var step := RunStep(jobs[0], contactOf, respond, sent, marks);
    RunSpecUnfold(jobs, contactOf, respond, sent, marks);
    var after := RunSpec(jobs, contactOf, respond, sent, marks);
    if k == 0 {
      RunSpecLengths(jobs[1..], contactOf, respond, step.0, step.1);
      RunStepLastMark(jobs[0], contactOf, respond, sent, marks);
      assert after.1[|marks|] == after.1[..|step.1|][|marks|];
    } else {
      assert jobs[1..][k - 1] == jobs[k];
      RunSpecMarkAt(jobs[1..], contactOf, respond, step.0, step.1, k - 1);
      RunStepSent(jobs[0], contactOf, respond, sent, marks);
    }
  }

  /** A job that yields a contact makes exactly one gateway call with it,
      the call numbered after the contacts of the jobs before it, and is
      marked a success exactly when that call returns; when it raises, the
      job is marked with the exception's text. */
  lemma {:induction false} RunSpecCallAt(jobs: seq<SyncJob>, contactOf: JobContact, respond: (nat, BrevoContact) -> Result<Json, Failure>,
                                         sent: seq<BrevoContact>, marks: seq<OutboxCall>, k: nat)
    requires k < |jobs| && contactOf(jobs[k]).Ok?
    ensures var after := RunSpec(jobs, contactOf, respond, sent, marks);
      var n := |sent| + ContactCount(jobs[..k], contactOf);
      var reply := respond(n, contactOf(jobs[k]).value);
      n < |after.0| && after.0[n] == contactOf(jobs[k]).value &&
      |marks| + k < |after.1| &&
      (reply.Ok? ==> after.1[|marks| + k] == MarkSuccess(jobs[k].id)) &&
      (reply.Err? ==> after.1[|marks| + k] == MarkError(jobs[k].id, reply.error.message))
    decreases |jobs|
  {
    var step := RunStep(jobs[0], contactOf, respond, sent, marks);
    RunSpecUnfold(jobs, contactOf, respond, sent, marks);
    var after := RunSpec(jobs, contactOf, respond, sent, marks);
    if k == 0 {
      RunSpecLengths(jobs[1..], contactOf, respond, step.0, step.1);
      assert jobs[..0] == [];
      assert after.0[|sent|] == after.0[..|step.0|][|sent|] == step.0[|sent|];
      assert after.1[|marks|] == after.1[..|step.1|][|marks|] == step.1[|marks|];
    } else {
      assert jobs[1..][k - 1] == jobs[k];
      RunSpecCallAt(jobs[1..], contactOf, respond, step.0, step.1, k - 1);
      RunStepSent(jobs[0], contactOf, respond, sent, marks);
      var before := jobs[..k];
      assert before[0] == jobs[0] && before[1..] == jobs[1..][..k - 1];
      assert |sent| + ContactCount(before, contactOf) == |step.0| + ContactCount(jobs[1..][..k - 1], contactOf);
      assert |marks| + k == |step.1| + (k - 1);
    }
  }

  class BrevoSyncWorker {
    const outbox: OutboxTable
    const gateway: ContactGateway
    /** `json.loads`. */
    const decode: Decoder

    constructor (outbox: OutboxTable, gateway: ContactGateway, decode: Decoder)
      ensures this.outbox == outbox && this.gateway == gateway && this.decode == decode
    {
      this.outbox := outbox;
      this.gateway := gateway;
      this.decode := decode;
    }

    /** One turn of the loop of `run_once`: `_process_job`, then the job's mark. */
    method ProcessAndMark(job: SyncJob) returns (ghost m: OutboxCall)
      requires outbox != gateway as object
      modifies outbox, gateway
      ensures (gateway.sent, [m]) == RunStep(job, JobContacts(decode), gateway.respond, old(gateway.sent), [])
      ensures outbox.calls == old(outbox.calls) + [m]
      ensures outbox.status == ApplyMarks(old(outbox.status), [m])
    {
      var contact := ContactForJob(job, decode);
      if contact.Err? {
        m := MarkFor(job, contact, Ok(JNull));
        outbox.MarkJobError(job.id, contact.error.message);
      } else {
        var reply := gateway.CreateOrUpdateContact(contact.value);
        m := MarkFor(job, contact, reply);
        if reply.Ok? {
          outbox.MarkJobSuccess(job.id);
        } else {
          outbox.MarkJobError(job.id, reply.error.message);
        }
      }
      assert [] + [m] == [m];
    }

    /** `run_once(limit)`: one fetch, then every fetched job in order. No
        per-job failure escapes: it becomes the job's error mark. */
    method RunOnce(limit: nat)
      requires outbox != gateway as object
      modifies outbox, gateway
      ensures var jobs := SeqOps.Take(SeqOps.Filter(outbox.jobs, PendingFilter(old(outbox.status))), limit);
        var after := RunSpec(jobs, JobContacts(decode), gateway.respond, old(gateway.sent), []);
        gateway.sent == after.0 &&
        outbox.calls == old(outbox.calls) + [Fetch(limit)] + after.1 &&
        outbox.status == ApplyMarks(old(outbox.status), after.1)
    {
      var jobs := outbox.FetchPendingJobs(limit);
      ghost var start := outbox.calls;
      ghost var status0 := outbox.status;
      ghost var marks: seq<OutboxCall> := [];
      for i := 0 to |jobs|
        invariant outbox.calls == start + marks
        invariant outbox.status == ApplyMarks(status0, marks)
        invariant RunSpec(jobs[i..], JobContacts(decode), gateway.respond, gateway.sent, marks) ==
                  RunSpec(jobs, JobContacts(decode), gateway.respond, old(gateway.sent), [])
      {
        ghost var sent0 := gateway.sent;
        var m := ProcessAndMark(jobs[i]);
        RunSpecAdvance(jobs, i, JobContacts(decode), gateway.respond, sent0, marks, gateway.sent, m);
        ApplyMarksConcat(status0, marks, [m]);
        SeqOps.ConcatAssoc(start, marks, [m]);
        marks := marks + [m];
      }
    }
  }
}
