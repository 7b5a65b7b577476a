/** Any number of enqueue requests for one expected context, interleaved with each other, with the kernel and
    with everything else that touches the durable jobs. Either write may take effect and still be reported as failed. */
module DurableEnqueue {
  import opened Prelude

  type Id = nat
  type Token = nat

  const LIFETIME_MS: nat := 300000

  datatype KernelJob = KernelJob(id: Id, context: nat, semantic: nat, epoch: nat)
  datatype Record = Record(reasoning: bool, job: Option<KernelJob>, context: nat, semantic: nat, control: nat,
                           epoch: nat)
  datatype Expected = Expected(context: nat, semantic: nat, control: nat)

  /** What the authority hash digests; the hash is injective, so the digested value stands for it. */
  datatype Authority = Authority(control: nat, epoch: nat, context: nat, semantic: nat)
  datatype Reference = Reference(jobId: Id, subject: nat, kernelJob: Id, authority: Authority, expiresAt: nat)
  datatype Phase = Ready | Leased | Calling | Succeeded | Dead
  datatype Durable = Durable(reference: Reference, phase: Phase)

  datatype Receipt = Receipt(jobId: Id, record: Record, seen: Durable, at: nat)

  datatype Stage =
    | Start
    | Beginning
    | BeginFailed
    | Rereading
    | Looking(record: Record)
    | Enqueueing(record: Record)
    | Confirming(record: Record)
    | Receipted(receipt: Receipt)
    | Refused

  datatype Request = Request(subject: nat, stage: Stage, begins: nat, enqueues: nat)

  /** The current kernel record and durable jobs; and, as history, every record and durable job there ever was,
      the control versions at which a begin took effect, and the durable jobs that requests have created. */
  datatype Machine = Machine(record: Record, past: map<nat, Record>, jobs: map<Id, Durable>, held: set<(Id, Durable)>,
                             requests: map<Token, Request>, begun: seq<nat>, created: seq<Id>)

  datatype Event =
    | Kernel(record: Record)
    | Journal(id: Id, job: Durable)
    | Open(token: Token, subject: nat)
    | Inspect(token: Token, found: bool, admitted: bool)
    | Begin(token: Token, kernelJob: Id, permitted: bool, acked: bool)
    | Resolve(token: Token, found: bool)
    | Reread(token: Token, found: bool)
    | Look(token: Token, now: nat)
    | Enqueue(token: Token, now: nat, permitted: bool)
    | Confirm(token: Token, readable: bool, now: nat)

  predicate ContextMatches(r: Record, x: Expected) {
    r.context == x.context && r.semantic == x.semantic
  }

  /** The final check of the record, before the durable job is looked up. */
  predicate Settled(r: Record, x: Expected) {
    && r.job.Some? && r.reasoning && ContextMatches(r, x) && r.control == x.control + 1
    && r.job.value.epoch == r.epoch && r.job.value.context == x.context && r.job.value.semantic == x.semantic
  }

  function AuthorityOf(r: Record): Authority {
    Authority(r.control, r.epoch, r.context, r.semantic)
  }

  predicate Matches(delivery: Id -> Id, r: Record, reference: Reference)
    requires r.job.Some?
  {
    reference.jobId == delivery(r.job.value.id) && reference.kernelJob == r.job.value.id
    && reference.authority == AuthorityOf(r)
  }

  function ReceiptStage(delivery: Id -> Id, r: Record, seen: Durable, now: nat): Stage
    requires r.job.Some?
  {
    if !Matches(delivery, r, seen.reference) || seen.phase == Dead || seen.reference.expiresAt <= now then Refused
    else Receipted(Receipt(delivery(r.job.value.id), r, seen, now))
  }

  function After(r: Record, x: Expected): Stage {
    if Settled(r, x) then Looking(r) else Refused
  }

  /** A begin takes effect only when no kernel job exists; it starts one under the next control version. */
  function Begun(r: Record, job: Id): Record {
    r.(job := Some(KernelJob(job, r.context, r.semantic, r.epoch + 1)), reasoning := true, control := r.control + 1,
       epoch := r.epoch + 1)
  }

  function SetRecord(m: Machine, r: Record): Machine {
    m.(record := r, past := m.past[r.control := r])
  }

  function SetJob(m: Machine, id: Id, job: Durable): Machine {
    m.(jobs := m.jobs[id := job], held := m.held + {(id, job)})
  }

  function Go(m: Machine, token: Token, stage: Stage): Machine
    requires token in m.requests
  {
    m.(requests := m.requests[token := m.requests[token].(stage := stage)])
  }

  predicate At(m: Machine, token: Token, stage: Stage) {
    token in m.requests && m.requests[token].stage == stage
  }

  predicate HasRecord(stage: Stage) {
    (stage.Looking? || stage.Enqueueing? || stage.Confirming?) && stage.record.job.Some?
  }

  /** Acknowledged or not, an enqueue is sent once and is followed by one read of the durable job. */
  function EnqueueStep(delivery: Id -> Id, m: Machine, token: Token, now: nat, permitted: bool): Machine
    requires token in m.requests && m.requests[token].stage.Enqueueing? && HasRecord(m.requests[token].stage)
  {
    var q := m.requests[token];
    var r := q.stage.record;
    var id := delivery(r.job.value.id);
    var sent := m.(requests := m.requests[token := q.(stage := Confirming(r), enqueues := q.enqueues + 1)]);
    var reference := Reference(id, q.subject, r.job.value.id, AuthorityOf(r), now + LIFETIME_MS);
    if permitted && id !in m.jobs then SetJob(sent, id, Durable(reference, Ready)).(created := m.created + [id])
       else sent
  }

  function BeginStep(m: Machine, token: Token, job: Id, permitted: bool, acked: bool): Machine
    requires token in m.requests
  {
    var q := m.requests[token];
    var applied := permitted && m.record.job.None?;
    var stage := if applied && acked then Rereading else BeginFailed;
    var sent := m.(requests := m.requests[token := q.(stage := stage, begins := q.begins + 1)]);
    if applied then SetRecord(sent, Begun(m.record, job)).(begun := m.begun + [m.record.control + 1]) else sent
  }

  function Step(delivery: Id -> Id, x: Expected, m: Machine, e: Event): Machine {
    match e
    case Kernel(record) => if record.control > m.record.control then SetRecord(m, record) else m
    case Journal(id, job) => SetJob(m, id, job)
    case Open(token, subject) =>
      if token in m.requests then m else m.(requests := m.requests[token := Request(subject, Start, 0, 0)])
    case Inspect(token, found, admitted) =>
      if !At(m, token, Start) then m
      else if !found || !ContextMatches(m.record, x) || !admitted then Go(m, token, Refused)
      else if m.record.job.Some? then Go(m, token, After(m.record, x))
      else if m.record.control != x.control then Go(m, token, Refused)
      else Go(m, token, Beginning)
    case Begin(token, job, permitted, acked) =>
      if !At(m, token, Beginning) then m else BeginStep(m, token, job, permitted, acked)
    case Resolve(token, found) =>
      if !At(m, token, BeginFailed) then m
      else if found && m.record.job.Some? && m.record.reasoning && ContextMatches(m.record, x)
              && m.record.control == x.control + 1
      then Go(m, token, Rereading) else Go(m, token, Refused)
    case Reread(token, found) =>
      if !At(m, token, Rereading) then m else if !found then Go(m, token, Refused) else Go(m, token, After(m.record, x))
    case Look(token, now) =>
      if token !in m.requests || !m.requests[token].stage.Looking? || !HasRecord(m.requests[token].stage) then m
      else
        var r := m.requests[token].stage.record;
        var id := delivery(r.job.value.id);
        Go(m, token, if id in m.jobs then ReceiptStage(delivery, r, m.jobs[id], now) else Enqueueing(r))
    case Enqueue(token, now, permitted) =>
      if token !in m.requests || !m.requests[token].stage.Enqueueing? || !HasRecord(m.requests[token].stage) then m
      else EnqueueStep(delivery, m, token, now, permitted)
    case Confirm(token, readable, now) =>
      if token !in m.requests || !m.requests[token].stage.Confirming? || !HasRecord(m.requests[token].stage) then m
      else
        var r := m.requests[token].stage.record;
        var id := delivery(r.job.value.id);
        Go(m, token, if readable && id in m.jobs then ReceiptStage(delivery, r, m.jobs[id], now) else Refused)
  }

  function Run(delivery: Id -> Id, x: Expected, m: Machine, events: seq<Event>): Machine
    decreases |events|
  {
    if events == [] then m else Run(delivery, x, Step(delivery, x, m, events[0]), events[1..])
  }

  function Initial(record: Record, jobs: map<Id, Durable>): Machine {
    Machine(record, map[record.control := record], jobs, set id | id in jobs :: (id, jobs[id]), map[], [], [])
  }

  // ----- what every interleaving keeps

  /** A record that a request holds was the kernel's record under its control version. */
  ghost predicate Witnessed(m: Machine, x: Expected, r: Record) {
    Settled(r, x) && r.control in m.past && m.past[r.control] == r
  }

  ghost predicate RequestOk(delivery: Id -> Id, x: Expected, m: Machine, q: Request) {
    && q.begins <= 1 && q.enqueues <= 1
    && (q.stage.Start? || q.stage.Beginning? ==> q.begins == 0)
    && (q.stage.Start? || q.stage.Beginning? || q.stage.BeginFailed? || q.stage.Rereading? || q.stage.Looking?
        || q.stage.Enqueueing?
        ==> q.enqueues == 0)
    && (HasRecord(q.stage) ==> Witnessed(m, x, q.stage.record))
    && (q.stage.Receipted? ==> ReceiptOk(delivery, x, m, q.stage.receipt))
  }

  /** A receipt rests on a witnessed record and on a live, unexpired durable job that matches it. */
  ghost predicate ReceiptOk(delivery: Id -> Id, x: Expected, m: Machine, t: Receipt) {
    && Witnessed(m, x, t.record)
    && t.jobId == delivery(t.record.job.value.id) && (t.jobId, t.seen) in m.held
    && Matches(delivery, t.record, t.seen.reference) && t.seen.phase != Dead && t.seen.reference.expiresAt > t.at
  }

  ghost predicate HistoryOk(delivery: Id -> Id, x: Expected, m: Machine) {
    && m.record.control in m.past && m.past[m.record.control] == m.record
    && (forall v :: v in m.past ==> v <= m.record.control)
    && (forall id :: id in m.jobs ==> (id, m.jobs[id]) in m.held)
    && (forall i, j :: 0 <= i < j < |m.begun| ==> m.begun[i] < m.begun[j])
    && (forall v :: v in m.begun ==> v <= m.record.control)
    && |m.created| <= 1
    && (forall id :: id in m.created ==> id in m.jobs && x.control + 1 in m.past && m.past[x.control + 1].job.Some?
                                         && id == delivery(m.past[x.control + 1].job.value.id))
  }

  ghost predicate MachineOk(delivery: Id -> Id, x: Expected, m: Machine) {
    HistoryOk(delivery, x, m) && forall t :: t in m.requests ==> RequestOk(delivery, x, m, m.requests[t])
  }

  /** History only grows: what was witnessed or held stays so. */
  ghost predicate Remembers(m: Machine, next: Machine) {
    (forall v :: v in m.past ==> v in next.past && next.past[v] == m.past[v]) && m.held <= next.held
  }

  lemma RequestSurvives(delivery: Id -> Id, x: Expected, m: Machine, next: Machine, q: Request)
    requires RequestOk(delivery, x, m, q) && Remembers(m, next)
    ensures RequestOk(delivery, x, next, q)
  {
  }

  lemma Assemble(delivery: Id -> Id, x: Expected, m: Machine, next: Machine, token: Token)
    requires MachineOk(delivery, x, m) && HistoryOk(delivery, x, next) && Remembers(m, next)
    requires forall t :: t in next.requests && t != token ==> t in m.requests && next.requests[t] == m.requests[t]
    requires token in next.requests ==> RequestOk(delivery, x, next, next.requests[token])
    ensures MachineOk(delivery, x, next)
  {
    forall t | t in next.requests ensures RequestOk(delivery, x, next, next.requests[t]) {
      if t != token { RequestSurvives(delivery, x, m, next, m.requests[t]); }
    }
  }

  lemma OutsideKeeps(delivery: Id -> Id, x: Expected, m: Machine, e: Event)
    requires MachineOk(delivery, x, m) && (e.Kernel? || e.Journal?)
    ensures MachineOk(delivery, x, Step(delivery, x, m, e))
  {
    var next := Step(delivery, x, m, e);
    forall t | t in next.requests ensures RequestOk(delivery, x, next, next.requests[t]) {
      RequestSurvives(delivery, x, m, next, m.requests[t]);
    }
  }

  lemma OpenKeeps(delivery: Id -> Id, x: Expected, m: Machine, e: Event)
    requires MachineOk(delivery, x, m) && e.Open?
    ensures MachineOk(delivery, x, Step(delivery, x, m, e))
  {
    Assemble(delivery, x, m, Step(delivery, x, m, e), e.token);
  }

  /** A step that only moves one request on. */
  lemma GoKeeps(delivery: Id -> Id, x: Expected, m: Machine, token: Token, stage: Stage)
    requires MachineOk(delivery, x, m) && token in m.requests
    requires RequestOk(delivery, x, m, m.requests[token].(stage := stage))
    ensures MachineOk(delivery, x, Go(m, token, stage))
  {
    Assemble(delivery, x, m, Go(m, token, stage), token);
  }

  lemma ReadKeeps(delivery: Id -> Id, x: Expected, m: Machine, e: Event)
    requires MachineOk(delivery, x, m) && (e.Inspect? || e.Resolve?)
    ensures MachineOk(delivery, x, Step(delivery, x, m, e))
  {
    var next := Step(delivery, x, m, e);
    if next != m {
      assert RequestOk(delivery, x, m, m.requests[e.token]);
      GoKeeps(delivery, x, m, e.token, next.requests[e.token].stage);
    }
  }

  lemma RereadKeeps(delivery: Id -> Id, x: Expected, m: Machine, e: Event)
    requires MachineOk(delivery, x, m) && e.Reread?
    ensures MachineOk(delivery, x, Step(delivery, x, m, e))
  {
    var next := Step(delivery, x, m, e);
    if next != m {
      assert RequestOk(delivery, x, m, m.requests[e.token]);
      GoKeeps(delivery, x, m, e.token, next.requests[e.token].stage);
    }
  }

  lemma LookKeeps(delivery: Id -> Id, x: Expected, m: Machine, e: Event)
    requires MachineOk(delivery, x, m) && (e.Look? || e.Confirm?)
    ensures MachineOk(delivery, x, Step(delivery, x, m, e))
  {
    var next := Step(delivery, x, m, e);
    if next != m {
      assert RequestOk(delivery, x, m, m.requests[e.token]);
      GoKeeps(delivery, x, m, e.token, next.requests[e.token].stage);
    }
  }

  lemma BeginHistory(delivery: Id -> Id, x: Expected, m: Machine, token: Token, job: Id, permitted: bool, acked: bool)
    requires HistoryOk(delivery, x, m) && token in m.requests
    ensures HistoryOk(delivery, x, BeginStep(m, token, job, permitted, acked))
            && Remembers(m, BeginStep(m, token, job, permitted, acked))
  {
    assert forall i :: 0 <= i < |m.begun| ==> m.begun[i] in m.begun;
  }

  lemma BeginKeeps(delivery: Id -> Id, x: Expected, m: Machine, token: Token, job: Id, permitted: bool, acked: bool)
    requires MachineOk(delivery, x, m) && At(m, token, Beginning)
    ensures MachineOk(delivery, x, BeginStep(m, token, job, permitted, acked))
  {
    assert RequestOk(delivery, x, m, m.requests[token]);
    BeginHistory(delivery, x, m, token, job, permitted, acked);
    Assemble(delivery, x, m, BeginStep(m, token, job, permitted, acked), token);
  }

  lemma EnqueueHistory(delivery: Id -> Id, x: Expected, m: Machine, token: Token, now: nat, permitted: bool)
    requires HistoryOk(delivery, x, m) && token in m.requests && m.requests[token].stage.Enqueueing?
             && HasRecord(m.requests[token].stage)
    requires Witnessed(m, x, m.requests[token].stage.record)
    ensures HistoryOk(delivery, x, EnqueueStep(delivery, m, token, now, permitted))
    ensures Remembers(m, EnqueueStep(delivery, m, token, now, permitted))
  {
    if m.created != [] { assert m.created[0] in m.created; }
  }

  lemma EnqueueKeeps(delivery: Id -> Id, x: Expected, m: Machine, token: Token, now: nat, permitted: bool)
    requires MachineOk(delivery, x, m) && token in m.requests
    requires m.requests[token].stage.Enqueueing? && HasRecord(m.requests[token].stage)
    ensures MachineOk(delivery, x, EnqueueStep(delivery, m, token, now, permitted))
  {
    assert RequestOk(delivery, x, m, m.requests[token]);
    EnqueueHistory(delivery, x, m, token, now, permitted);
    Assemble(delivery, x, m, EnqueueStep(delivery, m, token, now, permitted), token);
  }

  lemma {:induction false} RunKeeps(delivery: Id -> Id, x: Expected, m: Machine, events: seq<Event>)
    requires MachineOk(delivery, x, m)
    ensures MachineOk(delivery, x, Run(delivery, x, m, events))
    decreases |events|
  {
    if events != [] {
      var e := events[0];
      if e.Kernel? || e.Journal? { OutsideKeeps(delivery, x, m, e); }
      else if e.Open? { OpenKeeps(delivery, x, m, e); }
      else if e.Begin? {
        if At(m, e.token, Beginning) { BeginKeeps(delivery, x, m, e.token, e.kernelJob, e.permitted, e.acked); }
      }
      else if e.Enqueue? {
        if e.token in m.requests && m.requests[e.token].stage.Enqueueing? && HasRecord(m.requests[e.token].stage) {
          EnqueueKeeps(delivery, x, m, e.token, e.now, e.permitted);
        }
      }
      else if e.Look? || e.Confirm? { LookKeeps(delivery, x, m, e); }
      else if e.Reread? { RereadKeeps(delivery, x, m, e); }
      else { ReadKeeps(delivery, x, m, e); }
      RunKeeps(delivery, x, Step(delivery, x, m, e), events[1..]);
    }
  }

  // ----- the guarantees

  /** Whatever the races and lost acknowledgements, all receipts for one expected context name the same job. */
  lemma OneJobId(delivery: Id -> Id, x: Expected, record: Record, jobs: map<Id, Durable>, events: seq<Event>,
                 t: Token, u: Token)
    requires var m := Run(delivery, x, Initial(record, jobs), events);
             t in m.requests && u in m.requests && m.requests[t].stage.Receipted? && m.requests[u].stage.Receipted?
    ensures var m := Run(delivery, x, Initial(record, jobs), events);
            var a, b := m.requests[t].stage.receipt, m.requests[u].stage.receipt;
            a.jobId == b.jobId && a.record == b.record && a.seen.reference.authority == b.seen.reference.authority
  {
    RunKeeps(delivery, x, Initial(record, jobs), events);
    var m := Run(delivery, x, Initial(record, jobs), events);
    assert RequestOk(delivery, x, m, m.requests[t]) && RequestOk(delivery, x, m, m.requests[u]);
  }

  /** A receipt is given only for a durable job that was really there: matching the settled record, live and
      unexpired. */
  lemma ReceiptsAreBacked(delivery: Id -> Id, x: Expected, record: Record, jobs: map<Id, Durable>,
                          events: seq<Event>, t: Token)
    requires var m := Run(delivery, x, Initial(record, jobs), events); t in m.requests && m.requests[t].stage.Receipted?
    ensures var m := Run(delivery, x, Initial(record, jobs), events);
            var a := m.requests[t].stage.receipt;
            && x.control + 1 in m.past && m.past[x.control + 1] == a.record
            && a.record.reasoning && a.record.context == x.context && a.record.semantic == x.semantic
            && a.record.job.Some?
            && a.record.job.value == KernelJob(a.record.job.value.id, x.context, x.semantic, a.record.epoch)
            && (a.jobId, a.seen) in m.held && a.seen.phase != Dead && a.seen.reference.expiresAt > a.at
            && a.seen.reference.jobId == a.jobId && a.jobId == delivery(a.record.job.value.id)
            && a.seen.reference.kernelJob == a.record.job.value.id
            && a.seen.reference.authority == Authority(x.control + 1, a.record.epoch, x.context, x.semantic)
  {
    RunKeeps(delivery, x, Initial(record, jobs), events);
    var m := Run(delivery, x, Initial(record, jobs), events);
    assert RequestOk(delivery, x, m, m.requests[t]);
    var job := m.requests[t].stage.receipt.record.job.value;
    assert job == KernelJob(job.id, x.context, x.semantic, job.epoch);
  }

  /** Each request sends at most one begin and at most one enqueue; begins that take effect do so under different
      control versions; and all requests together create at most one durable job. */
  lemma AtMostOnce(delivery: Id -> Id, x: Expected, record: Record, jobs: map<Id, Durable>, events: seq<Event>)
    ensures var m := Run(delivery, x, Initial(record, jobs), events);
            && (forall t :: t in m.requests ==> m.requests[t].begins <= 1 && m.requests[t].enqueues <= 1)
            && (forall i, j :: 0 <= i < j < |m.begun| ==> m.begun[i] < m.begun[j])
            && |m.created| <= 1
  {
    RunKeeps(delivery, x, Initial(record, jobs), events);
    var m := Run(delivery, x, Initial(record, jobs), events);
    forall t | t in m.requests ensures m.requests[t].begins <= 1 && m.requests[t].enqueues <= 1 {
      assert RequestOk(delivery, x, m, m.requests[t]);
    }
  }

  /** A begin whose acknowledgement was lost is picked up: the request reads on with the job it started. */
  lemma LostBeginResolves(delivery: Id -> Id, x: Expected, m: Machine, token: Token, job: Id, acked: bool)
    requires At(m, token, Beginning) && m.record.job.None? && m.record.control == x.control
             && ContextMatches(m.record, x)
    ensures var sent := Step(delivery, x, m, Begin(token, job, true, acked));
            var read := Step(delivery, x, Step(delivery, x, sent, Resolve(token, true)), Reread(token, true));
            At(read, token, Looking(Begun(m.record, job)))
  {
    var sent := Step(delivery, x, m, Begin(token, job, true, acked));
    assert sent.record == Begun(m.record, job);
    assert At(sent, token, if acked then Rereading else BeginFailed);
    var resolved := Step(delivery, x, sent, Resolve(token, true));
    assert At(resolved, token, Rereading) && resolved.record == sent.record;
    assert Settled(sent.record, x);
  }

  /** Likewise an enqueue: whether or not it was acknowledged, the job it created yields the receipt. */
  lemma LostEnqueueResolves(delivery: Id -> Id, x: Expected, m: Machine, token: Token, r: Record, now: nat)
    requires At(m, token, Enqueueing(r)) && r.job.Some? && delivery(r.job.value.id) !in m.jobs
    ensures var sent := Step(delivery, x, m, Enqueue(token, now, true));
            var read := Step(delivery, x, sent, Confirm(token, true, now));
            token in read.requests && read.requests[token].stage.Receipted?
            && read.requests[token].stage.receipt.jobId == delivery(r.job.value.id)
            && read.requests[token].stage.receipt.seen.reference.subject == m.requests[token].subject
  {
    var sent := Step(delivery, x, m, Enqueue(token, now, true));
    assert At(sent, token, Confirming(r)) && delivery(r.job.value.id) in sent.jobs;
  }

  /** The record is of the expected context, its kernel job of the present epoch is being worked on, and it is one
      control version on. */
  predicate Underway(r: Record, x: Expected) {
    r.reasoning && r.context == x.context && r.semantic == x.semantic && r.control == x.control + 1 && r.job.Some?
    && r.job == Some(KernelJob(r.job.value.id, r.context, r.semantic, r.epoch))
  }

  /** What a request does on its first read, exactly: it goes on only if the record is found in the expected context and
      the queue admits it, and then with a kernel job that is underway, or to begin one under the expected version. */
  lemma InspectExactly(delivery: Id -> Id, x: Expected, m: Machine, token: Token, found: bool, admitted: bool)
    requires At(m, token, Start)
    ensures var r, next := m.record, Step(delivery, x, m, Inspect(token, found, admitted));
            && next.record == r && next.jobs == m.jobs && token in next.requests
            && (At(next, token, Looking(r)) <==> found && admitted && Underway(r, x))
            && (At(next, token, Beginning) <==>
                  found && admitted && r.job.None? && r.context == x.context && r.semantic == x.semantic
                  && r.control == x.control)
            && (At(next, token, Looking(r)) || At(next, token, Beginning) || At(next, token, Refused))
  {
    if m.record.job.Some? {
      var job := m.record.job.value;
      assert job == KernelJob(job.id, job.context, job.semantic, job.epoch);
    }
  }

  // ----- a request that nobody disturbs is served

  /** The durable job of this record is there, fits it, is not dead and has not expired. */
  predicate Receiptable(delivery: Id -> Id, r: Record, jobs: map<Id, Durable>, now: nat) {
    && r.job.Some? && delivery(r.job.value.id) in jobs
    && var d := jobs[delivery(r.job.value.id)];
       d.reference == d.reference.(jobId := delivery(r.job.value.id), kernelJob := r.job.value.id,
                                   authority := Authority(r.control, r.epoch, r.context, r.semantic))
       && d.phase != Dead && d.reference.expiresAt > now
  }

  function AskedFor(m: Machine, delivery: Id -> Id, x: Expected, token: Token, now: nat): Machine {
    Step(delivery, x, Step(delivery, x, m, Inspect(token, true, true)), Look(token, now))
  }

  function EnqueuedFor(m: Machine, delivery: Id -> Id, x: Expected, token: Token, now: nat, later: nat): Machine {
    Step(delivery, x, Step(delivery, x, m, Enqueue(token, now, true)), Confirm(token, true, later))
  }

  /** The request has a receipt for the durable job of this record, as the job now is. */
  predicate Served(delivery: Id -> Id, m: Machine, token: Token, r: Record) {
    && r.job.Some? && token in m.requests && m.requests[token].stage.Receipted?
    && var a := m.requests[token].stage.receipt;
       a.record == r && a.jobId == delivery(r.job.value.id) && a.jobId in m.jobs && a.seen == m.jobs[a.jobId]
  }

  /** A request that finds the kernel job begun, admitted and in the expected context, begins nothing. If the durable
      job is there, the request is served from it exactly if that can be receipted, and refused otherwise; if it is
      not there, the request goes on to enqueue it. */
  lemma BegunIsServed(delivery: Id -> Id, x: Expected, m: Machine, token: Token, now: nat)
    requires At(m, token, Start) && Settled(m.record, x)
    ensures var r, next := m.record, AskedFor(m, delivery, x, token, now);
            && Sent(next, token, m.requests[token].begins, m.requests[token].enqueues)
            && next.record == m.record && next.jobs == m.jobs
            && (Served(delivery, next, token, r) <==> Receiptable(delivery, r, m.jobs, now))
            && (At(next, token, Refused) <==>
                  delivery(r.job.value.id) in m.jobs && !Receiptable(delivery, r, m.jobs, now))
            && (At(next, token, Enqueueing(r)) <==> delivery(r.job.value.id) !in m.jobs)
  {
    var looking := Step(delivery, x, m, Inspect(token, true, true));
    assert At(looking, token, Looking(m.record)) && looking.record == m.record && looking.jobs == m.jobs;
    AfterLook(delivery, x, looking, token, m.record, now);
  }

  /** And an enqueue that is let through and read back in time serves it, with a fresh job of its own subject. */
  lemma EnqueuedIsServed(delivery: Id -> Id, x: Expected, m: Machine, token: Token, r: Record, now: nat, later: nat)
    requires At(m, token, Enqueueing(r)) && r.job.Some? && delivery(r.job.value.id) !in m.jobs
    requires later < now + LIFETIME_MS
    ensures var next := EnqueuedFor(m, delivery, x, token, now, later);
            && Served(delivery, next, token, r) && next.record == m.record
            && next.requests[token].begins == m.requests[token].begins
            && next.requests[token].stage.receipt.seen.phase == Ready
            && next.requests[token].stage.receipt.seen.reference.subject == m.requests[token].subject
            && next.requests[token].stage.receipt.seen.reference.expiresAt == now + LIFETIME_MS
  {
    var sent := Step(delivery, x, m, Enqueue(token, now, true));
    assert At(sent, token, Confirming(r)) && delivery(r.job.value.id) in sent.jobs && sent.record == m.record;
    AfterConfirm(delivery, x, sent, token, r, true, later);
  }

  /** The whole of an undisturbed request, whatever of the work has been done before it. */
  function Undisturbed(m: Machine, delivery: Id -> Id, x: Expected, token: Token, job: Id, acked: bool, now: nat,
                       later: nat): Machine {
    if m.record.job.Some? then Finished(AskedFor(m, delivery, x, token, now), delivery, x, token, now, later)
    else
      var sent := Step(delivery, x, Step(delivery, x, m, Inspect(token, true, true)), Begin(token, job, true, acked));
      var read := Step(delivery, x, if acked then sent else Step(delivery, x, sent, Resolve(token, true)),
                       Reread(token, true));
      Finished(Step(delivery, x, read, Look(token, now)), delivery, x, token, now, later)
  }

  function Finished(m: Machine, delivery: Id -> Id, x: Expected, token: Token, now: nat, later: nat): Machine {
    if token in m.requests && m.requests[token].stage.Enqueueing? then EnqueuedFor(m, delivery, x, token, now, later)
       else m
  }

  /** The record once the expected kernel job has been begun. */
  function BegunRecord(m: Machine, job: Id): Record {
    if m.record.job.Some? then m.record else Begun(m.record, job)
  }

  lemma BeginIsFollowed(delivery: Id -> Id, x: Expected, m: Machine, token: Token, job: Id, acked: bool)
    requires At(m, token, Start) && m.record.job.None? && m.record.control == x.control && ContextMatches(m.record, x)
    ensures var sent := Step(delivery, x, Step(delivery, x, m, Inspect(token, true, true)),
                             Begin(token, job, true, acked));
            var read := Step(delivery, x, if acked then sent else Step(delivery, x, sent, Resolve(token, true)),
                             Reread(token, true));
            At(read, token, Looking(Begun(m.record, job))) && read.jobs == m.jobs && read.record == Begun(m.record, job)
            && read.requests[token].subject == m.requests[token].subject
  {
    var beginning := Step(delivery, x, m, Inspect(token, true, true));
    assert At(beginning, token, Beginning) && beginning.record == m.record && beginning.jobs == m.jobs;
    BeginUnderExpected(delivery, x, beginning, token, job, acked);
    AfterBegin(delivery, x, beginning, token, job, true, acked);
  }

  lemma FirstIsServed(delivery: Id -> Id, x: Expected, m: Machine, token: Token, job: Id, acked: bool, now: nat,
                      later: nat)
    requires At(m, token, Start) && later < now + LIFETIME_MS
    requires m.record.job.None? && m.record.control == x.control && ContextMatches(m.record, x)
    ensures var r := Begun(m.record, job);
            var next := Undisturbed(m, delivery, x, token, job, acked, now, later);
            && next.record == r
            && (Served(delivery, next, token, r) <==>
                  delivery(r.job.value.id) !in m.jobs || Receiptable(delivery, r, m.jobs, now))
  {
    var r := Begun(m.record, job);
    BeginIsFollowed(delivery, x, m, token, job, acked);
    var sent := Step(delivery, x, Step(delivery, x, m, Inspect(token, true, true)), Begin(token, job, true, acked));
    var read := Step(delivery, x, if acked then sent else Step(delivery, x, sent, Resolve(token, true)),
                     Reread(token, true));
    AfterLook(delivery, x, read, token, r, now);
    var looked := Step(delivery, x, read, Look(token, now));
    assert looked.record == r && looked.jobs == m.jobs;
    if delivery(r.job.value.id) !in m.jobs { EnqueuedIsServed(delivery, x, looked, token, r, now, later); }
  }

  /** Whoever asks first or again, in the expected context: undisturbed, a request is served unless the durable job is
      there and cannot be receipted. */
  lemma UndisturbedIsServed(delivery: Id -> Id, x: Expected, m: Machine, token: Token, job: Id, acked: bool, now: nat,
                            later: nat)
    requires At(m, token, Start) && later < now + LIFETIME_MS
    requires Settled(m.record, x)
             || (m.record.job.None? && m.record.control == x.control && ContextMatches(m.record, x))
    ensures var r := BegunRecord(m, job);
            var next := Undisturbed(m, delivery, x, token, job, acked, now, later);
            && next.record == r
            && (Served(delivery, next, token, r) <==>
                  delivery(r.job.value.id) !in m.jobs || Receiptable(delivery, r, m.jobs, now))
  {
    var r := BegunRecord(m, job);
    if m.record.job.Some? {
      BegunIsServed(delivery, x, m, token, now);
      var asked := AskedFor(m, delivery, x, token, now);
      if delivery(r.job.value.id) !in m.jobs { EnqueuedIsServed(delivery, x, asked, token, r, now, later); }
    } else {
      FirstIsServed(delivery, x, m, token, job, acked, now, later);
    }
  }

  /** Once a request is served, every later one is served with the same job and begins and enqueues nothing, as long as
      the kernel record stands and the durable job is neither dead nor expired, whatever else has happened to it. */
  lemma ServedAgain(delivery: Id -> Id, x: Expected, m: Machine, first: Token, second: Token, subject: nat, now: nat)
    requires MachineOk(delivery, x, m) && first in m.requests && m.requests[first].stage.Receipted?
    requires second !in m.requests
    requires var a := m.requests[first].stage.receipt;
             && m.record == a.record && a.jobId in m.jobs && m.jobs[a.jobId].reference == a.seen.reference
             && m.jobs[a.jobId].phase != Dead && m.jobs[a.jobId].reference.expiresAt > now
    ensures var a := m.requests[first].stage.receipt;
            var next := AskedFor(Step(delivery, x, m, Open(second, subject)), delivery, x, second, now);
            && Served(delivery, next, second, a.record) && next.requests[second].stage.receipt.jobId == a.jobId
            && Sent(next, second, 0, 0)
  {
    var entered := Step(delivery, x, m, Open(second, subject));
    assert RequestOk(delivery, x, m, m.requests[first]);
    assert At(entered, second, Start) && entered.record == m.record && entered.jobs == m.jobs;
    BegunIsServed(delivery, x, entered, second, now);
  }

  /** A request repeated after its answer was lost: both are served with the same job. */
  lemma RepeatedIsServed(delivery: Id -> Id, x: Expected, m: Machine, first: Token, second: Token, subject: nat,
                         job: Id, acked: bool, now: nat, later: nat)
    requires MachineOk(delivery, x, m) && At(m, first, Start) && second !in m.requests && first != second
    requires m.record.job.None? && m.record.control == x.control && ContextMatches(m.record, x)
    requires delivery(job) !in m.jobs && later < now + LIFETIME_MS
    ensures var one := Undisturbed(m, delivery, x, first, job, acked, now, later);
            var two := AskedFor(Step(delivery, x, one, Open(second, subject)), delivery, x, second, later);
            && Served(delivery, one, first, Begun(m.record, job)) && Served(delivery, two, second, Begun(m.record, job))
            && Sent(two, second, 0, 0) && two.jobs == one.jobs
  {
    UndisturbedReceipt(delivery, x, m, first, job, acked, now, later);
    UndisturbedIsServed(delivery, x, m, first, job, acked, now, later);
    var one := Undisturbed(m, delivery, x, first, job, acked, now, later);
    UndisturbedAddsNobody(delivery, x, m, first, second, job, acked, now, later);
    var entered := Step(delivery, x, one, Open(second, subject));
    BegunIsServed(delivery, x, entered, second, later);
  }

  lemma StepAddsNobody(delivery: Id -> Id, x: Expected, m: Machine, e: Event, token: Token)
    requires token !in m.requests && (e.Open? ==> e.token != token)
    ensures token !in Step(delivery, x, m, e).requests
  {
  }

  lemma UndisturbedAddsNobody(delivery: Id -> Id, x: Expected, m: Machine, first: Token, second: Token, job: Id,
                              acked: bool, now: nat, later: nat)
    requires m.record.job.None? && second !in m.requests
    ensures second !in Undisturbed(m, delivery, x, first, job, acked, now, later).requests
  {
    var a := Step(delivery, x, m, Inspect(first, true, true));
    StepAddsNobody(delivery, x, m, Inspect(first, true, true), second);
    var b := Step(delivery, x, a, Begin(first, job, true, acked));
    StepAddsNobody(delivery, x, a, Begin(first, job, true, acked), second);
    var c := if acked then b else Step(delivery, x, b, Resolve(first, true));
    StepAddsNobody(delivery, x, b, Resolve(first, true), second);
    var d := Step(delivery, x, c, Reread(first, true));
    StepAddsNobody(delivery, x, c, Reread(first, true), second);
    var e := Step(delivery, x, d, Look(first, now));
    StepAddsNobody(delivery, x, d, Look(first, now), second);
    StepAddsNobody(delivery, x, e, Enqueue(first, now, true), second);
    StepAddsNobody(delivery, x, Step(delivery, x, e, Enqueue(first, now, true)), Confirm(first, true, later), second);
  }

  lemma UndisturbedReceipt(delivery: Id -> Id, x: Expected, m: Machine, token: Token, job: Id, acked: bool, now: nat,
                           later: nat)
    requires At(m, token, Start) && m.record.job.None? && m.record.control == x.control && ContextMatches(m.record, x)
    requires delivery(job) !in m.jobs && later < now + LIFETIME_MS
    ensures var r := Begun(m.record, job);
            var next := Undisturbed(m, delivery, x, token, job, acked, now, later);
            Served(delivery, next, token, r) && Receiptable(delivery, r, next.jobs, later)
  {
    BeginIsFollowed(delivery, x, m, token, job, acked);
    var r := Begun(m.record, job);
    var sent := Step(delivery, x, Step(delivery, x, m, Inspect(token, true, true)), Begin(token, job, true, acked));
    var read := Step(delivery, x, if acked then sent else Step(delivery, x, sent, Resolve(token, true)),
                     Reread(token, true));
    AfterLook(delivery, x, read, token, r, now);
    var looked := Step(delivery, x, read, Look(token, now));
    assert looked.jobs == m.jobs;
    EnqueuedIsServed(delivery, x, looked, token, r, now, later);
    EnqueuedMatches(delivery, x, looked, token, r, now, later);
  }

  lemma EnqueuedMatches(delivery: Id -> Id, x: Expected, m: Machine, token: Token, r: Record, now: nat, later: nat)
    requires At(m, token, Enqueueing(r)) && r.job.Some? && delivery(r.job.value.id) !in m.jobs
    requires later < now + LIFETIME_MS
    ensures Receiptable(delivery, r, EnqueuedFor(m, delivery, x, token, now, later).jobs, later)
  {
    var sent := Step(delivery, x, m, Enqueue(token, now, true));
    assert At(sent, token, Confirming(r));
  }

  // ----- a begin is not tied to the version the request expects

  /** A begin that takes effect does so under the version the request expects next if and only if the record still
      has the expected version when it is applied; and only then, in the same context, does the request go on. */
  lemma BeginUnderExpected(delivery: Id -> Id, x: Expected, m: Machine, token: Token, job: Id, acked: bool)
    requires At(m, token, Beginning) && m.record.job.None?
    ensures var sent := Step(delivery, x, m, Begin(token, job, true, acked));
            var resolved := if acked then sent else Step(delivery, x, sent, Resolve(token, true));
            var read := Step(delivery, x, resolved, Reread(token, true));
            && sent.begun == m.begun + [m.record.control + 1] && sent.record.job.Some?
            && (sent.record.control == x.control + 1 <==> m.record.control == x.control)
            && (At(read, token, Looking(sent.record)) <==> m.record.control == x.control && ContextMatches(m.record, x))
            && (At(read, token, Refused) <==> !(m.record.control == x.control && ContextMatches(m.record, x)))
  {
    var sent := Step(delivery, x, m, Begin(token, job, true, acked));
    assert At(sent, token, if acked then Rereading else BeginFailed) && sent.record == Begun(m.record, job);
    if !acked { AfterReading(delivery, x, sent, token, true); }
  }

  /** The record a request expects, and the same record one control version on. */
  function Idle(x: Expected, control: nat): Record {
    Record(false, None, x.context, x.semantic, control, 0)
  }

  function Overtaken(x: Expected, token: Token, subject: nat, job: Id): seq<Event> {
    [Open(token, subject), Inspect(token, true, true), Kernel(Idle(x, x.control + 1)), Begin(token, job, true, true),
     Reread(token, true)]
  }

  /** For every expected context there is such a run: the kernel moves on between the inspection and the begin, a
      kernel job is started for the version after the expected next one, and the request is refused. */
  lemma OvertakenBeginIsRefused(delivery: Id -> Id, x: Expected, token: Token, subject: nat, job: Id)
    ensures var m := Run(delivery, x, Initial(Idle(x, x.control), map[]), Overtaken(x, token, subject, job));
            && At(m, token, Refused) && m.requests[token].begins == 1
            && x.control + 2 in m.begun && m.record.job.Some? && m.record.control == x.control + 2
  {
    var events := Overtaken(x, token, subject, job);
    var m0 := Initial(Idle(x, x.control), map[]);
    var m1 := Step(delivery, x, m0, events[0]);
    var m2 := Step(delivery, x, m1, events[1]);
    var m3 := Step(delivery, x, m2, events[2]);
    assert At(m1, token, Start) && m1.record == m0.record;
    assert At(m2, token, Beginning) && m2.record == m0.record && m2.requests[token].begins == 0;
    assert At(m3, token, Beginning) && m3.record == Idle(x, x.control + 1) && m3.requests[token].begins == 0;
    BeginUnderExpected(delivery, x, m3, token, job, true);
    RunFive(delivery, x, m0, events);
  }

  lemma RunFive(delivery: Id -> Id, x: Expected, m: Machine, e: seq<Event>)
    requires |e| == 5
    ensures Run(delivery, x, m, e) ==
            Step(delivery, x, Step(delivery, x,
                                   Step(delivery, x, Step(delivery, x, Step(delivery, x, m, e[0]), e[1]), e[2]),
                                   e[3]), e[4])
  {
    assert e[1..][1..] == e[2..] && e[2..][1..] == e[3..] && e[3..][1..] == e[4..] && e[4..][1..] == [];
    var a := Step(delivery, x, m, e[0]);
    var b := Step(delivery, x, a, e[1]);
    var c := Step(delivery, x, b, e[2]);
    var d := Step(delivery, x, c, e[3]);
    assert Run(delivery, x, m, e) == Run(delivery, x, a, e[1..]);
    assert Run(delivery, x, a, e[1..]) == Run(delivery, x, b, e[2..]);
    assert Run(delivery, x, b, e[2..]) == Run(delivery, x, c, e[3..]);
    assert Run(delivery, x, c, e[3..]) == Run(delivery, x, d, e[4..]);
    assert Run(delivery, x, d, e[4..]) == Step(delivery, x, d, e[4]);
  }

  // ----- one request's handler among everybody else

  predicate ActsFor(e: Event, token: Token) {
    match e
    case Kernel(_) => false
    case Journal(_, _) => false
    case _ => e.token == token
  }

  lemma StepKeeps(delivery: Id -> Id, x: Expected, m: Machine, e: Event)
    requires MachineOk(delivery, x, m)
    ensures MachineOk(delivery, x, Step(delivery, x, m, e))
  {
    RunKeeps(delivery, x, m, [e]);
    assert [e][1..] == [];
    assert Run(delivery, x, m, [e]) == Step(delivery, x, m, e);
  }

  lemma OthersLeaveRequest(delivery: Id -> Id, x: Expected, m: Machine, e: Event, token: Token)
    requires token in m.requests && !ActsFor(e, token)
    ensures token in Step(delivery, x, m, e).requests && Step(delivery, x, m, e).requests[token] == m.requests[token]
  {
  }

  /** How often a request has begun and enqueued so far. */
  predicate Sent(m: Machine, token: Token, begins: nat, enqueues: nat) {
    token in m.requests && m.requests[token].begins == begins && m.requests[token].enqueues == enqueues
  }

  lemma AfterBegin(delivery: Id -> Id, x: Expected, m: Machine, token: Token, job: Id, permitted: bool, acked: bool)
    requires At(m, token, Beginning)
    ensures At(Step(delivery, x, m, Begin(token, job, permitted, acked)), token,
               if permitted && m.record.job.None? && acked then Rereading else BeginFailed)
    ensures Sent(Step(delivery, x, m, Begin(token, job, permitted, acked)), token,
                 m.requests[token].begins + 1, m.requests[token].enqueues)
  {
  }

  lemma AfterReading(delivery: Id -> Id, x: Expected, m: Machine, token: Token, found: bool)
    ensures At(m, token, BeginFailed) ==>
              At(Step(delivery, x, m, Resolve(token, found)), token,
                 if found && m.record.job.Some? && m.record.reasoning && ContextMatches(m.record, x)
                    && m.record.control == x.control + 1
                 then Rereading else Refused)
    ensures At(m, token, Rereading) ==>
              At(Step(delivery, x, m, Reread(token, found)), token, if found then After(m.record, x) else Refused)
    ensures token in m.requests ==>
              && Sent(Step(delivery, x, m, Resolve(token, found)), token, m.requests[token].begins,
                      m.requests[token].enqueues)
              && Sent(Step(delivery, x, m, Reread(token, found)), token, m.requests[token].begins,
                      m.requests[token].enqueues)
  {
  }

  lemma AfterLook(delivery: Id -> Id, x: Expected, m: Machine, token: Token, r: Record, now: nat)
    requires At(m, token, Looking(r)) && r.job.Some?
    ensures var id := delivery(r.job.value.id);
            At(Step(delivery, x, m, Look(token, now)), token,
               if id in m.jobs then ReceiptStage(delivery, r, m.jobs[id], now) else Enqueueing(r))
    ensures Sent(Step(delivery, x, m, Look(token, now)), token, m.requests[token].begins, m.requests[token].enqueues)
  {
  }

  lemma AfterEnqueue(delivery: Id -> Id, x: Expected, m: Machine, token: Token, r: Record, now: nat, permitted: bool)
    requires At(m, token, Enqueueing(r)) && r.job.Some?
    ensures At(Step(delivery, x, m, Enqueue(token, now, permitted)), token, Confirming(r))
    ensures Sent(Step(delivery, x, m, Enqueue(token, now, permitted)), token,
                 m.requests[token].begins, m.requests[token].enqueues + 1)
  {
  }

  lemma AfterConfirm(delivery: Id -> Id, x: Expected, m: Machine, token: Token, r: Record, readable: bool, now: nat)
    requires At(m, token, Confirming(r)) && r.job.Some?
    ensures var id := delivery(r.job.value.id);
            At(Step(delivery, x, m, Confirm(token, readable, now)), token,
               if readable && id in m.jobs then ReceiptStage(delivery, r, m.jobs[id], now) else Refused)
    ensures Sent(Step(delivery, x, m, Confirm(token, readable, now)), token, m.requests[token].begins,
                 m.requests[token].enqueues)
  {
  }

  lemma ReadLeaves(delivery: Id -> Id, x: Expected, m: Machine, e: Event)
    requires e.Open? || e.Inspect? || e.Resolve? || e.Reread? || e.Look? || e.Confirm?
    ensures Step(delivery, x, m, e).jobs == m.jobs && Step(delivery, x, m, e).record == m.record
  {
  }

  lemma BeginBegins(delivery: Id -> Id, x: Expected, m: Machine, token: Token, job: Id)
    requires At(m, token, Beginning) && m.record.job.None?
    ensures var next := Step(delivery, x, m, Begin(token, job, true, true));
            next.jobs == m.jobs && next.record == Begun(m.record, job)
  {
  }

  lemma EnqueueAdds(delivery: Id -> Id, x: Expected, m: Machine, token: Token, r: Record, now: nat)
    requires At(m, token, Enqueueing(r)) && r.job.Some? && delivery(r.job.value.id) !in m.jobs
    ensures Receiptable(delivery, r, Step(delivery, x, m, Enqueue(token, now, true)).jobs, now)
  {
  }

  /** The shared records, the other requests, and the handler of one more. */
  class Bridge {
    const delivery: Id -> Id
    const expected: Expected
    /** The time, when nobody else acts and everything that is sent arrives and is answered. */
    const quiet: Option<nat>
    var machine: Machine

    constructor (delivery: Id -> Id, expected: Expected, record: Record, jobs: map<Id, Durable>, quiet: Option<nat>)
      ensures this.delivery == delivery && this.expected == expected && this.quiet == quiet
      ensures machine == Initial(record, jobs) && Valid()
    {
      this.delivery, this.expected, this.quiet, machine := delivery, expected, quiet, Initial(record, jobs);
    }

    ghost predicate Valid()
      reads this
    {
      MachineOk(delivery, expected, machine)
    }

    ghost predicate Stands(token: Token, stage: Stage)
      reads this
    {
      At(machine, token, stage)
    }

    method Take(e: Event)
      requires Valid()
      modifies this
      ensures Valid() && machine == Step(delivery, expected, old(machine), e)
    {
      StepKeeps(delivery, expected, machine, e);
      machine := Step(delivery, expected, machine, e);
    }

    /** Any finite number of steps by anybody but this request. */
    method Others(token: Token)
      requires Valid() && token in machine.requests
      modifies this
      ensures Valid() && token in machine.requests && machine.requests[token] == old(machine.requests[token])
      ensures quiet.Some? ==> machine == old(machine)
    {
      var events: seq<Event> := *;
      if quiet.Some? { events := []; }
      for k := 0 to |events|
        invariant Valid() && token in machine.requests && machine.requests[token] == old(machine.requests[token])
        invariant quiet.Some? ==> machine == old(machine)
      {
        if !ActsFor(events[k], token) {
          OthersLeaveRequest(delivery, expected, machine, events[k], token);
          Take(events[k]);
        }
      }
    }

    /** A kernel job is begun, or found begun by somebody else, and the record is read again. */
    method BeginReasoning(token: Token) returns (record: Option<Record>)
      requires Valid() && Stands(token, Beginning)
      modifies this
      ensures Valid() && Stands(token, if record.Some? && Settled(record.value, expected) then Looking(record.value)
                                else Refused)
      ensures Sent(machine, token, old(machine.requests[token].begins) + 1, old(machine.requests[token].enqueues))
      ensures quiet.Some? && old(machine.record.job.None?) ==>
                && machine.jobs == old(machine.jobs)
                && exists job :: record == Some(Begun(old(machine.record), job))
    {
      var job: Id :| 0 <= job;
      var permitted: bool, acked: bool, found: bool := *, *, *;
      if quiet.Some? { permitted, acked := true, true; }
      var applied := permitted && machine.record.job.None?;
      AfterBegin(delivery, expected, machine, token, job, permitted, acked);
      if quiet.Some? && machine.record.job.None? { BeginBegins(delivery, expected, machine, token, job); }
      Take(Begin(token, job, permitted, acked));
      Others(token);
      if !(applied && acked) {
        var observed := machine.record;
        AfterReading(delivery, expected, machine, token, found);
        Take(Resolve(token, found));
        if !found || observed.job.None? || !observed.reasoning || !ContextMatches(observed, expected)
           || observed.control != expected.control + 1 {
          return None;
        }
        Others(token);
      }
      var readable: bool := *;
      if quiet.Some? { readable := true; }
      record := if readable then Some(machine.record) else None;
      AfterReading(delivery, expected, machine, token, readable);
      ReadLeaves(delivery, expected, machine, Reread(token, readable));
      Take(Reread(token, readable));
    }

    /** The durable job is looked up; only if it is missing is it enqueued. */
    method Settle(token: Token, record: Record) returns (receipt: Option<Receipt>)
      requires Valid() && Stands(token, Looking(record)) && record.job.Some?
      modifies this
      ensures Valid() && Stands(token, if receipt.Some? then Receipted(receipt.value) else Refused)
      ensures Sent(machine, token, old(machine.requests[token].begins),
                   old(machine.requests[token].enqueues)
                   + if delivery(record.job.value.id) in old(machine.jobs) then 0 else 1)
      ensures quiet.Some? ==>
                (receipt.Some? <==> delivery(record.job.value.id) !in old(machine.jobs)
                                    || Receiptable(delivery, record, old(machine.jobs), quiet.value))
    {
      var jobId := delivery(record.job.value.id);
      var now: nat :| 0 <= now;
      if quiet.Some? { now := quiet.value; }
      var before := machine.jobs;
      AfterLook(delivery, expected, machine, token, record, now);
      ReadLeaves(delivery, expected, machine, Look(token, now));
      Take(Look(token, now));
      if jobId in before { return ReceiptFor(record, before[jobId], now); }
      Others(token);
      receipt := Submit(token, record);
    }

    /** One enqueue, and one read of what is there afterwards. */
    method Submit(token: Token, record: Record) returns (receipt: Option<Receipt>)
      requires Valid() && Stands(token, Enqueueing(record)) && record.job.Some?
      modifies this
      ensures Valid() && Stands(token, if receipt.Some? then Receipted(receipt.value) else Refused)
      ensures Sent(machine, token, old(machine.requests[token].begins), old(machine.requests[token].enqueues) + 1)
      ensures quiet.Some? && delivery(record.job.value.id) !in old(machine.jobs) ==> receipt.Some?
    {
      var jobId := delivery(record.job.value.id);
      var time: nat, now: nat :| 0 <= time && 0 <= now;
      var permitted: bool, readable: bool := *, *;
      if quiet.Some? {
        time, now, permitted, readable := quiet.value, quiet.value, true, true;
        if jobId !in machine.jobs { EnqueueAdds(delivery, expected, machine, token, record, time); }
      }
      AfterEnqueue(delivery, expected, machine, token, record, time, permitted);
      Take(Enqueue(token, time, permitted));
      Others(token);
      var observed := machine.jobs;
      AfterConfirm(delivery, expected, machine, token, record, readable, now);
      Take(Confirm(token, readable, now));
      return if readable && jobId in observed then ReceiptFor(record, observed[jobId], now) else None;
    }

    function ReceiptFor(record: Record, seen: Durable, now: nat): Option<Receipt>
      requires record.job.Some?
    {
      if Matches(delivery, record, seen.reference) && seen.phase != Dead && seen.reference.expiresAt > now
      then Some(Receipt(delivery(record.job.value.id), record, seen, now)) else None
    }

    /** Nothing has been begun yet: that first, and then the durable job. */
    method BeginAndSettle(token: Token) returns (receipt: Option<Receipt>)
      requires Valid() && Stands(token, Beginning)
      modifies this
      ensures Valid() && Stands(token, if receipt.Some? then Receipted(receipt.value) else Refused)
      ensures machine.requests[token].begins == old(machine.requests[token].begins) + 1
      ensures machine.requests[token].enqueues <= old(machine.requests[token].enqueues) + 1
      ensures quiet.Some? && old(machine.record.job.None? && ContextMatches(machine.record, expected)
                                 && machine.record.control == expected.control && machine.jobs == map[]) ==>
                receipt.Some?
    {
      var reread := BeginReasoning(token);
      if reread.None? || !Settled(reread.value, expected) { return None; }
      Others(token);
      receipt := Settle(token, reread.value);
    }

    /** The whole request, with anybody acting between any two of its steps. */
    method Handle(token: Token, subject: nat, found: bool, admitted: bool) returns (receipt: Option<Receipt>)
      requires Valid() && token !in machine.requests
      modifies this
      ensures Valid() && Stands(token, if receipt.Some? then Receipted(receipt.value) else Refused)
      ensures machine.requests[token].begins <= 1 && machine.requests[token].enqueues <= 1
      ensures receipt.Some? ==> ReceiptOk(delivery, expected, machine, receipt.value)
      ensures !found || !admitted ==>
                receipt.None? && machine.requests[token].begins == 0 && machine.requests[token].enqueues == 0
      ensures quiet.Some? && found && admitted && Settled(old(machine.record), expected) ==>
                var id := delivery(old(machine.record).job.value.id);
                receipt.Some? <==> id !in old(machine.jobs)
                                   || Receiptable(delivery, old(machine.record), old(machine.jobs), quiet.value)
      ensures quiet.Some? && found && admitted
              && old(machine.record.job.None? && ContextMatches(machine.record, expected)
                                 && machine.record.control == expected.control && machine.jobs == map[]) ==>
                receipt.Some?
    {
      ReadLeaves(delivery, expected, machine, Open(token, subject));
      Take(Open(token, subject));
      Others(token);
      ReadLeaves(delivery, expected, machine, Inspect(token, found, admitted));
      var record := machine.record;
      Take(Inspect(token, found, admitted));
      receipt := None;
      if found && ContextMatches(record, expected) && admitted {
        if record.job.Some? {
          if Settled(record, expected) {
            Others(token);
            receipt := Settle(token, record);
          }
        } else if record.control == expected.control {
          Others(token);
          receipt := BeginAndSettle(token);
        }
      }
      assert RequestOk(delivery, expected, machine, machine.requests[token]);
    }
  }
}
